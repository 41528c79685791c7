/**
 Shielding transparent funds: the inputs are cut into batches of at most 200,
 each batch drops what the fee rule calls dust until it balances, and each
 batch that is left becomes one transaction.

 The fee rule, the transaction builder and cancellation are parameters. The
 transaction service never cancels; the job service looks before each batch.
*/
module Shielding {
  import opened Sequences
  import opened Wrappers

  const MAX_SHIELDING_INPUTS_PER_TX: nat := 200

  type Input = nat

  datatype Answer =
    | Balance(fee: nat)
    | DustInputs(transparent: set<Input>)
    | InsufficientFunds
    | OtherError

  datatype Error = NoFunds | Cancelled | Insufficient | BalanceFailed | BuildFailed

  /** The contract of the fee rule: dust it reports was offered to it. */
  ghost predicate NamesOfferedDust(fees: seq<Input> -> Answer) {
    forall s: seq<Input> | fees(s).DustInputs? :: exists x | x in s :: x in fees(s).transparent
  }

  function Retain(s: seq<Input>, excluded: set<Input>): (r: seq<Input>)
    ensures |r| <= |s|
    ensures forall x :: x in r <==> x in s && x !in excluded
  {
    if s == [] then []
    else
      assert s == [s[0]] + s[1..];
      var rest := Retain(s[1..], excluded);
      if s[0] in excluded then rest else [s[0]] + rest
  }

  function Removed(s: seq<Input>, excluded: set<Input>): (r: seq<Input>)
    ensures forall x :: x in r <==> x in s && x in excluded
  {
    if s == [] then []
    else
      assert s == [s[0]] + s[1..];
      var rest := Removed(s[1..], excluded);
      if s[0] in excluded then [s[0]] + rest else rest
  }

  lemma {:induction false} RetainPartitions(s: seq<Input>, excluded: set<Input>)
    ensures multiset(Retain(s, excluded)) + multiset(Removed(s, excluded)) == multiset(s)
  {
    if s != [] {
      RetainPartitions(s[1..], excluded);
      assert s == [s[0]] + s[1..];
    }
  }

  lemma RetainShrinks(s: seq<Input>, excluded: set<Input>)
    requires exists x | x in s :: x in excluded
    ensures |Retain(s, excluded)| < |s|
  {
    RetainPartitions(s, excluded);
    var x :| x in s && x in excluded;
    assert x in Removed(s, excluded);
    assert |multiset(Retain(s, excluded))| + |multiset(Removed(s, excluded))| == |multiset(s)|;
  }

  /** Dust that was not offered would leave the selection as it is, so that the
      same question is asked again for ever: the contract above is needed. */
  lemma {:induction false} ForeignDustMakesNoProgress(s: seq<Input>, excluded: set<Input>)
    requires forall x | x in s :: x !in excluded
    ensures Retain(s, excluded) == s
  {
    if s != [] {
      assert s == [s[0]] + s[1..];
      ForeignDustMakesNoProgress(s[1..], excluded);
    }
  }

  /** Dropped only because the fee rule called it dust in a selection it was in. */
  ghost predicate CalledDust(fees: seq<Input> -> Answer, x: Input) {
    exists s: seq<Input> :: x in s && fees(s).DustInputs? && x in fees(s).transparent
  }

  /** What is left of a batch once the dust is out, and not nothing. */
  ghost predicate IsLeft(batch: seq<Input>, dust: seq<Input>, s: seq<Input>) {
    s != [] && multiset(s) + multiset(dust) == multiset(batch)
  }

  datatype Choice =
    | Chosen(inputs: seq<Input>)
    | AllDust
    | Failed(error: Error)

  ghost predicate AllCalledDust(fees: seq<Input> -> Answer, dust: seq<Input>) {
    forall x | x in dust :: CalledDust(fees, x)
  }

  /** One round of taking out dust. */
  lemma DustRound(
    batch: seq<Input>, dust: seq<Input>, s: seq<Input>, fees: seq<Input> -> Answer)
    requires NamesOfferedDust(fees) && IsLeft(batch, dust, s) && AllCalledDust(fees, dust)
    requires fees(s).DustInputs?
    ensures var dust' := dust + Removed(s, fees(s).transparent);
            var s' := Retain(s, fees(s).transparent);
            && |s'| < |s| && AllCalledDust(fees, dust')
            && (s' != [] ==> IsLeft(batch, dust', s'))
            && (s' == [] ==> multiset(dust') == multiset(batch))
  {
    RetainPartitions(s, fees(s).transparent);
    RetainShrinks(s, fees(s).transparent);
    forall x | x in Removed(s, fees(s).transparent) ensures CalledDust(fees, x) {
      assert x in s && x in fees(s).transparent;
    }
    hide CalledDust;
  }

  /** The dust loop on one batch. */
  method SelectInputs(batch: seq<Input>, fees: seq<Input> -> Answer)
    returns (choice: Choice, dust: seq<Input>)
    requires batch != [] && NamesOfferedDust(fees)
    ensures choice.Chosen? ==>
              && IsLeft(batch, dust, choice.inputs) && |choice.inputs| <= |batch|
              && fees(choice.inputs).Balance?
    ensures choice.Failed? ==>
              exists s :: IsLeft(batch, dust, s)
                          && ((choice.error == Insufficient && fees(s).InsufficientFunds?)
                              || (choice.error == BalanceFailed && fees(s).OtherError?))
    ensures choice.AllDust? ==> multiset(dust) == multiset(batch)
    ensures AllCalledDust(fees, dust)
  {
    var selection := batch;
    dust := [];
    assert IsLeft(batch, dust, selection) && AllCalledDust(fees, dust);
    hide IsLeft, AllCalledDust, NamesOfferedDust;
    while true
      invariant selection != [] && IsLeft(batch, dust, selection) && |selection| <= |batch|
      invariant AllCalledDust(fees, dust)
      decreases |selection|
    {
      match fees(selection) {
        case Balance(_) =>
          return Chosen(selection), dust;
        case DustInputs(excluded) =>
          DustRound(batch, dust, selection, fees);
          dust := dust + Removed(selection, excluded);
          selection := Retain(selection, excluded);
          if selection == [] {
            return AllDust, dust;
          }
        case InsufficientFunds =>
          return Failed(Insufficient), dust;
        case OtherError =>
          return Failed(BalanceFailed), dust;
      }
    }
  }

  function Flatten(txs: seq<seq<Input>>): seq<Input> {
    if txs == [] then [] else txs[0] + Flatten(txs[1..])
  }

  lemma {:induction false} FlattenSnoc(txs: seq<seq<Input>>, tx: seq<Input>)
    ensures Flatten(txs + [tx]) == Flatten(txs) + tx
  {
    if txs == [] {
      assert (txs + [tx])[1..] == [];
    } else {
      FlattenSnoc(txs[1..], tx);
      assert (txs + [tx])[1..] == txs[1..] + [tx];
    }
  }

  /** `txs` are the transactions built, whatever happened afterwards; `processed`
      inputs were in batches that came to a decision. */
  datatype Report = Report(
    txs: seq<seq<Input>>, dust: seq<Input>, processed: nat, error: Option<Error>)

  /** What a run accounts for. */
  ghost predicate Accounted(inputs: seq<Input>, fees: seq<Input> -> Answer, r: Report) {
    && r.processed <= |inputs|
    && multiset(Flatten(r.txs)) + multiset(r.dust) == multiset(inputs[..r.processed])
    && (forall i | 0 <= i < |r.txs| ::
          && 0 < |r.txs[i]| <= MAX_SHIELDING_INPUTS_PER_TX && fees(r.txs[i]).Balance?)
    && AllCalledDust(fees, r.dust)
  }

  lemma AccountDust(
    inputs: seq<Input>, fees: seq<Input> -> Answer, r: Report, end: nat, dust: seq<Input>)
    requires Accounted(inputs, fees, r) && r.processed <= end <= |inputs|
    requires multiset(dust) == multiset(inputs[r.processed..end])
    requires AllCalledDust(fees, dust)
    ensures Accounted(inputs, fees, r.(dust := r.dust + dust, processed := end))
  {
    hide CalledDust;
    assert inputs[..end] == inputs[..r.processed] + inputs[r.processed..end];
  }

  lemma AccountTx(
    inputs: seq<Input>, fees: seq<Input> -> Answer, r: Report, end: nat,
    tx: seq<Input>, dust: seq<Input>)
    requires Accounted(inputs, fees, r) && r.processed <= end <= |inputs|
    requires IsLeft(inputs[r.processed..end], dust, tx)
    requires |tx| <= MAX_SHIELDING_INPUTS_PER_TX && fees(tx).Balance?
    requires AllCalledDust(fees, dust)
    ensures Accounted(inputs, fees,
                      r.(txs := r.txs + [tx], dust := r.dust + dust, processed := end))
  {
    hide CalledDust, Flatten;
    FlattenSnoc(r.txs, tx);
    assert inputs[..end] == inputs[..r.processed] + inputs[r.processed..end];
  }

  lemma ErrorKeepsAccount(
    inputs: seq<Input>, fees: seq<Input> -> Answer, r: Report, error: Option<Error>)
    requires Accounted(inputs, fees, r)
    ensures Accounted(inputs, fees, r.(error := error))
  {
  }

  /** The batch after the first `processed` inputs. */
  function BatchAt(inputs: seq<Input>, processed: nat): seq<Input>
    requires processed <= |inputs|
  {
    if processed + MAX_SHIELDING_INPUTS_PER_TX < |inputs|
    then inputs[processed..processed + MAX_SHIELDING_INPUTS_PER_TX]
    else inputs[processed..]
  }

  /** Why a run ends early: an objection to the batch it had come to, and to what was
      left of that batch after some dust. */
  ghost predicate Explained(
    inputs: seq<Input>, fees: seq<Input> -> Answer, builds: seq<Input> -> bool,
    cancelled: nat -> bool, processed: nat, error: Error)
    requires processed <= |inputs|
  {
    match error
    case NoFunds => processed == |inputs|
    case Cancelled => cancelled(processed / MAX_SHIELDING_INPUTS_PER_TX)
    case _ =>
      exists dust, s :: IsLeft(BatchAt(inputs, processed), dust, s) && Objects(fees, builds, s, error)
  }

  predicate Objects(
    fees: seq<Input> -> Answer, builds: seq<Input> -> bool, s: seq<Input>, error: Error)
  {
    match error
    case Insufficient => fees(s).InsufficientFunds?
    case BalanceFailed => fees(s).OtherError?
    case BuildFailed => fees(s).Balance? && !builds(s)
    case _ => false
  }

  lemma StopsExplained(
    inputs: seq<Input>, fees: seq<Input> -> Answer, builds: seq<Input> -> bool,
    cancelled: nat -> bool, processed: nat, dust: seq<Input>, s: seq<Input>, error: Error)
    requires processed <= |inputs| && IsLeft(BatchAt(inputs, processed), dust, s)
    requires Objects(fees, builds, s, error)
    ensures Explained(inputs, fees, builds, cancelled, processed, error)
  {
  }

  lemma CancelExplained(
    inputs: seq<Input>, fees: seq<Input> -> Answer, builds: seq<Input> -> bool,
    cancelled: nat -> bool, processed: nat, batchNo: nat)
    requires processed == batchNo * MAX_SHIELDING_INPUTS_PER_TX <= |inputs| && cancelled(batchNo)
    ensures Explained(inputs, fees, builds, cancelled, processed, Cancelled)
  {
  }

  /** `shield_funds` and `shield_funds_blocking`. */
  method ShieldFunds(
    inputs: seq<Input>, fees: seq<Input> -> Answer,
    builds: seq<Input> -> bool, cancelled: nat -> bool
  ) returns (r: Report)
    requires NamesOfferedDust(fees)
    ensures Accounted(inputs, fees, r)
    ensures r.error.None? ==> r.txs != [] && r.processed == |inputs|
    ensures r.error == Some(NoFunds) ==> r.txs == [] && r.processed == |inputs|
    ensures r.error.None? || r.error == Some(NoFunds) || r.processed < |inputs|
    ensures forall i | 0 <= i < |r.txs| :: builds(r.txs[i])
    ensures r.error.Some? ==>
              Explained(inputs, fees, builds, cancelled, r.processed, r.error.value)
  {
    r := Report([], [], 0, None);
    assert Accounted(inputs, fees, r);
    assert Explained(inputs, fees, builds, cancelled, |inputs|, NoFunds);
    hide Accounted, NamesOfferedDust, AllCalledDust, Explained, IsLeft;
    if inputs == [] {
      ErrorKeepsAccount(inputs, fees, r, Some(NoFunds));
      return r.(error := Some(NoFunds));
    }
    var batchNo := 0;
    while r.processed < |inputs|
      invariant r.processed <= |inputs| && r.error.None?
      invariant Accounted(inputs, fees, r)
      invariant r.processed == |inputs| || r.processed == batchNo * MAX_SHIELDING_INPUTS_PER_TX
      invariant forall i | 0 <= i < |r.txs| :: builds(r.txs[i])
      decreases |inputs| - r.processed
    {
      if cancelled(batchNo) {
        CancelExplained(inputs, fees, builds, cancelled, r.processed, batchNo);
        ErrorKeepsAccount(inputs, fees, r, Some(Cancelled));
        return r.(error := Some(Cancelled));
      }
      var end := if r.processed + MAX_SHIELDING_INPUTS_PER_TX < |inputs|
                 then r.processed + MAX_SHIELDING_INPUTS_PER_TX else |inputs|;
      var batch := inputs[r.processed..end];
      assert batch == BatchAt(inputs, r.processed);
      var choice, dust := SelectInputs(batch, fees);
      match choice {
        case Failed(error) =>
          ghost var s :| IsLeft(batch, dust, s) && Objects(fees, builds, s, error);
          StopsExplained(inputs, fees, builds, cancelled, r.processed, dust, s, error);
          ErrorKeepsAccount(inputs, fees, r, Some(error));
          return r.(error := Some(error));
        case AllDust =>
          AccountDust(inputs, fees, r, end, dust);
          r := r.(dust := r.dust + dust, processed := end);
        case Chosen(selection) =>
          if !builds(selection) {
            StopsExplained(inputs, fees, builds, cancelled, r.processed, dust, selection, BuildFailed);
            ErrorKeepsAccount(inputs, fees, r, Some(BuildFailed));
            return r.(error := Some(BuildFailed));
          }
          AccountTx(inputs, fees, r, end, selection, dust);
          r := r.(txs := r.txs + [selection], dust := r.dust + dust, processed := end);
      }
      batchNo := batchNo + 1;
    }
    if r.txs == [] {
      ErrorKeepsAccount(inputs, fees, r, Some(NoFunds));
      r := r.(error := Some(NoFunds));
    }
  }

  lemma {:induction false} DistinctOccursOnce(s: seq<Input>, x: Input)
    requires Distinct(s)
    ensures multiset(s)[x] <= 1
  {
    if s != [] {
      var init := s[..|s| - 1];
      assert s == init + [s[|s| - 1]];
      DistinctOccursOnce(init, x);
    }
  }

  lemma {:induction false} FlattenCounts(txs: seq<seq<Input>>, i: nat, x: Input)
    requires i < |txs|
    ensures multiset(Flatten(txs))[x] >= multiset(txs[i])[x]
    ensures forall j | i < j < |txs| ::
              multiset(Flatten(txs))[x] >= multiset(txs[i])[x] + multiset(txs[j])[x]
  {
    var rest := txs[1..];
    if i == 0 {
      forall j | 0 < j < |txs|
        ensures multiset(Flatten(txs))[x] >= multiset(txs[0])[x] + multiset(txs[j])[x]
      {
        FlattenCounts(rest, j - 1, x);
        assert rest[j - 1] == txs[j];
      }
    } else {
      FlattenCounts(rest, i - 1, x);
      assert rest[i - 1] == txs[i];
      forall j | i < j < |txs|
        ensures multiset(Flatten(txs))[x] >= multiset(txs[i])[x] + multiset(txs[j])[x]
      {
        assert rest[j - 1] == txs[j];
      }
    }
  }

  /** Nothing is spent twice: with distinct inputs, an input is in at most one
      transaction, and never both in a transaction and among the dust; and every
      processed input is in one or the other. */
  lemma InputsAreConserved(inputs: seq<Input>, fees: seq<Input> -> Answer, r: Report, x: Input)
    requires Distinct(inputs) && Accounted(inputs, fees, r)
    ensures forall i, j | 0 <= i < j < |r.txs| :: !(x in r.txs[i] && x in r.txs[j])
    ensures !(x in r.dust && x in Flatten(r.txs))
    ensures x in inputs[..r.processed] <==> x in r.dust || x in Flatten(r.txs)
  {
    DistinctOccursOnce(inputs[..r.processed], x);
    forall i, j | 0 <= i < j < |r.txs| ensures !(x in r.txs[i] && x in r.txs[j]) {
      FlattenCounts(r.txs, i, x);
    }
    assert multiset(r.dust)[x] + multiset(Flatten(r.txs))[x] == multiset(inputs[..r.processed])[x];
    assert x in multiset(inputs[..r.processed]) <==> x in inputs[..r.processed];
  }

  /** With no objection from anyone the run goes through all inputs: they end up in
      transactions or, called dust, nowhere. */
  lemma WithoutObjectionsAllIsProcessed(
    inputs: seq<Input>, fees: seq<Input> -> Answer, builds: seq<Input> -> bool,
    cancelled: nat -> bool, r: Report)
    requires Accounted(inputs, fees, r)
    requires r.error.None? ==> r.processed == |inputs|
    requires r.error.Some? ==>
               Explained(inputs, fees, builds, cancelled, r.processed, r.error.value)
    requires forall s: seq<Input> :: !fees(s).InsufficientFunds? && !fees(s).OtherError? && builds(s)
    requires forall k :: !cancelled(k)
    ensures r.processed == |inputs|
    ensures multiset(Flatten(r.txs)) + multiset(r.dust) == multiset(inputs)
    ensures (forall s: seq<Input> :: !fees(s).DustInputs?) ==> r.dust == []
  {
    assert inputs[..|inputs|] == inputs;
    if r.dust != [] {
      assert r.dust[0] in r.dust;
    }
  }
}
