/**
 Fresh shielded addresses: the search for a derivable diversifier index and the
 stored next index. Derivability and the wallet's address list are answers of
 the wallet backend. The store keeps the next index in a signed 64-bit column.
*/
module AddressRotation {
  import opened Wrappers

  const U64_MAX: nat := 0xffff_ffff_ffff_ffff
  const I64_MAX: nat := 0x7fff_ffff_ffff_ffff
  const MAX_CANDIDATES: nat := 1000

  datatype Derivation = Derived | NotDerivable | BackendError

  datatype Error =
    | IndexOutOfRange
    | DeriveFailed
    | StoreFailed
    | IndexOverflow
    | UnableToDerive

  function SaturatingSucc(n: nat): nat {
    if n >= U64_MAX then U64_MAX else n + 1
  }

  predicate AllInRange(existing: seq<nat>) {
    forall i | 0 <= i < |existing| :: existing[i] <= U64_MAX
  }

  /** One past the largest existing index, saturating; zero if there is none. */
  ghost predicate IsFloor(existing: seq<nat>, floor: nat) {
    && (forall i | 0 <= i < |existing| :: SaturatingSucc(existing[i]) <= floor)
    && (floor == 0 || exists i | 0 <= i < |existing| :: SaturatingSucc(existing[i]) == floor)
  }

  /** The first candidate from `from` on that the backend does not pass over. */
  ghost predicate IsFirstHit(derive: nat -> Derivation, from: nat, i: nat) {
    && from <= i < from + MAX_CANDIDATES && i <= U64_MAX
    && derive(i) != NotDerivable
    && forall j | from <= j < i :: derive(j) == NotDerivable
  }

  ghost predicate NoHit(derive: nat -> Derivation, from: nat) {
    forall j | from <= j < from + MAX_CANDIDATES && j <= U64_MAX :: derive(j) == NotDerivable
  }

  /** Where the search starts. */
  ghost predicate IsStart(stored: Option<nat>, existing: seq<nat>, start: nat) {
    exists floor :: IsFloor(existing, floor)
      && start == if stored.Some? && stored.value > floor then stored.value else floor
  }

  /** What one call may answer, by the meaning of the search. */
  ghost predicate Answers(
    stored: Option<nat>, existing: seq<nat>, derive: nat -> Derivation, r: Result<nat, Error>)
  {
    if !AllInRange(existing) then r == Err(IndexOutOfRange)
    else exists start :: IsStart(stored, existing, start) && AnswersFrom(derive, start, r)
  }

  ghost predicate AnswersFrom(derive: nat -> Derivation, start: nat, r: Result<nat, Error>) {
    match r
    case Ok(i) => IsFirstHit(derive, start, i) && derive(i) == Derived && i < I64_MAX
    case Err(StoreFailed) =>
      exists i: nat :: IsFirstHit(derive, start, i) && derive(i) == Derived && i >= I64_MAX
    case Err(DeriveFailed) =>
      exists i: nat :: IsFirstHit(derive, start, i) && derive(i) == BackendError
    case Err(IndexOverflow) => start + MAX_CANDIDATES > U64_MAX && NoHit(derive, start)
    case Err(UnableToDerive) => start + MAX_CANDIDATES <= U64_MAX && NoHit(derive, start)
    case Err(IndexOutOfRange) => false
  }

  type Account = nat

  class RotationStore {
    var next: map<Account, nat>

    constructor ()
      ensures next == map[]
    {
      next := map[];
    }

    ghost function Stored(account: Account): Option<nat>
      reads this
    {
      if account in next then Some(next[account]) else None
    }

    ghost predicate Valid()
      reads this
    {
      forall a | a in next :: next[a] <= I64_MAX
    }

    /** `set_next_diversifier_index`. */
    method SetNext(account: Account, index: nat) returns (ok: bool)
      requires Valid()
      modifies this
      ensures Valid()
      ensures ok <==> index <= I64_MAX
      ensures next == if ok then old(next)[account := index] else old(next)
    {
      ok := index <= I64_MAX;
      if ok {
        next := next[account := index];
      }
    }

    /** The `ShieldedOnly` branch of `get_receive_address`. */
    method GetShieldedAddress(
      account: Account, existing: seq<nat>, derive: nat -> Derivation
    ) returns (r: Result<nat, Error>)
      requires Valid()
      modifies this
      ensures Valid()
      ensures Answers(old(Stored(account)), existing, derive, r)
      ensures next == if r.Ok? then old(next)[account := r.value + 1] else old(next)
    {
      var maxExisting: Option<nat> := None;
      for k := 0 to |existing|
        invariant AllInRange(existing[..k])
        invariant maxExisting.None? <==> k == 0
        invariant maxExisting.Some? ==> maxExisting.value in existing[..k]
        invariant forall i | 0 <= i < k :: existing[i] <= maxExisting.value
      {
        if existing[k] > U64_MAX {
          return Err(IndexOutOfRange);
        }
        maxExisting := if maxExisting.None? || existing[k] > maxExisting.value
                       then Some(existing[k]) else maxExisting;
      }
      assert existing[..|existing|] == existing;
      var minNext := if maxExisting.Some? then SaturatingSucc(maxExisting.value) else 0;
      assert IsFloor(existing, minNext);
      var nextDi := if account in next then next[account] else minNext;
      if nextDi < minNext {
        nextDi := minNext;
      }
      assert IsStart(old(Stored(account)), existing, nextDi);
      r := Search(account, nextDi, derive);
    }

    /** At most 1000 candidates; the next index is stored before the address is
        handed out. */
    method Search(account: Account, start: nat, derive: nat -> Derivation)
      returns (r: Result<nat, Error>)
      requires Valid() && start <= U64_MAX
      modifies this
      ensures Valid()
      ensures AnswersFrom(derive, start, r)
      ensures next == if r.Ok? then old(next)[account := r.value + 1] else old(next)
    {
      var candidate := start;
      for k := 0 to MAX_CANDIDATES
        invariant candidate == start + k <= U64_MAX
        invariant forall j | start <= j < candidate :: derive(j) == NotDerivable
        invariant Valid() && next == old(next)
      {
        match derive(candidate) {
          case BackendError =>
            assert IsFirstHit(derive, start, candidate);
            return Err(DeriveFailed);
          case Derived =>
            assert IsFirstHit(derive, start, candidate);
            var ok := SetNext(account, SaturatingSucc(candidate));
            if !ok {
              return Err(StoreFailed);
            }
            return Ok(candidate);
          case NotDerivable =>
            if candidate == U64_MAX {
              return Err(IndexOverflow);
            }
            candidate := candidate + 1;
        }
      }
      return Err(UnableToDerive);
    }
  }

  // ---------------------------------------------------------------------------
  // Runs
  // ---------------------------------------------------------------------------

  /** One call for one account: what the backend answered and what came of it. */
  datatype Call = Call(
    account: Account, existing: seq<nat>, derive: nat -> Derivation, result: Result<nat, Error>)

  function StoredIn(next: map<Account, nat>, account: Account): Option<nat> {
    if account in next then Some(next[account]) else None
  }

  function AfterCall(next: map<Account, nat>, c: Call): map<Account, nat> {
    if c.result.Ok? then next[c.account := c.result.value + 1] else next
  }

  /** A history of calls, each allowed by the contract above. */
  ghost predicate History(next: map<Account, nat>, calls: seq<Call>)
    decreases |calls|
  {
    calls == []
    || (&& Answers(StoredIn(next, calls[0].account), calls[0].existing, calls[0].derive,
                   calls[0].result)
        && History(AfterCall(next, calls[0]), calls[1..]))
  }

  lemma StartIsUnique(stored: Option<nat>, existing: seq<nat>, a: nat, b: nat)
    requires IsStart(stored, existing, a) && IsStart(stored, existing, b)
    ensures a == b
  {
    var f :| IsFloor(existing, f)
      && a == if stored.Some? && stored.value > f then stored.value else f;
    var g :| IsFloor(existing, g)
      && b == if stored.Some? && stored.value > g then stored.value else g;
  }

  lemma FirstHitIsUnique(derive: nat -> Derivation, start: nat, i: nat, j: nat)
    requires IsFirstHit(derive, start, i) && IsFirstHit(derive, start, j)
    ensures i == j && !NoHit(derive, start)
  {
  }

  lemma AnswerFromIsUnique(
    derive: nat -> Derivation, start: nat, r: Result<nat, Error>, r': Result<nat, Error>)
    requires AnswersFrom(derive, start, r) && AnswersFrom(derive, start, r')
    ensures r == r'
  {
    forall i: nat, j: nat | IsFirstHit(derive, start, i) && IsFirstHit(derive, start, j)
      ensures i == j && !NoHit(derive, start)
    {
      FirstHitIsUnique(derive, start, i, j);
    }
    hide IsFirstHit, NoHit;
  }

  /** The meaning of the search leaves no freedom: one answer for every input. */
  lemma AnswerIsUnique(
    stored: Option<nat>, existing: seq<nat>, derive: nat -> Derivation,
    r: Result<nat, Error>, r': Result<nat, Error>)
    requires Answers(stored, existing, derive, r) && Answers(stored, existing, derive, r')
    ensures r == r'
  {
    hide IsStart, AnswersFrom;
    if AllInRange(existing) {
      var a :| IsStart(stored, existing, a) && AnswersFrom(derive, a, r);
      var b :| IsStart(stored, existing, b) && AnswersFrom(derive, b, r');
      StartIsUnique(stored, existing, a, b);
      AnswerFromIsUnique(derive, a, r, r');
    }
  }

  lemma AnswerIsFresh(
    stored: Option<nat>, existing: seq<nat>, derive: nat -> Derivation, r: Result<nat, Error>)
    requires Answers(stored, existing, derive, r) && r.Ok?
    ensures stored.Some? ==> r.value >= stored.value
    ensures forall i | 0 <= i < |existing| :: r.value > existing[i]
    ensures derive(r.value) == Derived
  {
    var start :| IsStart(stored, existing, start) && AnswersFrom(derive, start, r);
    var floor :| IsFloor(existing, floor)
      && start == if stored.Some? && stored.value > floor then stored.value else floor;
    forall i | 0 <= i < |existing| ensures r.value > existing[i] {
      assert SaturatingSucc(existing[i]) <= floor;
    }
  }

  lemma {:induction false} LaterIsLarger(next: map<Account, nat>, calls: seq<Call>, j: nat)
    requires History(next, calls) && j < |calls| && calls[j].result.Ok?
    requires calls[j].account in next
    ensures calls[j].result.value >= next[calls[j].account]
    decreases |calls|
  {
    var c := calls[0];
    if c.result.Ok? && c.account == calls[j].account {
      AnswerIsFresh(StoredIn(next, c.account), c.existing, c.derive, c.result);
    }
    if j > 0 {
      assert calls[1..][j - 1] == calls[j];
      LaterIsLarger(AfterCall(next, c), calls[1..], j - 1);
    }
  }

  /** Over any run, whatever the wallet lists and can derive, the indices handed
      out for an account strictly increase, so none is handed out twice. */
  lemma {:induction false} IndicesStrictlyIncrease(
    next: map<Account, nat>, calls: seq<Call>, i: nat, j: nat)
    requires History(next, calls) && i < j < |calls|
    requires calls[i].account == calls[j].account
    requires calls[i].result.Ok? && calls[j].result.Ok?
    ensures calls[i].result.value < calls[j].result.value
    decreases |calls|
  {
    var after := AfterCall(next, calls[0]);
    assert calls[1..][j - 1] == calls[j];
    if i == 0 {
      LaterIsLarger(after, calls[1..], j - 1);
    } else {
      assert calls[1..][i - 1] == calls[i];
      IndicesStrictlyIncrease(after, calls[1..], i - 1, j - 1);
    }
  }
}
