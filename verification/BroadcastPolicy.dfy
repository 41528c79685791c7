/**
 Classification of broadcast errors, the retry budget and the backoff table.

 Messages are already lower-cased. The random jitter is a parameter, and
 millisecond arithmetic is over `real` where the source uses `f64`.
*/
module BroadcastPolicy {
  import opened Wrappers

  const FAILOVER_TRANSPORT_FAILURE_THRESHOLD: nat := 2
  const MAX_TOTAL_BROADCAST_RETRY_ATTEMPTS: nat := 7
  const MAX_UNKNOWN_BROADCAST_RETRY_ATTEMPTS: nat := 3
  const RETRY_SCHEDULE_SECS: seq<nat> := [5, 15, 45, 120, 300, 900, 1800]

  datatype ErrorClass = TransientTransport | TransientServer | Terminal | Unknown

  predicate Contains(s: string, part: string) {
    part <= s || (s != [] && Contains(s[1..], part))
  }

  predicate ContainsAny(s: string, parts: seq<string>) {
    exists i | 0 <= i < |parts| :: Contains(s, parts[i])
  }

  const DUPLICATE: seq<string> := ["already in mempool", "already known", "txn-already-in-mempool"]
  const REJECTED: seq<string> :=
    ["broadcast rejected", "non-mandatory-script-verify-flag", "bad-txns", "already spent",
     "double spend", "txn-mempool-conflict"]
  const TRANSPORT: seq<string> :=
    ["failed to connect", "connection", "transport", "timed out", "timeout", "deadline exceeded",
     "unavailable", "broken pipe", "reset by peer", "refused", "dns", "h2"]
  const SERVER: seq<string> :=
    ["resource exhausted", "temporarily", "try again", "sendtransaction rpc failed", "rpc failed",
     "internal"]

  /** The transaction is already propagated: the failure counts as success. */
  predicate IsEffectiveSuccess(message: string) {
    ContainsAny(message, DUPLICATE)
  }

  function Classify(message: string): ErrorClass {
    if IsEffectiveSuccess(message) then TransientServer
    else if ContainsAny(message, REJECTED) then Terminal
    else if ContainsAny(message, TRANSPORT) then TransientTransport
    else if ContainsAny(message, SERVER) then TransientServer
    else Unknown
  }

  predicate StandsAt(s: string, part: string, i: nat) {
    i + |part| <= |s| && s[i..i + |part|] == part
  }

  lemma StandsInTail(s: string, part: string, i: nat)
    requires s != []
    ensures StandsAt(s, part, i + 1) <==> StandsAt(s[1..], part, i)
  {
    if i + 1 + |part| <= |s| {
      assert s[i + 1..i + 1 + |part|] == s[1..][i..i + |part|];
    }
  }

  lemma StandsAtStart(s: string, part: string)
    ensures StandsAt(s, part, 0) <==> part <= s
  {
  }

  /** Searching finds `part` exactly if it stands somewhere. */
  lemma {:induction false} ContainsExactly(s: string, part: string)
    ensures Contains(s, part) <==> exists i: nat :: StandsAt(s, part, i)
  {
    StandsAtStart(s, part);
    if s != [] {
      ContainsExactly(s[1..], part);
      forall i: nat { StandsInTail(s, part, i); }
      hide StandsAt;
      if i: nat :| StandsAt(s, part, i) {
        assert i == 0 || StandsAt(s[1..], part, i - 1);
      }
      if i: nat :| StandsAt(s[1..], part, i) {
        assert StandsAt(s, part, i + 1);
      }
    }
  }

  /** The four lists in order of precedence: a duplicate is never terminal, a rejection
      is never retried whatever else the message says, and nothing known is unknown. */
  lemma ClassExactly(m: string)
    ensures Classify(m) == Terminal <==> ContainsAny(m, REJECTED) && !ContainsAny(m, DUPLICATE)
    ensures Classify(m) == TransientTransport <==>
              ContainsAny(m, TRANSPORT) && !ContainsAny(m, REJECTED) && !ContainsAny(m, DUPLICATE)
    ensures Classify(m) == Unknown <==>
              && !ContainsAny(m, DUPLICATE) && !ContainsAny(m, REJECTED)
              && !ContainsAny(m, TRANSPORT) && !ContainsAny(m, SERVER)
    ensures IsEffectiveSuccess(m) ==> Classify(m) == TransientServer
    ensures IsRetryable(Classify(m)) <==> !ContainsAny(m, REJECTED) || ContainsAny(m, DUPLICATE)
  {
    hide ContainsAny;
  }

  lemma Mentions(pre: string, part: string, post: string)
    ensures Contains(pre + part + post, part)
  {
    ContainsExactly(pre + part + post, part);
    assert StandsAt(pre + part + post, part, |pre|);
  }

  lemma MentionsListed(pre: string, parts: seq<string>, k: nat, post: string)
    requires k < |parts|
    ensures ContainsAny(pre + parts[k] + post, parts)
  {
    Mentions(pre, parts[k], post);
    hide Contains;
  }

  /** Whatever stands around them: a relay that already has the transaction counts as
      delivered, a rejection is final unless it is such a relay, and a timeout is a
      transport failure unless it is one of those. */
  lemma TypicalMessages(pre: string, post: string)
    ensures var m := pre + "already in mempool" + post;
            IsEffectiveSuccess(m) && Classify(m) == TransientServer
    ensures var m := pre + "already known" + post;
            IsEffectiveSuccess(m) && Classify(m) == TransientServer
    ensures var m := pre + "broadcast rejected" + post;
            Classify(m) == if IsEffectiveSuccess(m) then TransientServer else Terminal
    ensures var m := pre + "already spent" + post;
            Classify(m) == if IsEffectiveSuccess(m) then TransientServer else Terminal
    ensures var m := pre + "timed out" + post;
            Classify(m) in {TransientTransport, Terminal, TransientServer}
            && (Classify(m) != TransientTransport ==>
                  IsEffectiveSuccess(m) || ContainsAny(m, REJECTED))
  {
    hide ContainsAny;
    MentionsListed(pre, DUPLICATE, 0, post);
    MentionsListed(pre, DUPLICATE, 1, post);
    MentionsListed(pre, REJECTED, 0, post);
    MentionsListed(pre, REJECTED, 3, post);
    MentionsListed(pre, TRANSPORT, 3, post);
  }

  predicate IsRetryable(class_: ErrorClass) {
    class_ in {TransientTransport, TransientServer, Unknown}
  }

  function RetryBudgetTerminalReason(class_: ErrorClass, attempts: nat): Option<string> {
    if class_ == Unknown && attempts >= MAX_UNKNOWN_BROADCAST_RETRY_ATTEMPTS then
      Some("unknown broadcast retry budget exhausted")
    else if attempts >= MAX_TOTAL_BROADCAST_RETRY_ATTEMPTS then
      Some("broadcast retry budget exhausted")
    else None
  }

  predicate ShouldTriggerFailover(streak: nat) {
    streak >= FAILOVER_TRANSPORT_FAILURE_THRESHOLD
  }

  function RetryBackoffBase(attempts: nat): nat {
    if attempts < |RETRY_SCHEDULE_SECS| then RETRY_SCHEDULE_SECS[attempts]
    else RETRY_SCHEDULE_SECS[|RETRY_SCHEDULE_SECS| - 1]
  }

  /** The generator draws an offset from the closed interval of a fifth of the base. */
  predicate JitterInRange(attempts: nat, offset: real) {
    var jitter := (RetryBackoffBase(attempts) * 1000) as real * 0.2;
    -jitter <= offset <= jitter
  }

  /** Milliseconds to wait; `round` sends halves away from zero. */
  function RetryBackoffWithJitter(attempts: nat, offset: real): (ms: int) {
    var jittered := (RetryBackoffBase(attempts) * 1000) as real + offset;
    ((if jittered < 1.0 then 1.0 else jittered) + 0.5).Floor
  }

  /** The draw as a fraction, from -1 to 1, of the jitter interval. */
  function JitterOffset(attempts: nat, draw: real): real {
    (RetryBackoffBase(attempts) * 1000) as real * 0.2 * draw
  }

  lemma DrawsStayInRange(attempts: nat, draw: real)
    requires -1.0 <= draw <= 1.0
    ensures JitterInRange(attempts, JitterOffset(attempts, draw))
  {
    var jitter := (RetryBackoffBase(attempts) * 1000) as real * 0.2;
    assert jitter * draw <= jitter * 1.0;
    assert jitter * -1.0 <= jitter * draw;
  }

  /** Rounding never leaves the window of a fifth around the base. */
  lemma BackoffWithinFifth(attempts: nat, offset: real)
    requires JitterInRange(attempts, offset)
    ensures 800 * RetryBackoffBase(attempts)
         <= RetryBackoffWithJitter(attempts, offset)
         <= 1200 * RetryBackoffBase(attempts)
  {
    var base := RetryBackoffBase(attempts);
    var jittered := (base * 1000) as real + offset;
    assert (800 * base) as real <= jittered <= (1200 * base) as real;
    assert jittered >= 1.0;
  }

  /** Within the table the windows are disjoint: a later attempt always waits
      strictly longer, whatever the jitter. */
  lemma BackoffGrowsDespiteJitter(k: nat, m: nat, x: real, y: real)
    requires k < m < |RETRY_SCHEDULE_SECS|
    requires JitterInRange(k, x) && JitterInRange(m, y)
    ensures RetryBackoffWithJitter(k, x) < RetryBackoffWithJitter(m, y)
  {
    BackoffWithinFifth(k, x);
    BackoffWithinFifth(m, y);
    BasesTriple(k, m);
  }

  /** Beyond the table the wait stays at its last entry of half an hour, so it never
      falls again. */
  lemma BaseNeverFalls(k: nat, m: nat)
    requires k <= m
    ensures 5 <= RetryBackoffBase(k) <= RetryBackoffBase(m) <= 1800
    ensures m >= 6 ==> RetryBackoffBase(m) == 1800
  {
  }

  lemma BasesTriple(k: nat, m: nat)
    requires k < m < |RETRY_SCHEDULE_SECS|
    ensures 1200 * RetryBackoffBase(k) < 800 * RetryBackoffBase(m)
    decreases m - k
  {
    if k + 1 < m {
      BasesTriple(k, m - 1);
    }
  }
}
