/**
 The queue of failed broadcasts of one wallet: the records its two writers
 create, normalization on load, and one retry with its server failover.

 Store and server-table operations succeed. Encryption, account lookup and the
 parsing of records are not modelled. Times are milliseconds since the epoch.
*/
module RetryQueue {
  import opened Wrappers
  import opened BroadcastPolicy

  type Txid = string

  const I64_MAX: int := 0x7fff_ffff_ffff_ffff
  const U32_MAX: nat := 0xffff_ffff
  const QUEUED_BROADCAST_RETENTION_MS: nat := 7 * 24 * 60 * 60 * 1000

  datatype Meta = Meta(
    createdAtMs: int,
    attemptCount: nat,
    nextAttemptAtMs: Option<int>,
    lastAttemptAtMs: Option<int>,
    streak: nat,
    retryable: bool,
    lastErrorClass: Option<ErrorClass>,
    terminalReason: Option<string>,
    lastError: Option<string>)

  function SaturatingInc(n: nat): nat {
    if n < U32_MAX then n + 1 else n
  }

  // ---------------------------------------------------------------------------
  // Policy, normalization and the writers
  // ---------------------------------------------------------------------------

  function ApplyRetryPolicy(
    retryable: bool, attempts: nat, class_: Option<ErrorClass>, reason: Option<string>
  ): (bool, Option<string>)
  {
    match class_
    case None => (retryable, if retryable then None else reason)
    case Some(c) =>
      if !IsRetryable(c) then
        (false, if reason.None?
                then Some("broadcast error classified as terminal (Terminal)") else reason)
      else if !retryable then (false, reason)
      else
        match RetryBudgetTerminalReason(c, attempts)
        case Some(exhausted) => (false, Some(exhausted))
        case None => (true, None)
  }

  function Normalize(m: Meta, nowMs: int): Meta {
    var class_ :=
      if m.lastErrorClass.None? && m.lastError.Some? then Some(Classify(m.lastError.value))
      else m.lastErrorClass;
    var (retryable, reason) :=
      ApplyRetryPolicy(m.retryable, m.attemptCount, class_, m.terminalReason);
    m.(lastErrorClass := class_,
       retryable := retryable,
       terminalReason := reason,
       nextAttemptAtMs := if !retryable then None
                          else if m.nextAttemptAtMs.None? then Some(nowMs)
                          else m.nextAttemptAtMs)
  }

  function SaturatingMs(ms: int): int {
    if ms > I64_MAX then I64_MAX else ms
  }

  function ScheduleNextAttempt(nowMs: int, attempts: nat, draw: real): int {
    SaturatingMs(nowMs + RetryBackoffWithJitter(attempts, JitterOffset(attempts, draw)))
  }

  /** A time within a fifth of the backoff base after the last attempt. */
  predicate InBackoffWindow(next: int, last: int, attempts: nat) {
    SaturatingMs(last + 800 * RetryBackoffBase(attempts))
    <= next <= SaturatingMs(last + 1200 * RetryBackoffBase(attempts))
  }

  lemma ScheduledInWindow(nowMs: int, attempts: nat, draw: real)
    requires -1.0 <= draw <= 1.0
    ensures InBackoffWindow(ScheduleNextAttempt(nowMs, attempts, draw), nowMs, attempts)
  {
    DrawsStayInRange(attempts, draw);
    BackoffWithinFifth(attempts, JitterOffset(attempts, draw));
  }

  function InitialStreak(class_: Option<ErrorClass>): nat {
    if class_ == Some(TransientTransport) then 1 else 0
  }

  /** The record `queue_broadcast` writes. */
  function TxRecord(
    nowMs: int, message: Option<string>, class_: Option<ErrorClass>, retryable: bool, draw: real
  ): Meta
  {
    var (keep, reason) := ApplyRetryPolicy(retryable, 0, class_, None);
    var next := if keep then Some(ScheduleNextAttempt(nowMs, 0, draw)) else None;
    Meta(nowMs, 0, next, Some(nowMs), InitialStreak(class_), keep, class_, reason, message)
  }

  /** The record `queue_broadcast_for_retry` writes: no policy, no reason. */
  function JobRecord(
    nowMs: int, message: Option<string>, class_: Option<ErrorClass>, retryable: bool, draw: real
  ): Meta
  {
    var next := if retryable then Some(ScheduleNextAttempt(nowMs, 0, draw)) else None;
    Meta(nowMs, 0, next, Some(nowMs), InitialStreak(class_), retryable, class_, None, message)
  }

  /** The record `update_queued_broadcast_error` writes over an existing one. */
  function FailureRecord(
    existing: Meta, nowMs: int, message: string, class_: ErrorClass,
    retryable: bool, attempts: nat, streak: nat, draw: real
  ): Meta
  {
    var (keep, reason) :=
      ApplyRetryPolicy(retryable, attempts, Some(class_), existing.terminalReason);
    var next := if keep then Some(ScheduleNextAttempt(nowMs, attempts, draw)) else None;
    Meta(existing.createdAtMs, attempts, next, Some(nowMs), streak, keep,
         Some(class_), reason, Some(message))
  }

  /** What loading makes of a record: an error without a class gets one, the record
      stays retryable exactly within the budget of its class, a retryable record has a
      next time and no reason, and one that ran out has a reason. */
  lemma NormalizeExactly(m: Meta, nowMs: int)
    ensures var n := Normalize(m, nowMs);
            && n.lastErrorClass == (if m.lastErrorClass.Some? || m.lastError.None? then m.lastErrorClass
                                    else Some(Classify(m.lastError.value)))
            && (n.retryable <==> m.retryable && (n.lastErrorClass.None?
                                  || WithinBudget(n.lastErrorClass.value, m.attemptCount)))
            && (n.retryable ==> n.terminalReason.None? && n.nextAttemptAtMs.Some?
                                && (m.nextAttemptAtMs.Some? ==> n.nextAttemptAtMs == m.nextAttemptAtMs)
                                && (m.nextAttemptAtMs.None? ==> n.nextAttemptAtMs == Some(nowMs)))
            && (!n.retryable ==> n.nextAttemptAtMs.None?)
            && (m.retryable && !n.retryable ==> n.terminalReason.Some?)
            && n == m.(lastErrorClass := n.lastErrorClass, retryable := n.retryable,
                       terminalReason := n.terminalReason, nextAttemptAtMs := n.nextAttemptAtMs)
  {
    hide Classify;
  }

  /** Normalizing again changes nothing, even at a different time. */
  lemma NormalizeIdempotent(m: Meta, t1: int, t2: int)
    ensures Normalize(Normalize(m, t1), t2) == Normalize(m, t1)
  {
  }

  /** Normalization never turns a record that is not retryable into one that is. */
  lemma NormalizeNeverRevives(m: Meta, nowMs: int)
    ensures Normalize(m, nowMs).retryable ==> m.retryable
  {
  }

  /** Both writers' records load as the same record, for every argument. */
  lemma WritersAgreeAfterNormalization(
    nowMs: int, message: Option<string>, class_: Option<ErrorClass>, retryable: bool,
    draw: real, scanMs: int)
    ensures Normalize(TxRecord(nowMs, message, class_, retryable, draw), scanMs)
         == Normalize(JobRecord(nowMs, message, class_, retryable, draw), scanMs)
  {
  }

  // ---------------------------------------------------------------------------
  // Failover
  // ---------------------------------------------------------------------------

  /** `valid`: the URL passes `validate_grpc_url`. */
  datatype Server = Server(id: nat, url: string, network: bool, isDefault: bool, valid: bool)

  function Eligible(servers: seq<Server>, network: bool): (r: seq<Server>)
    ensures forall s :: s in r <==> s in servers && s.network == network && s.valid
  {
    if servers == [] then []
    else
      var rest := Eligible(servers[1..], network);
      if servers[0].network == network && servers[0].valid then [servers[0]] + rest else rest
  }

  function FindUrl(servers: seq<Server>, url: string): Option<Server> {
    if servers == [] then None
    else if servers[0].url == url then Some(servers[0])
    else FindUrl(servers[1..], url)
  }

  function FindDefault(servers: seq<Server>): Option<Server> {
    if servers == [] then None
    else if servers[0].isDefault then Some(servers[0])
    else FindDefault(servers[1..])
  }

  function FirstReachable(servers: seq<Server>, fromId: nat, probe: string -> bool): Option<Server> {
    if servers == [] then None
    else if servers[0].id != fromId && probe(servers[0].url) then Some(servers[0])
    else FirstReachable(servers[1..], fromId, probe)
  }

  /** The server that `try_failover_server` switches to. */
  function FailoverTarget(
    servers: seq<Server>, network: bool, currentUrl: string, probe: string -> bool
  ): Option<Server>
  {
    var eligible := Eligible(servers, network);
    if |eligible| < 2 then None
    else
      var byUrl := FindUrl(eligible, currentUrl);
      var from := if byUrl.Some? then byUrl else FindDefault(eligible);
      if from.None? then None else FirstReachable(eligible, from.value.id, probe)
  }

  function WithDefault(servers: seq<Server>, network: bool, id: nat): seq<Server> {
    seq(|servers|, i requires 0 <= i < |servers| =>
      if servers[i].id == id then servers[i].(isDefault := true)
      else if servers[i].network == network then servers[i].(isDefault := false)
      else servers[i])
  }

  lemma {:induction false} FirstReachableWitness(
    servers: seq<Server>, fromId: nat, probe: string -> bool)
    ensures var r := FirstReachable(servers, fromId, probe);
            if r.Some? then
              exists i | 0 <= i < |servers| ::
                && r.value == servers[i] && servers[i].id != fromId && probe(servers[i].url)
                && forall j | 0 <= j < i :: servers[j].id == fromId || !probe(servers[j].url)
            else
              forall j | 0 <= j < |servers| :: servers[j].id == fromId || !probe(servers[j].url)
  {
    if servers == [] || (servers[0].id != fromId && probe(servers[0].url)) {
      return;
    }
    var rest := servers[1..];
    FirstReachableWitness(rest, fromId, probe);
    var r := FirstReachable(rest, fromId, probe);
    if r.Some? {
      var i :| 0 <= i < |rest| && r.value == rest[i] && rest[i].id != fromId && probe(rest[i].url)
        && forall j | 0 <= j < i :: rest[j].id == fromId || !probe(rest[j].url);
      assert servers[i + 1] == rest[i];
      forall j | 0 <= j < i + 1
        ensures servers[j].id == fromId || !probe(servers[j].url)
      {
        assert j > 0 ==> servers[j] == rest[j - 1];
      }
    } else {
      forall j | 0 <= j < |servers|
        ensures servers[j].id == fromId || !probe(servers[j].url)
      {
        assert j > 0 ==> servers[j] == rest[j - 1];
      }
    }
  }

  /** A server of the network that the engine may use. */
  predicate IsUsable(s: Server, network: bool) {
    s.network == network && s.valid
  }

  predicate DistinctServers(servers: seq<Server>) {
    forall i, j | 0 <= i < j < |servers| ::
      servers[i].id != servers[j].id && servers[i].url != servers[j].url
  }

  /** Another usable server that answers its probe. */
  predicate IsCandidate(servers: seq<Server>, network: bool, k: nat, probe: string -> bool, i: nat)
    requires k < |servers| && i < |servers|
  {
    i != k && IsUsable(servers[i], network) && probe(servers[i].url)
  }

  /** The first candidate in table order, given that `k` is the current server. */
  ghost predicate IsTarget(
    servers: seq<Server>, network: bool, k: nat, probe: string -> bool, to: Option<Server>)
    requires k < |servers|
  {
    match to
    case None => forall i | 0 <= i < |servers| :: !IsCandidate(servers, network, k, probe, i)
    case Some(s) =>
      exists i | 0 <= i < |servers| ::
        && s == servers[i] && IsCandidate(servers, network, k, probe, i)
        && forall j | 0 <= j < i :: !IsCandidate(servers, network, k, probe, j)
  }

  lemma {:induction false} EligibleFindsUrl(servers: seq<Server>, network: bool, k: nat)
    requires DistinctServers(servers) && k < |servers| && IsUsable(servers[k], network)
    ensures FindUrl(Eligible(servers, network), servers[k].url) == Some(servers[k])
  {
    var rest := servers[1..];
    if k > 0 {
      assert rest[k - 1] == servers[k];
      EligibleFindsUrl(rest, network, k - 1);
      assert IsUsable(servers[0], network) ==>
        Eligible(servers, network)[1..] == Eligible(rest, network);
    }
  }

  /** Searching the usable servers is searching the table for usable servers. */
  function FirstUsable(servers: seq<Server>, network: bool, fromId: nat, probe: string -> bool)
    : Option<Server>
  {
    if servers == [] then None
    else if IsUsable(servers[0], network) && servers[0].id != fromId && probe(servers[0].url) then
      Some(servers[0])
    else FirstUsable(servers[1..], network, fromId, probe)
  }

  lemma {:induction false} SearchIsOverTable(
    servers: seq<Server>, network: bool, fromId: nat, probe: string -> bool)
    ensures FirstReachable(Eligible(servers, network), fromId, probe)
         == FirstUsable(servers, network, fromId, probe)
  {
    if servers != [] {
      SearchIsOverTable(servers[1..], network, fromId, probe);
      assert IsUsable(servers[0], network) ==>
        Eligible(servers, network)[1..] == Eligible(servers[1..], network);
    }
  }

  lemma {:induction false} FirstUsableMeaning(
    servers: seq<Server>, network: bool, fromId: nat, probe: string -> bool)
    ensures match FirstUsable(servers, network, fromId, probe)
            case None =>
              forall i | 0 <= i < |servers| ::
                !(IsUsable(servers[i], network) && servers[i].id != fromId && probe(servers[i].url))
            case Some(s) =>
              exists i | 0 <= i < |servers| ::
                && s == servers[i]
                && IsUsable(servers[i], network) && servers[i].id != fromId && probe(servers[i].url)
                && forall j | 0 <= j < i ::
                     !(IsUsable(servers[j], network) && servers[j].id != fromId
                       && probe(servers[j].url))
  {
    if servers == [] {
      return;
    }
    var rest := servers[1..];
    if IsUsable(servers[0], network) && servers[0].id != fromId && probe(servers[0].url) {
      return;
    }
    FirstUsableMeaning(rest, network, fromId, probe);
    assert forall j | 0 < j < |servers| :: servers[j] == rest[j - 1];
    match FirstUsable(rest, network, fromId, probe)
    case None =>
    case Some(s) =>
      var i :| 0 <= i < |rest| && s == rest[i]
        && IsUsable(rest[i], network) && rest[i].id != fromId && probe(rest[i].url)
        && forall j | 0 <= j < i ::
             !(IsUsable(rest[j], network) && rest[j].id != fromId && probe(rest[j].url));
      assert servers[i + 1] == rest[i];
  }

  lemma {:induction false} TwoUsable(servers: seq<Server>, network: bool, i: nat, k: nat)
    requires i < |servers| && k < |servers| && i != k
    requires IsUsable(servers[i], network) && IsUsable(servers[k], network)
    ensures |Eligible(servers, network)| >= 2
  {
    var rest := servers[1..];
    if i > 0 && k > 0 {
      TwoUsable(rest, network, i - 1, k - 1);
    } else {
      var other := if i == 0 then k else i;
      assert rest[other - 1] == servers[other];
      assert servers[other] in Eligible(rest, network);
    }
  }

  /** Failover goes to the first other usable server of the table that answers, and
      nowhere exactly when there is none. */
  lemma FailoverTargetExactly(servers: seq<Server>, network: bool, k: nat, probe: string -> bool)
    requires DistinctServers(servers) && k < |servers| && IsUsable(servers[k], network)
    ensures IsTarget(servers, network, k, probe,
                     FailoverTarget(servers, network, servers[k].url, probe))
  {
    EligibleFindsUrl(servers, network, k);
    SearchIsOverTable(servers, network, servers[k].id, probe);
    FirstUsableMeaning(servers, network, servers[k].id, probe);
    if |Eligible(servers, network)| < 2 {
      forall i | 0 <= i < |servers| ensures !IsCandidate(servers, network, k, probe, i) {
        if i != k && IsUsable(servers[i], network) {
          TwoUsable(servers, network, i, k);
        }
      }
    }
    hide Eligible, FindUrl, FirstReachable, FirstUsable, FindDefault;
  }

  /** A current URL that no usable server has stands for the default server, if a
      usable server is the default. */
  lemma {:induction false} UnknownUrlIsDefault(
    servers: seq<Server>, network: bool, url: string, k: nat, probe: string -> bool)
    requires DistinctServers(servers) && k < |servers| && IsUsable(servers[k], network)
    requires servers[k].isDefault && forall i | 0 <= i < |servers| && i != k :: !servers[i].isDefault
    requires forall i | 0 <= i < |servers| :: IsUsable(servers[i], network) ==> servers[i].url != url
    ensures FailoverTarget(servers, network, url, probe)
         == FailoverTarget(servers, network, servers[k].url, probe)
  {
    NoSuchUrl(servers, network, url);
    OnlyDefault(servers, network, k);
    EligibleFindsUrl(servers, network, k);
  }

  lemma {:induction false} NoSuchUrl(servers: seq<Server>, network: bool, url: string)
    requires forall i | 0 <= i < |servers| :: IsUsable(servers[i], network) ==> servers[i].url != url
    ensures FindUrl(Eligible(servers, network), url) == None
  {
    if servers != [] {
      NoSuchUrl(servers[1..], network, url);
      assert IsUsable(servers[0], network) ==>
        Eligible(servers, network)[1..] == Eligible(servers[1..], network);
    }
  }

  lemma {:induction false} OnlyDefault(servers: seq<Server>, network: bool, k: nat)
    requires k < |servers| && IsUsable(servers[k], network) && servers[k].isDefault
    requires forall i | 0 <= i < |servers| && i != k :: !servers[i].isDefault
    ensures FindDefault(Eligible(servers, network)) == Some(servers[k])
  {
    if k > 0 {
      assert servers[1..][k - 1] == servers[k];
      OnlyDefault(servers[1..], network, k - 1);
      assert IsUsable(servers[0], network) ==>
        Eligible(servers, network)[1..] == Eligible(servers[1..], network);
    }
  }

  /** After a switch the target is the only default of its network; other networks
      and everything but the flag are as before. */
  lemma SwitchLeavesOneDefault(servers: seq<Server>, network: bool, k: nat, i: nat)
    requires DistinctServers(servers) && k < |servers| && servers[k].network == network
    requires i < |servers|
    ensures var after := WithDefault(servers, network, servers[k].id);
            && |after| == |servers|
            && after[i] == servers[i].(isDefault := after[i].isDefault)
            && (servers[i].network == network ==> (after[i].isDefault <==> i == k))
            && (servers[i].network != network ==> after[i] == servers[i])
  {
  }

  // ---------------------------------------------------------------------------
  // One retry
  // ---------------------------------------------------------------------------

  datatype SendResult = Sent | Failed(message: string)

  /** `send_transaction_bytes` turns a duplicate-relay failure into success. */
  function Effective(r: SendResult): SendResult {
    if r.Failed? && IsEffectiveSuccess(r.message) then Sent else r
  }

  /** What the outside world answers during one call: the k-th send, any probe. */
  datatype World = World(send: nat -> SendResult, probe: string -> bool, network: bool)

  /** Progress of one `retry_broadcast` call. `sends` pairs each target with its
      outcome; `switches` are the servers made default. */
  datatype Attempt = Attempt(
    sends: seq<(string, SendResult)>, switches: seq<nat>,
    attempts: nat, streak: nat, target: string, servers: seq<Server>)

  datatype Verdict =
    | Delivered
    | GaveUp(message: string, class_: ErrorClass, retryable: bool)

  /** One failed send: counted, then perhaps a switch of servers. */
  function AfterFailure(world: World, a: Attempt, message: string): (r: (Attempt, bool)) {
    var class_ := Classify(message);
    var streak := if class_ == TransientTransport then SaturatingInc(a.streak) else 0;
    var failed := a.(sends := a.sends + [(a.target, Failed(message))],
                     attempts := SaturatingInc(a.attempts), streak := streak);
    var to := if class_ == TransientTransport && ShouldTriggerFailover(streak)
              then FailoverTarget(a.servers, world.network, a.target, world.probe) else None;
    if to.None? then (failed, false)
    else (failed.(switches := a.switches + [to.value.id], streak := 0, target := to.value.url,
                  servers := WithDefault(a.servers, world.network, to.value.id)), true)
  }

  predicate StillRetryable(message: string, attempts: nat) {
    var class_ := Classify(message);
    ApplyRetryPolicy(IsRetryable(class_), attempts, Some(class_), None).0
  }

  /** The send loop of `retry_broadcast`. It ends because a switch leaves a
      streak that the next failure cannot bring back to the threshold. */
  function RetryLoop(world: World, a: Attempt): (r: (Attempt, Verdict))
    decreases if ShouldTriggerFailover(SaturatingInc(a.streak)) then 1 else 0
  {
    match Effective(world.send(|a.sends|))
    case Sent => (a.(sends := a.sends + [(a.target, Sent)]), Delivered)
    case Failed(message) =>
      var (next, switched) := AfterFailure(world, a, message);
      var retryable := StillRetryable(message, next.attempts);
      if retryable && switched then RetryLoop(world, next)
      else (next, GaveUp(message, Classify(message), retryable))
  }

  function Failures(sends: seq<(string, SendResult)>): nat {
    if sends == [] then 0
    else Failures(sends[..|sends| - 1]) + if sends[|sends| - 1].1.Failed? then 1 else 0
  }

  function StartAttempt(m: Meta, target: string, servers: seq<Server>): Attempt {
    Attempt([], [], m.attemptCount, m.streak, target, servers)
  }

  lemma FailuresSnoc(sends: seq<(string, SendResult)>, last: (string, SendResult))
    ensures Failures(sends + [last]) == Failures(sends) + if last.1.Failed? then 1 else 0
  {
    assert (sends + [last])[..|sends|] == sends;
  }

  lemma AfterFailureFacts(world: World, a: Attempt, message: string)
    ensures var (next, switched) := AfterFailure(world, a, message);
            && next.sends == a.sends + [(a.target, Failed(message))]
            && next.attempts == SaturatingInc(a.attempts)
            && (switched ==> next.streak == 0 && |next.switches| == |a.switches| + 1)
            && (switched ==> ShouldTriggerFailover(SaturatingInc(a.streak)))
            && (!switched ==> next.switches == a.switches && next.servers == a.servers)
            && (!switched ==> next.target == a.target)
  {
    hide Classify, FailoverTarget, WithDefault;
  }

  lemma Unfold(world: World, a: Attempt)
    ensures var result := Effective(world.send(|a.sends|));
            if result.Sent? then
              RetryLoop(world, a) == (a.(sends := a.sends + [(a.target, Sent)]), Delivered)
            else
              var (next, switched) := AfterFailure(world, a, result.message);
              var retryable := StillRetryable(result.message, next.attempts);
              RetryLoop(world, a)
              == if retryable && switched then RetryLoop(world, next)
                 else (next, GaveUp(result.message, Classify(result.message), retryable))
  {
    AfterFailureFacts(world, a, "");
    hide AfterFailure, Classify, StillRetryable, IsEffectiveSuccess;
  }

  /** Below the failover threshold the loop makes exactly one more send. */
  lemma OneSendBelowThreshold(world: World, a: Attempt)
    requires !ShouldTriggerFailover(SaturatingInc(a.streak))
    ensures var end := RetryLoop(world, a).0;
            var result := Effective(world.send(|a.sends|));
            && end.sends == a.sends + [(a.target, result)]
            && end.switches == a.switches && end.servers == a.servers && end.target == a.target
            && end.attempts == (if result.Sent? then a.attempts else SaturatingInc(a.attempts))
            && (RetryLoop(world, a).1.Delivered? <==> result.Sent?)
  {
    hide RetryLoop, AfterFailure, Classify, StillRetryable, IsEffectiveSuccess;
    Unfold(world, a);
    var result := Effective(world.send(|a.sends|));
    if result.Failed? {
      AfterFailureFacts(world, a, result.message);
    }
  }

  /** What one call does, for every starting streak and every answer of servers
      and probes. */
  ghost predicate Bounded(a: Attempt, end: Attempt, verdict: Verdict) {
    && 1 <= |end.sends| <= 2 && |end.switches| <= 1
    && end.sends[0].0 == a.target
    && (|end.sends| == 2 ==> |end.switches| == 1 && end.sends[1].0 == end.target)
    && (a.attempts < U32_MAX - 1 ==> end.attempts == a.attempts + Failures(end.sends))
    && (|end.switches| == 0 ==> end.servers == a.servers)
    && (verdict.Delivered? <==> end.sends[|end.sends| - 1].1 == Sent)
  }

  lemma FailuresOfOne(target: string, result: SendResult)
    ensures Failures([(target, result)]) == if result.Failed? then 1 else 0
  {
    FailuresSnoc([], (target, result));
    assert [] + [(target, result)] == [(target, result)];
  }

  lemma SecondSendBounded(world: World, a: Attempt, next: Attempt, message: string)
    requires a.sends == [] && a.switches == []
    requires AfterFailure(world, a, message) == (next, true)
    ensures Bounded(a, RetryLoop(world, next).0, RetryLoop(world, next).1)
  {
    AfterFailureFacts(world, a, message);
    hide RetryLoop, AfterFailure, Failures, IsEffectiveSuccess;
    var second := Effective(world.send(1));
    assert next.sends == [(a.target, Failed(message))];
    OneSendBelowThreshold(world, next);
    FailuresOfOne(a.target, Failed(message));
    FailuresSnoc(next.sends, (next.target, second));
  }

  /** One call sends at most twice and switches servers at most once; a second send
      goes to the server just made default; every failure is counted. */
  lemma RetryLoopBounds(world: World, m: Meta, target: string, servers: seq<Server>)
    ensures var a := StartAttempt(m, target, servers);
            Bounded(a, RetryLoop(world, a).0, RetryLoop(world, a).1)
  {
    hide RetryLoop, AfterFailure, StillRetryable, IsEffectiveSuccess, Classify, Failures;
    var a := StartAttempt(m, target, servers);
    var first := Effective(world.send(0));
    Unfold(world, a);
    FailuresOfOne(target, first);
    assert [] + [(target, first)] == [(target, first)];
    if first.Failed? {
      AfterFailureFacts(world, a, first.message);
      var (next, switched) := AfterFailure(world, a, first.message);
      if switched {
        SecondSendBounded(world, a, next, first.message);
      }
    }
  }

  /** One failed send, exactly: the streak counts transport failures in a row, and a
      switch happens if and only if it reaches the threshold and a server to switch
      to exists. */
  lemma FailureExactly(world: World, a: Attempt, message: string)
    ensures var (next, switched) := AfterFailure(world, a, message);
            var transport := Classify(message) == TransientTransport;
            var to := FailoverTarget(a.servers, world.network, a.target, world.probe);
            && (switched <==> transport && a.streak >= 1 && to.Some?)
            && (!switched ==> next.streak == (if transport then SaturatingInc(a.streak) else 0)
                              && next.servers == a.servers && next.target == a.target)
            && (switched ==> next.streak == 0 && next.target == to.value.url
                             && next.switches == a.switches + [to.value.id]
                             && next.servers == WithDefault(a.servers, world.network, to.value.id))
  {
    hide Classify, FailoverTarget, WithDefault;
  }

  /** When a call sends again: exactly after a first failure in the transport, with at
      least one before it, still within the budget, and with a server to switch to. */
  lemma SendsAgainExactlyWhen(world: World, m: Meta, target: string, servers: seq<Server>)
    ensures var end := RetryLoop(world, StartAttempt(m, target, servers)).0;
            |end.sends| == 2 <==>
              && Effective(world.send(0)).Failed?
              && Classify(Effective(world.send(0)).message) == TransientTransport
              && m.streak >= 1
              && WithinBudget(TransientTransport, SaturatingInc(m.attemptCount))
              && FailoverTarget(servers, world.network, target, world.probe).Some?
  {
    var a := StartAttempt(m, target, servers);
    var first := Effective(world.send(0));
    Unfold(world, a);
    if first.Failed? {
      FailureExactly(world, a, first.message);
      AfterFailureFacts(world, a, first.message);
      RetryableExactly(first.message, SaturatingInc(m.attemptCount));
      var (next, switched) := AfterFailure(world, a, first.message);
      hide RetryLoop, AfterFailure, StillRetryable, Classify, FailoverTarget, IsEffectiveSuccess;
      if switched {
        OneSendBelowThreshold(world, next);
      }
    }
  }

  lemma RetryableExactly(message: string, attempts: nat)
    ensures StillRetryable(message, attempts) <==> WithinBudget(Classify(message), attempts)
  {
    hide Classify;
  }

  /** What a call that gives up reports is what its last send failed with. */
  lemma GivesUpWithLastMessage(world: World, a: Attempt)
    ensures var (end, verdict) := RetryLoop(world, a);
            verdict.GaveUp? ==>
              && end.sends != []
              && end.sends[|end.sends| - 1].1 == Failed(verdict.message)
              && verdict.class_ == Classify(verdict.message)
    decreases if ShouldTriggerFailover(SaturatingInc(a.streak)) then 1 else 0
  {
    var result := Effective(world.send(|a.sends|));
    Unfold(world, a);
    if result.Failed? {
      AfterFailureFacts(world, a, result.message);
      var (next, switched) := AfterFailure(world, a, result.message);
      hide RetryLoop, AfterFailure, StillRetryable, Classify, IsEffectiveSuccess;
      if switched {
        GivesUpWithLastMessage(world, next);
      }
    }
  }

  /** The record of a failure keeps when the transaction was first queued and tells
      the last failure. */
  lemma FailureRecordTells(
    existing: Meta, nowMs: int, message: string, class_: ErrorClass, retryable: bool,
    attempts: nat, streak: nat, draw: real)
    ensures var m := FailureRecord(existing, nowMs, message, class_, retryable, attempts, streak, draw);
            && m.createdAtMs == existing.createdAtMs && m.lastAttemptAtMs == Some(nowMs)
            && m.lastError == Some(message) && m.lastErrorClass == Some(class_)
            && m.attemptCount == attempts && m.streak == streak
            && (m.retryable <==> retryable && WithinBudget(class_, attempts))
  {
    hide ScheduleNextAttempt;
  }

  /** Whatever the world answers, the call never records more than seven attempts
      when it starts below seven, and a record it leaves retryable is within the
      budget of its class. */
  lemma RetryLoopWithinBudget(world: World, a: Attempt)
    requires a.attempts < MAX_TOTAL_BROADCAST_RETRY_ATTEMPTS
    ensures var (end, verdict) := RetryLoop(world, a);
            && end.attempts <= MAX_TOTAL_BROADCAST_RETRY_ATTEMPTS
            && (verdict.GaveUp? ==>
                  (verdict.retryable <==> WithinBudget(verdict.class_, end.attempts)))
    decreases if ShouldTriggerFailover(SaturatingInc(a.streak)) then 1 else 0
  {
    match Effective(world.send(|a.sends|)) {
      case Sent =>
      case Failed(message) =>
        var (next, switched) := AfterFailure(world, a, message);
        if StillRetryable(message, next.attempts) && switched {
          RetryLoopWithinBudget(world, next);
        }
    }
  }

  /** A class may be retried while its failed attempts are below its budget. */
  predicate WithinBudget(class_: ErrorClass, attempts: nat) {
    match class_
    case Terminal => false
    case Unknown => attempts < MAX_UNKNOWN_BROADCAST_RETRY_ATTEMPTS
    case _ => attempts < MAX_TOTAL_BROADCAST_RETRY_ATTEMPTS
  }
}
