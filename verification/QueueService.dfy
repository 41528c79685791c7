/**
 The transaction service's queue operations, which update the queue directory,
 the loaded entries and the server table in place.
*/
module QueueService {
  import opened Wrappers
  import opened BroadcastPolicy
  import opened RetryQueue
  import opened RetryRuns

  // ---------------------------------------------------------------------------
  // The order of due transactions
  // ---------------------------------------------------------------------------

  predicate StringLess(a: string, b: string) {
    b != [] && (a == [] || a[0] < b[0] || (a[0] == b[0] && StringLess(a[1..], b[1..])))
  }

  lemma {:induction false} StringOrderTotal(a: string, b: string)
    ensures !(StringLess(a, b) && StringLess(b, a))
    ensures StringLess(a, b) || StringLess(b, a) || a == b
    ensures !StringLess(a, a)
  {
    if a != [] {
      StringOrderTotal(a[1..], if b == [] then [] else b[1..]);
      if b != [] && a[0] == b[0] && a[1..] == b[1..] {
        assert a == [a[0]] + a[1..] && b == [b[0]] + b[1..];
      }
    }
  }

  lemma {:induction false} StringOrderTransitive(a: string, b: string, c: string)
    requires StringLess(a, b) && StringLess(b, c)
    ensures StringLess(a, c)
  {
    if a != [] && a[0] == b[0] == c[0] {
      StringOrderTransitive(a[1..], b[1..], c[1..]);
    }
  }

  type Due = (int, Txid)

  predicate Earlier(a: Due, b: Due) {
    a.0 < b.0 || (a.0 == b.0 && StringLess(a.1, b.1))
  }

  lemma EarlierTotal(a: Due, b: Due)
    ensures !(Earlier(a, b) && Earlier(b, a))
    ensures Earlier(a, b) || Earlier(b, a) || a == b
  {
    StringOrderTotal(a.1, b.1);
  }

  lemma EarlierTransitive(a: Due, b: Due, c: Due)
    requires Earlier(a, b) && Earlier(b, c)
    ensures Earlier(a, c)
  {
    if a.0 == b.0 == c.0 {
      StringOrderTransitive(a.1, b.1, c.1);
    }
  }

  predicate Ascending(s: seq<Due>) {
    forall i, j | 0 <= i < j < |s| :: Earlier(s[i], s[j])
  }

  function Insert(s: seq<Due>, x: Due): (r: seq<Due>)
    ensures forall y :: y in r <==> y in s || y == x
  {
    if s == [] then [x]
    else if x == s[0] then s
    else if Earlier(x, s[0]) then [x] + s
    else
      assert s == [s[0]] + s[1..];
      [s[0]] + Insert(s[1..], x)
  }

  lemma {:induction false} InsertAscending(s: seq<Due>, x: Due)
    requires Ascending(s)
    ensures Ascending(Insert(s, x))
  {
    if s != [] && x != s[0] {
      EarlierTotal(x, s[0]);
      if Earlier(x, s[0]) {
        forall j | 0 < j < |s| ensures Earlier(x, s[j]) { EarlierTransitive(x, s[0], s[j]); }
      } else {
        InsertAscending(s[1..], x);
        var rest := Insert(s[1..], x);
        forall j | 0 <= j < |rest| ensures Earlier(s[0], rest[j]) {
          assert rest[j] in s[1..] || rest[j] == x;
        }
      }
    }
  }

  /** Two ascending lists of the same elements are the same list. */
  lemma {:induction false} AscendingUnique(s: seq<Due>, t: seq<Due>)
    requires Ascending(s) && Ascending(t)
    requires forall x :: x in s <==> x in t
    ensures s == t
  {
    if t != [] {
      assert t[0] in t;
    }
    if s != [] {
      assert s[0] in s && s[0] in t;
      assert t[0] in t && t[0] in s;
      EarlierTotal(s[0], t[0]);
      assert s[0] == t[0];
      forall x ensures x in s[1..] <==> x in t[1..] {
        TailMembers(s, x);
        TailMembers(t, x);
      }
      AscendingUnique(s[1..], t[1..]);
      assert s == [s[0]] + s[1..] && t == [t[0]] + t[1..];
    }
  }

  lemma TailMembers(s: seq<Due>, x: Due)
    requires Ascending(s) && s != []
    ensures x in s[1..] <==> x in s && x != s[0]
  {
    EarlierTotal(s[0], s[0]);
    assert s == [s[0]] + s[1..];
  }

  function DueAt(m: Meta, nowMs: int): int {
    if m.nextAttemptAtMs.Some? then m.nextAttemptAtMs.value else nowMs
  }

  predicate IsDue(m: Meta, nowMs: int) {
    m.retryable && DueAt(m, nowMs) <= nowMs
  }

  function DueKey(entries: map<Txid, Meta>, nowMs: int, txid: Txid): Due {
    (if txid in entries then DueAt(entries[txid], nowMs) else nowMs, txid)
  }

  function DueKeys(entries: map<Txid, Meta>, nowMs: int, txids: seq<Txid>): seq<Due> {
    seq(|txids|, i requires 0 <= i < |txids| => DueKey(entries, nowMs, txids[i]))
  }

  /** Exactly the due transactions, each once, by due time and then by txid. */
  ghost predicate DueOrder(txids: seq<Txid>, entries: map<Txid, Meta>, nowMs: int) {
    && (forall t :: t in txids <==>
          && t in entries && entries[t].retryable
          && (entries[t].nextAttemptAtMs.Some? ==> entries[t].nextAttemptAtMs.value <= nowMs))
    && Ascending(DueKeys(entries, nowMs, txids))
  }

  lemma DueKeyMembers(entries: map<Txid, Meta>, nowMs: int, txids: seq<Txid>, x: Due)
    ensures x in DueKeys(entries, nowMs, txids)
       <==> x.1 in txids && x == DueKey(entries, nowMs, x.1)
  {
    var keys := DueKeys(entries, nowMs, txids);
    if x.1 in txids && x == DueKey(entries, nowMs, x.1) {
      var i :| 0 <= i < |txids| && txids[i] == x.1;
      assert keys[i] == x;
    }
  }

  /** The contract of `list_due_retry_txids` leaves no choice. */
  lemma DueOrderUnique(a: seq<Txid>, b: seq<Txid>, entries: map<Txid, Meta>, nowMs: int)
    requires DueOrder(a, entries, nowMs) && DueOrder(b, entries, nowMs)
    ensures a == b
  {
    var x, y := DueKeys(entries, nowMs, a), DueKeys(entries, nowMs, b);
    forall k ensures k in x <==> k in y {
      DueKeyMembers(entries, nowMs, a, k);
      DueKeyMembers(entries, nowMs, b, k);
    }
    AscendingUnique(x, y);
    assert |x| == |y|;
    forall i | 0 <= i < |a| ensures a[i] == b[i] { assert x[i] == y[i]; }
  }

  // ---------------------------------------------------------------------------
  // A scan in progress
  // ---------------------------------------------------------------------------

  /** The directory and the loaded entries with `todo` not visited yet. */
  ghost function ScannedExcept(q: Queue, todo: set<Txid>, nowMs: int): Queue {
    Queue(map t | t in q.records && (t in todo || Survives(q, t, nowMs)) :: q.records[t],
          q.blobs - set t | t in q.records && t !in todo && t in q.blobs
                            && Expired(q.records[t], nowMs))
  }

  ghost function LoadedExcept(q: Queue, todo: set<Txid>, nowMs: int): map<Txid, Meta> {
    map t | t in q.records && t !in todo && Survives(q, t, nowMs) :: Normalize(q.records[t], nowMs)
  }

  lemma ScanEntry(q: Queue, todo: set<Txid>, txid: Txid, nowMs: int)
    requires txid in todo && todo <= q.records.Keys
    ensures var now, next := ScannedExcept(q, todo, nowMs), ScannedExcept(q, todo - {txid}, nowMs);
            && txid in now.records && now.records[txid] == q.records[txid]
            && (txid in now.blobs <==> txid in q.blobs)
            && next == if Survives(q, txid, nowMs) then now
                       else Queue(now.records - {txid}, now.blobs - {txid})
  {
    hide Expired;
  }

  lemma LoadEntry(q: Queue, todo: set<Txid>, txid: Txid, nowMs: int)
    requires txid in todo && todo <= q.records.Keys
    ensures var now := LoadedExcept(q, todo, nowMs);
            LoadedExcept(q, todo - {txid}, nowMs)
            == if Survives(q, txid, nowMs) then now[txid := Normalize(q.records[txid], nowMs)]
               else now
  {
    hide Normalize, Expired;
  }

  datatype RetryError = NotQueued | NotRetryable | SendFailed(message: string)

  class TxService {
    var queue: Queue
    var queued: map<Txid, Meta>
    var servers: seq<Server>

    constructor (queue: Queue, servers: seq<Server>)
      ensures this.queue == queue && this.servers == servers && queued == map[]
    {
      this.queue, this.servers, queued := queue, servers, map[];
    }

    /** `queue_broadcast`: writes the blob, then the record. */
    method QueueBroadcast(
      txid: Txid, nowMs: int, message: Option<string>, class_: Option<ErrorClass>,
      retryable: bool, draw: real)
      modifies this`queue
      ensures queue == Enqueue(old(queue), txid, TxRecord(nowMs, message, class_, retryable, draw))
    {
      queue := queue.(blobs := queue.blobs + {txid});
      var m := TxRecord(nowMs, message, class_, retryable, draw);
      queue := queue.(records := queue.records[txid := m]);
    }

    /** `scan_queued_broadcasts`: one pass over the directory, dropping orphaned
        and expired entries and loading the rest. */
    method ScanQueuedBroadcasts(nowMs: int)
      modifies this`queue, this`queued
      ensures queue == AfterScan(old(queue), nowMs)
      ensures queued == Loaded(old(queue), nowMs)
    {
      ghost var before := queue;
      var entries: map<Txid, Meta> := map[];
      var todo := queue.records.Keys;
      assert queue == ScannedExcept(before, todo, nowMs);
      while todo != {}
        invariant todo <= before.records.Keys
        invariant queue == ScannedExcept(before, todo, nowMs)
        invariant entries == LoadedExcept(before, todo, nowMs)
        decreases todo
      {
        var txid :| txid in todo;
        ScanEntry(before, todo, txid, nowMs);
        LoadEntry(before, todo, txid, nowMs);
        var m := Normalize(queue.records[txid], nowMs);
        todo := todo - {txid};
        if txid !in queue.blobs {
          queue := queue.(records := queue.records - {txid});
        } else if Expired(m, nowMs) {
          queue := Queue(queue.records - {txid}, queue.blobs - {txid});
        } else {
          entries := entries[txid := m];
        }
      }
      queued := entries;
    }

    /** `list_due_retry_txids`: the clock is read for the scan and again after it. */
    method ListDueRetryTxids(scanMs: int, nowMs: int) returns (r: seq<Txid>)
      modifies this`queue, this`queued
      ensures queue == AfterScan(old(queue), scanMs) && queued == Loaded(old(queue), scanMs)
      ensures DueOrder(r, queued, nowMs)
    {
      ScanQueuedBroadcasts(scanMs);
      r := SortedDue(queued, nowMs);
    }

    /** `try_failover_server`: probes the other servers in order and makes the
        first that answers the default. */
    method TryFailoverServer(network: bool, current: string, probe: string -> bool)
      returns (to: Option<Server>)
      modifies this`servers
      ensures to == FailoverTarget(old(servers), network, current, probe)
      ensures servers == if to.None? then old(servers)
                         else WithDefault(old(servers), network, to.value.id)
    {
      var eligible := Eligible(servers, network);
      if |eligible| < 2 {
        return None;
      }
      var from := FindUrl(eligible, current);
      if from.None? {
        from := FindDefault(eligible);
      }
      if from.None? {
        return None;
      }
      var i := 0;
      while i < |eligible|
        invariant i <= |eligible|
        invariant FirstReachable(eligible, from.value.id, probe)
               == FirstReachable(eligible[i..], from.value.id, probe)
      {
        var candidate := eligible[i];
        if candidate.id != from.value.id && probe(candidate.url) {
          servers := WithDefault(servers, network, candidate.id);
          return Some(candidate);
        }
        i := i + 1;
      }
      return None;
    }

    /** `retry_broadcast`: one step of the run model. */
    method RetryBroadcast(
      txid: Txid, target: string, nowMs: int, failedMs: int, endMs: int,
      world: World, draw: real) returns (r: Result<Txid, RetryError>)
      modifies this
      ensures var end := Step(System(old(queue), old(servers), []),
                              Retry(txid, target, nowMs, failedMs, endMs, world, draw));
              queue == end.queue && servers == end.servers
      ensures r.Ok? ==> r.value == txid && txid !in queue.records
      ensures var loaded := Loaded(old(queue), nowMs);
              && (r == Err(NotQueued) <==> txid !in loaded)
              && (r == Err(NotRetryable) <==> txid in loaded && !loaded[txid].retryable)
    {
      ScanQueuedBroadcasts(nowMs);
      if txid !in queued {
        return Err(NotQueued);
      }
      var entry := queued[txid];
      if !entry.retryable {
        return Err(NotRetryable);
      }
      var end, verdict := SendLoop(entry, target, world);
      match verdict {
        case Delivered =>
          queue := Delete(queue, txid);
          r := Ok(txid);
        case GaveUp(message, class_, retryable) =>
          var record := FailureRecord(queue.records[txid], failedMs, message, class_,
                                      retryable, end.attempts, end.streak, draw);
          queue := queue.(records := queue.records[txid := record]);
          r := Err(SendFailed(message));
      }
      ScanQueuedBroadcasts(endMs);
    }

    /** The loop inside `retry_broadcast`, over its mutable locals and the
        server table. */
    method SendLoop(entry: Meta, grpcUrl: string, world: World)
      returns (end: Attempt, verdict: Verdict)
      modifies this`servers
      ensures (end, verdict) == RetryLoop(world, StartAttempt(entry, grpcUrl, old(servers)))
      ensures servers == end.servers
    {
      ghost var start := StartAttempt(entry, grpcUrl, servers);
      hide FailoverTarget, WithDefault, Classify, IsEffectiveSuccess, ApplyRetryPolicy;
      var grpcTarget := grpcUrl;
      var attempts: nat, streak: nat := entry.attemptCount, entry.streak;
      var sends: seq<(string, SendResult)>, switches: seq<nat> := [], [];
      while true
        invariant RetryLoop(world, start)
               == RetryLoop(world, Attempt(sends, switches, attempts, streak, grpcTarget, servers))
        decreases if ShouldTriggerFailover(SaturatingInc(streak)) then 1 else 0
      {
        Unfold(world, Attempt(sends, switches, attempts, streak, grpcTarget, servers));
        var result := Effective(world.send(|sends|));
        sends := sends + [(grpcTarget, result)];
        if result.Sent? {
          return Attempt(sends, switches, attempts, streak, grpcTarget, servers), Delivered;
        }
        var class_ := Classify(result.message);
        attempts := SaturatingInc(attempts);
        var retryable := ApplyRetryPolicy(IsRetryable(class_), attempts, Some(class_), None).0;
        streak := if class_ == TransientTransport then SaturatingInc(streak) else 0;
        var failoverPerformed := false;
        if class_ == TransientTransport && ShouldTriggerFailover(streak) {
          var to := TryFailoverServer(world.network, grpcTarget, world.probe);
          if to.Some? {
            grpcTarget, streak, failoverPerformed := to.value.url, 0, true;
            switches := switches + [to.value.id];
          }
        }
        if !(retryable && failoverPerformed) {
          return Attempt(sends, switches, attempts, streak, grpcTarget, servers),
                 GaveUp(result.message, class_, retryable);
        }
      }
    }
  }

  /** Collect the due entries, then sort them. */
  method SortedDue(entries: map<Txid, Meta>, nowMs: int) returns (r: seq<Txid>)
    ensures DueOrder(r, entries, nowMs)
  {
    var due: seq<Due> := [];
    var todo := entries.Keys;
    while todo != {}
      invariant todo <= entries.Keys && Ascending(due)
      invariant forall x :: x in due <==> (x.1 in entries && x.1 !in todo
                  && IsDue(entries[x.1], nowMs) && x == DueKey(entries, nowMs, x.1))
      decreases todo
    {
      var txid :| txid in todo;
      todo := todo - {txid};
      if IsDue(entries[txid], nowMs) {
        InsertAscending(due, DueKey(entries, nowMs, txid));
        due := Insert(due, DueKey(entries, nowMs, txid));
      }
    }
    r := seq(|due|, i requires 0 <= i < |due| => due[i].1);
    forall t ensures t in r <==> t in entries && IsDue(entries[t], nowMs) {
      assert DueKey(entries, nowMs, t) in due <==> t in entries && IsDue(entries[t], nowMs);
      if DueKey(entries, nowMs, t) in due {
        var i :| 0 <= i < |due| && due[i] == DueKey(entries, nowMs, t);
        assert r[i] == t;
      }
      if t in r {
        var i :| 0 <= i < |r| && r[i] == t;
        assert due[i] in due;
      }
    }
    assert DueKeys(entries, nowMs, r) == due by {
      forall i | 0 <= i < |due| ensures DueKey(entries, nowMs, r[i]) == due[i] {
        assert due[i] in due;
      }
    }
  }
}
