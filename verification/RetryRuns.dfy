/**
 Runs of the retry queue: any sequence of broadcasts by either writer, scans,
 retries and clean-ups of expired transactions, with any messages, clocks, probes and jitter.
*/
module RetryRuns {
  import opened Wrappers
  import opened BroadcastPolicy
  import opened RetryQueue

  /** The wallet's queue directory: a record and an encrypted blob per txid. */
  datatype Queue = Queue(records: map<Txid, Meta>, blobs: set<Txid>)

  predicate Expired(m: Meta, nowMs: int) {
    nowMs - (if m.createdAtMs < 0 then 0 else m.createdAtMs) > QUEUED_BROADCAST_RETENTION_MS
  }

  predicate Survives(q: Queue, txid: Txid, nowMs: int)
    requires txid in q.records
  {
    txid in q.blobs && !Expired(q.records[txid], nowMs)
  }

  /** What a scan leaves on disk: orphaned and expired records are dropped. */
  function AfterScan(q: Queue, nowMs: int): Queue {
    Queue(map t | t in q.records && Survives(q, t, nowMs) :: q.records[t],
          q.blobs - set t | t in q.records && t in q.blobs && Expired(q.records[t], nowMs))
  }

  /** What a scan loads into memory. */
  function Loaded(q: Queue, nowMs: int): map<Txid, Meta> {
    map t | t in q.records && Survives(q, t, nowMs) :: Normalize(q.records[t], nowMs)
  }

  function Enqueue(q: Queue, txid: Txid, m: Meta): Queue {
    Queue(q.records[txid := m], q.blobs + {txid})
  }

  function Delete(q: Queue, txid: Txid): Queue {
    Queue(q.records - {txid}, q.blobs - {txid})
  }

  // ---------------------------------------------------------------------------
  // Steps
  // ---------------------------------------------------------------------------

  datatype Event =
    | TxBroadcast(txid: Txid, result: SendResult, nowMs: int, draw: real)
    | JobBroadcast(txid: Txid, result: SendResult, nowMs: int, draw: real)
    | Scan(nowMs: int)
    | Cleanup(txid: Txid)
    | Retry(txid: Txid, target: string, nowMs: int, failedMs: int, endMs: int,
            world: World, draw: real)

  datatype LogEntry = Created(txid: Txid, atMs: int) | RetryFailed(txid: Txid)

  datatype System = System(queue: Queue, servers: seq<Server>, log: seq<LogEntry>)

  predicate Possible(e: Event) {
    e.Scan? || e.Cleanup? || -1.0 <= e.draw <= 1.0
  }

  function Step(s: System, e: Event): System {
    match e
    case TxBroadcast(txid, result, nowMs, draw) =>
      (match Effective(result)
       case Sent => s.(queue := Delete(s.queue, txid))
       case Failed(message) =>
         var class_ := Classify(message);
         var m := TxRecord(nowMs, Some(message), Some(class_), IsRetryable(class_), draw);
         s.(queue := Enqueue(s.queue, txid, m), log := s.log + [Created(txid, nowMs)]))
    case JobBroadcast(txid, result, nowMs, draw) =>
      (match Effective(result)
       case Sent => s
       case Failed(message) =>
         var class_ := Classify(message);
         var m := JobRecord(nowMs, Some(message), Some(class_), IsRetryable(class_), draw);
         s.(queue := Enqueue(s.queue, txid, m), log := s.log + [Created(txid, nowMs)]))
    case Scan(nowMs) => s.(queue := AfterScan(s.queue, nowMs))
    case Cleanup(txid) => s.(queue := Delete(s.queue, txid))
    case Retry(txid, target, nowMs, failedMs, endMs, world, draw) =>
      var scanned := s.(queue := AfterScan(s.queue, nowMs));
      var loaded := Loaded(s.queue, nowMs);
      if txid !in loaded || !loaded[txid].retryable then scanned
      else RetryOne(scanned, txid, loaded[txid], e)
  }

  /** The queue after the send loop came to its verdict. */
  function Judged(q: Queue, e: Event, end: Attempt, verdict: Verdict): Queue
    requires e.Retry? && e.txid in q.records
  {
    match verdict
    case Delivered => Delete(q, e.txid)
    case GaveUp(message, class_, retryable) =>
      var record := FailureRecord(q.records[e.txid], e.failedMs, message, class_,
                                  retryable, end.attempts, end.streak, e.draw);
      q.(records := q.records[e.txid := record])
  }

  function RetryOne(s: System, txid: Txid, m: Meta, e: Event): System
    requires e.Retry? && txid == e.txid
    requires txid in s.queue.records
  {
    var (end, verdict) := RetryLoop(e.world, StartAttempt(m, e.target, s.servers));
    var failures := seq(Failures(end.sends), _ => RetryFailed(txid));
    System(AfterScan(Judged(s.queue, e, end, verdict), e.endMs), end.servers, s.log + failures)
  }

  function Run(s: System, events: seq<Event>): System
    decreases |events|
  {
    if events == [] then s else Run(Step(s, events[0]), events[1..])
  }

  function Fresh(servers: seq<Server>): System {
    System(Queue(map[], {}), servers, [])
  }

  // ---------------------------------------------------------------------------
  // The invariant
  // ---------------------------------------------------------------------------

  /** Failed retry sends of a transaction since its record was last created. */
  function FailuresSince(log: seq<LogEntry>, txid: Txid): nat {
    if log == [] then 0
    else
      var rest, last := log[..|log| - 1], log[|log| - 1];
      if last.Created? && last.txid == txid then 0
      else FailuresSince(rest, txid) + if last == RetryFailed(txid) then 1 else 0
  }

  /** When the record of a transaction was last created. */
  function CreatedAt(log: seq<LogEntry>, txid: Txid): Option<int> {
    if log == [] then None
    else
      var rest, last := log[..|log| - 1], log[|log| - 1];
      if last.Created? && last.txid == txid then Some(last.atMs) else CreatedAt(rest, txid)
  }

  /** A record counts exactly the failed retry sends, never more than seven; it
      is retryable exactly within the budget of its last error's class; and if
      so its next attempt lies in the backoff window of its attempt count. */
  predicate Faithful(m: Meta, failures: nat) {
    && m.attemptCount == failures <= MAX_TOTAL_BROADCAST_RETRY_ATTEMPTS
    && m.lastErrorClass.Some?
    && (m.retryable <==> WithinBudget(m.lastErrorClass.value, m.attemptCount))
    && m.lastAttemptAtMs.Some?
    && (m.retryable <==> m.nextAttemptAtMs.Some?)
    && (m.retryable ==>
          InBackoffWindow(m.nextAttemptAtMs.value, m.lastAttemptAtMs.value, m.attemptCount))
  }

  ghost predicate Inv(s: System) {
    forall t | t in s.queue.records ::
      && Faithful(s.queue.records[t], FailuresSince(s.log, t))
      && CreatedAt(s.log, t) == Some(s.queue.records[t].createdAtMs)
  }

  lemma SinceSnoc(log: seq<LogEntry>, last: LogEntry, txid: Txid)
    ensures FailuresSince(log + [last], txid)
         == if last.Created? && last.txid == txid then 0
            else FailuresSince(log, txid) + if last == RetryFailed(txid) then 1 else 0
    ensures CreatedAt(log + [last], txid)
         == if last.Created? && last.txid == txid then Some(last.atMs) else CreatedAt(log, txid)
  {
    assert (log + [last])[..|log|] == log;
  }

  lemma {:induction false} SinceFailures(log: seq<LogEntry>, who: Txid, k: nat, txid: Txid)
    ensures FailuresSince(log + seq(k, _ => RetryFailed(who)), txid)
         == FailuresSince(log, txid) + if who == txid then k else 0
    ensures CreatedAt(log + seq(k, _ => RetryFailed(who)), txid) == CreatedAt(log, txid)
  {
    var added := log + seq(k, _ => RetryFailed(who));
    if k == 0 {
      assert added == log;
    } else {
      SinceFailures(log, who, k - 1, txid);
      var fewer := log + seq(k - 1, _ => RetryFailed(who));
      assert added == fewer + [RetryFailed(who)];
      SinceSnoc(fewer, RetryFailed(who), txid);
    }
  }

  lemma NewRecordsFaithful(nowMs: int, message: string, draw: real)
    requires -1.0 <= draw <= 1.0
    ensures var c := Classify(message);
            && Faithful(TxRecord(nowMs, Some(message), Some(c), IsRetryable(c), draw), 0)
            && Faithful(JobRecord(nowMs, Some(message), Some(c), IsRetryable(c), draw), 0)
  {
    hide Classify, InBackoffWindow, ScheduleNextAttempt;
    ScheduledInWindow(nowMs, 0, draw);
  }

  lemma EnqueueKeepsInv(s: System, txid: Txid, m: Meta)
    requires Inv(s) && Faithful(m, 0)
    ensures Inv(s.(queue := Enqueue(s.queue, txid, m),
                   log := s.log + [Created(txid, m.createdAtMs)]))
  {
    hide Faithful;
    forall t { SinceSnoc(s.log, Created(txid, m.createdAtMs), t); }
  }

  /** A retry that gives up leaves a faithful record. */
  lemma GivingUpIsFaithful(m: Meta, failures: nat, e: Event, scanMs: int, servers: seq<Server>)
    requires e.Retry? && Possible(e)
    requires Faithful(m, failures) && Normalize(m, scanMs).retryable
    ensures var (end, v) :=
              RetryLoop(e.world, StartAttempt(Normalize(m, scanMs), e.target, servers));
            v.GaveUp? ==>
              Faithful(FailureRecord(m, e.failedMs, v.message, v.class_, v.retryable,
                                     end.attempts, end.streak, e.draw),
                       failures + Failures(end.sends))
  {
    hide RetryLoop, InBackoffWindow, ScheduleNextAttempt, Classify, Failures;
    var start := StartAttempt(Normalize(m, scanMs), e.target, servers);
    var (end, v) := RetryLoop(e.world, start);
    RetryLoopBounds(e.world, Normalize(m, scanMs), e.target, servers);
    RetryLoopWithinBudget(e.world, start);
    ScheduledInWindow(e.failedMs, end.attempts, e.draw);
  }

  /** Failures of one transaction are logged and its record is replaced or deleted. */
  lemma FailuresKeepInv(s: System, txid: Txid, k: nat, records: map<Txid, Meta>, s': System)
    requires Inv(s) && txid in s.queue.records
    requires s'.log == s.log + seq(k, _ => RetryFailed(txid))
    requires forall t | t in s'.queue.records :: t in records && s'.queue.records[t] == records[t]
    requires forall t | t in records && t != txid ::
               t in s.queue.records && records[t] == s.queue.records[t]
    requires txid in records ==>
               && Faithful(records[txid], FailuresSince(s.log, txid) + k)
               && records[txid].createdAtMs == s.queue.records[txid].createdAtMs
    ensures Inv(s')
  {
    hide Faithful, FailuresSince, CreatedAt;
    forall t { SinceFailures(s.log, txid, k, t); }
  }

  lemma VerdictKeepsInv(s: System, e: Event, end: Attempt, v: Verdict, k: nat)
    requires e.Retry? && Inv(s) && e.txid in s.queue.records
    requires v.GaveUp? ==>
               Faithful(FailureRecord(s.queue.records[e.txid], e.failedMs, v.message, v.class_,
                                      v.retryable, end.attempts, end.streak, e.draw),
                        FailuresSince(s.log, e.txid) + k)
    ensures Inv(System(AfterScan(Judged(s.queue, e, end, v), e.endMs), end.servers,
                       s.log + seq(k, _ => RetryFailed(e.txid))))
  {
    if v.GaveUp? {
      FailureRecordTells(s.queue.records[e.txid], e.failedMs, v.message, v.class_, v.retryable,
                         end.attempts, end.streak, e.draw);
    }
    var q := Judged(s.queue, e, end, v);
    hide Inv, Faithful, FailureRecord, Expired;
    FailuresKeepInv(s, e.txid, k, q.records,
                    System(AfterScan(q, e.endMs), end.servers,
                           s.log + seq(k, _ => RetryFailed(e.txid))));
  }

  lemma RetryKeepsInv(s: System, m: Meta, e: Event)
    requires e.Retry? && Possible(e) && Inv(s)
    requires e.txid in s.queue.records
    requires m == Normalize(s.queue.records[e.txid], e.nowMs) && m.retryable
    ensures Inv(RetryOne(s, e.txid, m, e))
  {
    hide Faithful, RetryLoop, FailureRecord, Normalize, Failures, AfterScan, Judged, FailuresSince,
         CreatedAt;
    var (end, v) := RetryLoop(e.world, StartAttempt(m, e.target, s.servers));
    GivingUpIsFaithful(s.queue.records[e.txid], FailuresSince(s.log, e.txid), e, e.nowMs, s.servers);
    hide Inv;
    VerdictKeepsInv(s, e, end, v, Failures(end.sends));
  }

  lemma StepKeepsInv(s: System, e: Event)
    requires Inv(s) && Possible(e)
    ensures Inv(Step(s, e))
  {
    match e {
      case TxBroadcast(txid, result, nowMs, draw) =>
        if Effective(result).Failed? {
          var message := Effective(result).message;
          var c := Classify(message);
          NewRecordsFaithful(nowMs, message, draw);
          EnqueueKeepsInv(s, txid, TxRecord(nowMs, Some(message), Some(c), IsRetryable(c), draw));
        }
      case JobBroadcast(txid, result, nowMs, draw) =>
        if Effective(result).Failed? {
          var message := Effective(result).message;
          var c := Classify(message);
          NewRecordsFaithful(nowMs, message, draw);
          EnqueueKeepsInv(s, txid, JobRecord(nowMs, Some(message), Some(c), IsRetryable(c), draw));
        }
      case Scan(nowMs) =>
      case Cleanup(txid) =>
      case Retry(txid, target, nowMs, failedMs, endMs, world, draw) =>
        var loaded := Loaded(s.queue, nowMs);
        if txid in loaded && loaded[txid].retryable {
          RetryKeepsInv(s.(queue := AfterScan(s.queue, nowMs)), loaded[txid], e);
        }
    }
  }

  /** Over any run, every record goes on counting exactly its failed retry sends, at
      most seven, and is out of retries once it reaches seven. */
  lemma {:induction false} AttemptsCountFailedSends(s: System, events: seq<Event>)
    requires Inv(s)
    requires forall e | e in events :: Possible(e)
    ensures Inv(Run(s, events))
    decreases |events|
  {
    if events != [] {
      StepKeepsInv(s, events[0]);
      AttemptsCountFailedSends(Step(s, events[0]), events[1..]);
    }
  }

  /** The same, read off one record of one run. */
  lemma RecordsOfRuns(servers: seq<Server>, events: seq<Event>, txid: Txid)
    requires forall e | e in events :: Possible(e)
    ensures var end := Run(Fresh(servers), events);
            txid in end.queue.records ==>
              var m := end.queue.records[txid];
              && m.attemptCount == FailuresSince(end.log, txid) <= 7
              && (m.attemptCount == 7 ==> !m.retryable)
              && (m.retryable ==> m.attemptCount < |RETRY_SCHEDULE_SECS|)
  {
    AttemptsCountFailedSends(Fresh(servers), events);
  }

  /** Scans, clean-ups and retries never revive a record that is not retryable: it stays
      exactly as it is until it is dropped. */
  lemma {:induction false} TerminalIsForever(s: System, events: seq<Event>, txid: Txid)
    requires forall e | e in events :: e.Scan? || e.Cleanup? || e.Retry?
    requires txid in s.queue.records && !s.queue.records[txid].retryable
    ensures var end := Run(s, events).queue.records;
            txid in end ==> end[txid] == s.queue.records[txid]
    decreases |events|
  {
    if events != [] {
      var next := Step(s, events[0]);
      StepKeepsTerminal(s, events[0], txid);
      if txid in next.queue.records {
        TerminalIsForever(next, events[1..], txid);
      } else {
        AbsentStaysAbsent(next, events[1..], txid);
      }
    }
  }

  lemma StepKeepsTerminal(s: System, e: Event, txid: Txid)
    requires e.Scan? || e.Cleanup? || e.Retry?
    requires txid in s.queue.records && !s.queue.records[txid].retryable
    ensures var next := Step(s, e).queue.records;
            txid in next ==> next[txid] == s.queue.records[txid]
  {
    if !e.Cleanup? {
      NormalizeNeverRevives(s.queue.records[txid], e.nowMs);
    }
    hide Normalize, RetryLoop, FailureRecord;
  }

  lemma StepKeepsAbsent(s: System, e: Event, txid: Txid)
    requires e.Scan? || e.Cleanup? || e.Retry?
    requires txid !in s.queue.records
    ensures txid !in Step(s, e).queue.records
  {
    hide Normalize, RetryLoop, FailureRecord, Failures;
    if e.Retry? && e.txid in Loaded(s.queue, e.nowMs) {
      assert e.txid in s.queue.records;
    }
  }

  lemma {:induction false} AbsentStaysAbsent(s: System, events: seq<Event>, txid: Txid)
    requires forall e | e in events :: e.Scan? || e.Cleanup? || e.Retry?
    requires txid !in s.queue.records
    ensures txid !in Run(s, events).queue.records
    decreases |events|
  {
    if events != [] {
      StepKeepsAbsent(s, events[0], txid);
      AbsentStaysAbsent(Step(s, events[0]), events[1..], txid);
    }
  }

  // ---------------------------------------------------------------------------
  // What comes in and what stays
  // ---------------------------------------------------------------------------

  /** A broadcast leaves its transaction queued, with its blob, exactly when it failed
      and not because the network already had it; a success of the transaction
      service takes it out. */
  lemma BroadcastQueuesExactlyOnFailure(
    s: System, txid: Txid, result: SendResult, nowMs: int, draw: real)
    ensures var failed := result.Failed? && !IsEffectiveSuccess(result.message);
            var tx := Step(s, TxBroadcast(txid, result, nowMs, draw)).queue;
            var job := Step(s, JobBroadcast(txid, result, nowMs, draw)).queue;
            && (failed <==> txid in tx.records) && (failed <==> txid in tx.blobs)
            && (failed ==> txid in job.records && txid in job.blobs)
            && (!failed ==> job == s.queue)
            && (failed ==> tx.records[txid].lastError == Some(result.message)
                           && job.records[txid].lastError == Some(result.message))
            && forall t | t != txid ::
                 && (t in tx.records <==> t in s.queue.records)
                 && (t in s.queue.records ==> tx.records[t] == s.queue.records[t])
  {
    hide Classify, IsEffectiveSuccess, ScheduleNextAttempt;
  }

  /** Over any run, a scan drops a record exactly when its blob is gone or more than
      seven days have passed since it was created, however often it was retried. */
  lemma KeptForSevenDays(servers: seq<Server>, events: seq<Event>, txid: Txid, nowMs: int)
    requires forall e | e in events :: Possible(e)
    requires txid in Run(Fresh(servers), events).queue.records
    ensures var s := Run(Fresh(servers), events);
            var q := Step(s, Scan(nowMs)).queue;
            var created := CreatedAt(s.log, txid);
            && created.Some?
            && (txid in q.records <==>
                  && txid in s.queue.blobs
                  && nowMs <= 604_800_000 + if created.value < 0 then 0 else created.value)
            && (txid in q.records ==> q.records[txid] == s.queue.records[txid])
  {
    AttemptsCountFailedSends(Fresh(servers), events);
    hide Run, Faithful, FailuresSince, CreatedAt;
  }

  /** Retrying delivers exactly when the last send gets through, and then the
      transaction is gone from the queue; otherwise its record tells the failure. */
  lemma RetryDeliversExactlyWhen(s: System, e: Event)
    requires e.Retry? && e.txid in Loaded(s.queue, e.nowMs)
    requires Loaded(s.queue, e.nowMs)[e.txid].retryable
    ensures var m := Loaded(s.queue, e.nowMs)[e.txid];
            var sends := RetryLoop(e.world, StartAttempt(m, e.target, s.servers)).0.sends;
            && sends != []
            && (sends[|sends| - 1].1 == Sent ==> e.txid !in Step(s, e).queue.records)
            && (sends[|sends| - 1].1.Failed? && e.txid in Step(s, e).queue.records ==>
                  Step(s, e).queue.records[e.txid].lastError == Some(sends[|sends| - 1].1.message))
  {
    hide RetryLoop, Normalize, ScheduleNextAttempt, Classify, Failures, ApplyRetryPolicy, Expired,
         AfterScan, Judged, FailureRecord, WithDefault;
    var m := Loaded(s.queue, e.nowMs)[e.txid];
    var a := StartAttempt(m, e.target, s.servers);
    RetryLoopBounds(e.world, m, e.target, s.servers);
    GivesUpWithLastMessage(e.world, a);
    var (end, v) := RetryLoop(e.world, a);
    ScanKeepsLoaded(s.queue, e.nowMs, e.txid);
    JudgedTells(AfterScan(s.queue, e.nowMs), e, end, v);
  }

  lemma ScanKeepsLoaded(q: Queue, nowMs: int, txid: Txid)
    requires txid in Loaded(q, nowMs)
    ensures txid in AfterScan(q, nowMs).records
  {
    hide Normalize, Expired;
  }

  lemma JudgedTells(q: Queue, e: Event, end: Attempt, v: Verdict)
    requires e.Retry? && e.txid in q.records
    ensures var records := AfterScan(Judged(q, e, end, v), e.endMs).records;
            && (v.Delivered? ==> e.txid !in records)
            && (v.GaveUp? && e.txid in records ==> records[e.txid].lastError == Some(v.message))
  {
    hide ScheduleNextAttempt, ApplyRetryPolicy, Expired;
  }
}
