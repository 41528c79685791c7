/**
 One pass of memo enhancement: pages of pending transactions are read by offset
 while the tasks spawned for earlier pages finish and shrink the pending set.

 Rows have a stable order and well-formed, distinct txids. Which in-flight task
 commits or joins next is a choice of the run, and so is giving up early.
*/
module MemoEnhancement {
  import opened Sequences

  const ENHANCEMENT_CONCURRENCY: nat := 4
  const ENHANCEMENT_BATCH_SIZE: nat := 100

  type Txid = nat

  /** The rows the query returns: those still pending, in row order. */
  function PendingRows(rows: seq<Txid>, pending: set<Txid>): (r: seq<Txid>)
    ensures |r| <= |rows|
  {
    if rows == [] then []
    else
      var rest := PendingRows(rows[1..], pending);
      if rows[0] in pending then [rows[0]] + rest else rest
  }

  /** LIMIT and OFFSET. */
  function Page(rows: seq<Txid>, offset: nat): seq<Txid> {
    if offset >= |rows| then []
    else if |rows| - offset <= ENHANCEMENT_BATCH_SIZE then rows[offset..]
    else rows[offset..offset + ENHANCEMENT_BATCH_SIZE]
  }

  datatype Phase = Fetching | Spawning(queue: seq<Txid>) | Draining | Finished

  datatype Pass = Pass(
    rows: seq<Txid>, pending: set<Txid>,
    phase: Phase, offset: nat, inFlight: set<Txid>,
    spawned: seq<Txid>, enhanced: nat, gaveUp: bool)

  datatype Action =
    | FetchPage
    | Spawn
    | Join(txid: Txid)
    | NextPage
    | Finish
    | GiveUp
    | Commit(txid: Txid)

  function Start(rows: seq<Txid>): Pass {
    Pass(rows, (set t | t in rows), Fetching, 0, {}, [], 0, false)
  }

  /** The loop joins a task only when four are in flight, or when draining. */
  predicate Enabled(p: Pass, a: Action) {
    match a
    case FetchPage => p.phase.Fetching?
    case Spawn =>
      p.phase.Spawning? && p.phase.queue != [] && |p.inFlight| < ENHANCEMENT_CONCURRENCY
    case Join(t) =>
      && t in p.inFlight
      && (p.phase.Draining? || (p.phase.Spawning? && p.phase.queue != []
                                && |p.inFlight| >= ENHANCEMENT_CONCURRENCY))
    case NextPage => p.phase == Spawning([])
    case Finish => p.phase.Draining? && p.inFlight == {}
    case GiveUp => p.phase.Fetching? || (p.phase.Spawning? && p.phase.queue != [])
    case Commit(t) => t in p.inFlight && t in p.pending
  }

  function Next(p: Pass, a: Action): Pass
    requires Enabled(p, a)
  {
    match a
    case FetchPage =>
      var page := Page(PendingRows(p.rows, p.pending), p.offset);
      if page == [] then p.(phase := Draining)
      else p.(phase := Spawning(page), offset := p.offset + |page|)
    case Spawn =>
      var t := p.phase.queue[0];
      p.(phase := Spawning(p.phase.queue[1..]), inFlight := p.inFlight + {t},
         spawned := p.spawned + [t])
    case Join(t) => p.(inFlight := p.inFlight - {t}, enhanced := p.enhanced + 1)
    case NextPage => p.(phase := Fetching)
    case Finish => p.(phase := Finished)
    case GiveUp => p.(phase := Draining, gaveUp := true)
    case Commit(t) => p.(pending := p.pending - {t})
  }

  predicate CanRun(p: Pass, run: seq<Action>)
    decreases |run|
  {
    run == [] || (Enabled(p, run[0]) && CanRun(Next(p, run[0]), run[1..]))
  }

  function End(p: Pass, run: seq<Action>): Pass
    requires CanRun(p, run)
    decreases |run|
  {
    if run == [] then p else End(Next(p, run[0]), run[1..])
  }

  // ---------------------------------------------------------------------------
  // Ranks: positions among the pending rows only ever move forward
  // ---------------------------------------------------------------------------

  /** The number of pending rows before `t`. */
  function Rank(rows: seq<Txid>, pending: set<Txid>, t: Txid): nat {
    if rows == [] || rows[0] == t then 0
    else Rank(rows[1..], pending, t) + if rows[0] in pending then 1 else 0
  }

  lemma {:induction false} RankShrinks(rows: seq<Txid>, more: set<Txid>, fewer: set<Txid>, t: Txid)
    requires fewer <= more
    ensures Rank(rows, fewer, t) <= Rank(rows, more, t)
  {
    if rows != [] {
      RankShrinks(rows[1..], more, fewer, t);
    }
  }

  /** The k-th pending row is the one of rank k. */
  lemma {:induction false} RankOfPending(rows: seq<Txid>, pending: set<Txid>, k: nat)
    requires Distinct(rows) && k < |PendingRows(rows, pending)|
    ensures var t := PendingRows(rows, pending)[k];
            t in rows && t in pending && Rank(rows, pending, t) == k
  {
    var rest := rows[1..];
    if rows[0] !in pending || k > 0 {
      var j := if rows[0] in pending then k - 1 else k;
      RankOfPending(rest, pending, j);
      assert PendingRows(rows, pending)[k] == PendingRows(rest, pending)[j];
      assert PendingRows(rest, pending)[j] in rest;
    }
  }

  lemma PageRanks(rows: seq<Txid>, pending: set<Txid>, offset: nat, i: nat)
    requires Distinct(rows) && i < |Page(PendingRows(rows, pending), offset)|
    ensures var t := Page(PendingRows(rows, pending), offset)[i];
            t in rows && t in pending && Rank(rows, pending, t) == offset + i
  {
    RankOfPending(rows, pending, offset + i);
  }

  // ---------------------------------------------------------------------------
  // The invariant
  // ---------------------------------------------------------------------------

  function Queue(p: Pass): seq<Txid> {
    if p.phase.Spawning? then p.phase.queue else []
  }

  /** Everything this pass has read so far, spawned or about to be. */
  function Seen(p: Pass): seq<Txid> {
    p.spawned + Queue(p)
  }

  ghost predicate Inv(p: Pass) {
    && Distinct(p.rows)
    && p.offset <= |p.rows|
    && Distinct(Seen(p))
    && (forall t | t in Seen(p) :: t in p.rows)
    && (forall t | t in Seen(p) && t in p.pending :: Rank(p.rows, p.pending, t) < p.offset)
    && (forall t | t in p.inFlight :: t in p.spawned)
    && |p.inFlight| <= ENHANCEMENT_CONCURRENCY
    && p.enhanced + |p.inFlight| == |p.spawned|
    && (p.phase.Finished? ==> p.inFlight == {})
  }

  lemma FetchKeepsInv(p: Pass)
    requires Inv(p) && p.phase.Fetching?
    ensures Inv(Next(p, FetchPage))
  {
    var page := Page(PendingRows(p.rows, p.pending), p.offset);
    var next := Next(p, FetchPage);
    if page != [] {
      forall i | 0 <= i < |page|
        ensures page[i] in p.rows && page[i] in p.pending
        ensures Rank(p.rows, p.pending, page[i]) == p.offset + i
      {
        PageRanks(p.rows, p.pending, p.offset, i);
      }
      assert Seen(p) == p.spawned;
      assert Distinct(p.spawned + page) by {
        hide Rank, Page, PendingRows;
      }
    }
  }

  lemma OnlyFetchingReads(p: Pass, a: Action)
    requires Enabled(p, a) && !a.FetchPage? && !a.GiveUp?
    ensures Seen(Next(p, a)) == Seen(p)
  {
    if a.Spawn? {
      assert p.phase.queue == [p.phase.queue[0]] + p.phase.queue[1..];
    }
  }

  lemma SpawnKeepsInv(p: Pass)
    requires Inv(p) && Enabled(p, Spawn)
    ensures Inv(Next(p, Spawn))
  {
    hide Rank;
    var t := p.phase.queue[0];
    OnlyFetchingReads(p, Spawn);
    assert Seen(p)[|p.spawned|] == t;
    assert t !in p.spawned by {
      assert forall i | 0 <= i < |p.spawned| :: p.spawned[i] == Seen(p)[i];
    }
  }

  lemma GiveUpKeepsInv(p: Pass)
    requires Inv(p) && Enabled(p, GiveUp)
    ensures Inv(Next(p, GiveUp))
  {
    hide Rank;
    assert forall i | 0 <= i < |p.spawned| :: p.spawned[i] == Seen(p)[i];
    assert Seen(Next(p, GiveUp)) == p.spawned;
  }

  lemma JoinKeepsInv(p: Pass, a: Action)
    requires Inv(p) && Enabled(p, a) && (a.Join? || a.NextPage? || a.Finish?)
    ensures Inv(Next(p, a))
  {
    hide Rank, Distinct;
    assert Seen(Next(p, a)) == Seen(p);
  }

  lemma CommitKeepsInv(p: Pass, t: Txid)
    requires Inv(p) && Enabled(p, Commit(t))
    ensures Inv(Next(p, Commit(t)))
  {
    var next := Next(p, Commit(t));
    assert Seen(next) == Seen(p);
    forall u | u in Seen(p) && u in next.pending
      ensures Rank(p.rows, next.pending, u) < p.offset
    {
      RankShrinks(p.rows, p.pending, next.pending, u);
    }
  }

  lemma StepKeepsInv(p: Pass, a: Action)
    requires Inv(p) && Enabled(p, a)
    ensures Inv(Next(p, a))
  {
    match a {
      case FetchPage => FetchKeepsInv(p);
      case Spawn => SpawnKeepsInv(p);
      case Commit(t) => CommitKeepsInv(p, t);
      case GiveUp => GiveUpKeepsInv(p);
      case _ => JoinKeepsInv(p, a);
    }
  }

  lemma {:induction false} RunKeepsInv(p: Pass, run: seq<Action>)
    requires Inv(p) && CanRun(p, run)
    ensures Inv(End(p, run))
    decreases |run|
  {
    if run != [] {
      StepKeepsInv(p, run[0]);
      RunKeepsInv(Next(p, run[0]), run[1..]);
    }
  }

  /** In every interleaving of the pass with its tasks: no txid is spawned twice,
      at most four tasks are in flight, and a finished pass has counted exactly
      the tasks it spawned. */
  lemma SpawnsAtMostOnce(rows: seq<Txid>, run: seq<Action>)
    requires Distinct(rows) && CanRun(Start(rows), run)
    ensures var p := End(Start(rows), run);
            && Distinct(p.spawned)
            && |p.inFlight| <= ENHANCEMENT_CONCURRENCY
            && (p.phase.Finished? ==> p.enhanced == |p.spawned|)
  {
    RunKeepsInv(Start(rows), run);
    var p := End(Start(rows), run);
    assert forall i | 0 <= i < |p.spawned| :: p.spawned[i] == Seen(p)[i];
  }

  // ---------------------------------------------------------------------------
  // Termination
  // ---------------------------------------------------------------------------

  /** Commits are steps of the tasks; every other step uses up work. */
  function Work(p: Pass): nat
    requires p.offset <= |p.rows|
  {
    var unread := 4 * (|p.rows| - p.offset);
    match p.phase
    case Fetching => unread + |p.inFlight| + 2
    case Spawning(queue) => unread + 2 * |queue| + |p.inFlight| + 3
    case Draining => |p.inFlight| + 1
    case Finished => 0
  }

  lemma StepUsesWork(p: Pass, a: Action)
    requires Inv(p) && Enabled(p, a)
    ensures Next(p, a).offset <= |p.rows| && |Next(p, a).rows| == |p.rows|
    ensures if a.Commit? then Work(Next(p, a)) == Work(p) else Work(Next(p, a)) < Work(p)
  {
    StepKeepsInv(p, a);
    hide Rank, PendingRows, Distinct;
  }

  function LoopSteps(run: seq<Action>): nat {
    if run == [] then 0 else LoopSteps(run[1..]) + if run[0].Commit? then 0 else 1
  }

  /** The loop takes a bounded number of steps, however the tasks interleave. */
  lemma {:induction false} PassTerminates(p: Pass, run: seq<Action>)
    requires Inv(p) && CanRun(p, run)
    ensures LoopSteps(run) <= Work(p)
    decreases |run|
  {
    if run != [] {
      StepKeepsInv(p, run[0]);
      StepUsesWork(p, run[0]);
      PassTerminates(Next(p, run[0]), run[1..]);
    }
  }

  /** Short of the end, the loop always has a step that does not give up. */
  lemma LoopStep(p: Pass) returns (a: Action)
    requires Inv(p) && !p.phase.Finished?
    ensures Enabled(p, a) && !a.Commit? && !a.GiveUp?
  {
    match p.phase {
      case Fetching => a := FetchPage;
      case Spawning(queue) =>
        if queue == [] {
          a := NextPage;
        } else if |p.inFlight| < ENHANCEMENT_CONCURRENCY {
          a := Spawn;
        } else {
          var t :| t in p.inFlight;
          a := Join(t);
        }
      case Draining =>
        if p.inFlight == {} {
          a := Finish;
        } else {
          var t :| t in p.inFlight;
          a := Join(t);
        }
    }
  }

  lemma {:induction false} CanFinish(p: Pass) returns (run: seq<Action>)
    requires Inv(p)
    ensures CanRun(p, run) && End(p, run).phase.Finished? && End(p, run).gaveUp == p.gaveUp
    decreases Work(p)
  {
    if p.phase.Finished? {
      run := [];
    } else {
      var a := LoopStep(p);
      StepKeepsInv(p, a);
      StepUsesWork(p, a);
      var rest := CanFinish(Next(p, a));
      run := [a] + rest;
      assert run[1..] == rest;
    }
  }

  /** The bound of four is used: four rows can all be in flight. */
  lemma FourCanBeInFlight(rows: seq<Txid>) returns (run: seq<Action>)
    requires Distinct(rows) && 4 <= |rows| <= ENHANCEMENT_BATCH_SIZE
    ensures CanRun(Start(rows), run)
    ensures |End(Start(rows), run).inFlight| == 4
  {
    AllPending(rows, Start(rows).pending);
    assert Page(rows, 0) == rows;
    var p := Next(Start(rows), FetchPage);
    run := SpawnMany(p, rows, 4);
    run := StepFirst(Start(rows), FetchPage, run);
  }

  lemma {:induction false} SpawnMany(p: Pass, queue: seq<Txid>, k: nat) returns (run: seq<Action>)
    requires p.phase == Spawning(queue) && k <= |queue| && Distinct(queue)
    requires forall t | t in queue :: t !in p.inFlight
    requires |p.inFlight| + k <= ENHANCEMENT_CONCURRENCY
    ensures CanRun(p, run) && |End(p, run).inFlight| == |p.inFlight| + k
    decreases k
  {
    if k == 0 {
      run := [];
    } else {
      var q := Next(p, Spawn);
      SpawnedIsNew(p, queue);
      hide Next, Enabled, Distinct;
      run := SpawnMany(q, queue[1..], k - 1);
      run := StepFirst(p, Spawn, run);
    }
  }

  lemma SpawnedIsNew(p: Pass, queue: seq<Txid>)
    requires p.phase == Spawning(queue) && queue != [] && Distinct(queue)
    requires forall t | t in queue :: t !in p.inFlight
    requires |p.inFlight| < ENHANCEMENT_CONCURRENCY
    ensures Enabled(p, Spawn)
    ensures var q := Next(p, Spawn);
            && q.phase == Spawning(queue[1..]) && Distinct(queue[1..])
            && |q.inFlight| == |p.inFlight| + 1
            && forall t | t in queue[1..] :: t !in q.inFlight
  {
  }

  // ---------------------------------------------------------------------------
  // Coverage: a pass is sure to reach every row exactly when one page holds them
  // ---------------------------------------------------------------------------

  ghost predicate ReachesEveryRow(rows: seq<Txid>) {
    forall run | CanRun(Start(rows), run) ::
      var p := End(Start(rows), run);
      p.phase.Finished? && !p.gaveUp ==> forall t | t in rows :: t in p.spawned
  }

  /** A row the offset has passed without reading it is never spawned. */
  predicate Passed(p: Pass, t: Txid) {
    t !in Seen(p) && Rank(p.rows, p.pending, t) < p.offset
  }

  lemma FetchKeepsPassed(p: Pass, t: Txid)
    requires Inv(p) && p.phase.Fetching? && Passed(p, t)
    ensures Passed(Next(p, FetchPage), t)
  {
    var page := Page(PendingRows(p.rows, p.pending), p.offset);
    forall i | 0 <= i < |page| ensures page[i] != t {
      PageRanks(p.rows, p.pending, p.offset, i);
    }
  }

  lemma StepKeepsPassed(p: Pass, a: Action, t: Txid)
    requires Inv(p) && Enabled(p, a) && Passed(p, t)
    ensures Passed(Next(p, a), t)
  {
    if a.FetchPage? {
      FetchKeepsPassed(p, t);
    } else {
      hide Inv, Rank;
      if a.Commit? {
        RankShrinks(p.rows, p.pending, p.pending - {a.txid}, t);
      }
    }
  }

  lemma {:induction false} PassedIsNeverSpawned(p: Pass, run: seq<Action>, t: Txid)
    requires Inv(p) && CanRun(p, run) && Passed(p, t)
    ensures t !in End(p, run).spawned
    decreases |run|
  {
    if run != [] {
      StepKeepsInv(p, run[0]);
      StepKeepsPassed(p, run[0], t);
      PassedIsNeverSpawned(Next(p, run[0]), run[1..], t);
    }
  }

  lemma {:induction false} AllPending(rows: seq<Txid>, pending: set<Txid>)
    requires forall t | t in rows :: t in pending
    ensures PendingRows(rows, pending) == rows
  {
    if rows != [] {
      AllPending(rows[1..], pending);
    }
  }

  lemma {:induction false} RankWithoutFirst(rows: seq<Txid>, pending: set<Txid>, k: nat)
    requires Distinct(rows) && k < |rows|
    requires forall t | t in rows :: t in pending
    ensures Rank(rows, pending, rows[k]) == k
    ensures k > 0 ==> Rank(rows, pending - {rows[0]}, rows[k]) == k - 1
  {
    if k > 0 {
      assert rows[k] == rows[1..][k - 1];
      RankWithoutFirst(rows[1..], pending, k - 1);
      RankWithoutFirst(rows[1..], pending - {rows[0]}, k - 1);
    }
  }

  lemma StepFirst(p: Pass, a: Action, rest: seq<Action>) returns (run: seq<Action>)
    requires Enabled(p, a) && CanRun(Next(p, a), rest)
    ensures CanRun(p, run) && End(p, run) == End(Next(p, a), rest)
  {
    hide Next, Enabled;
    run := [a] + rest;
    assert run[1..] == rest;
  }

  lemma FirstPage(rows: seq<Txid>)
    requires Distinct(rows) && |rows| > ENHANCEMENT_BATCH_SIZE
    ensures var p := Next(Start(rows), FetchPage);
            && p.phase == Spawning(rows[..ENHANCEMENT_BATCH_SIZE])
            && p.offset == ENHANCEMENT_BATCH_SIZE && Inv(p)
            && p.rows == rows && p.pending == Start(rows).pending
            && p.spawned == [] && p.inFlight == {} && !p.gaveUp
  {
    AllPending(rows, Start(rows).pending);
    StepKeepsInv(Start(rows), FetchPage);
  }

  /** The commit of the first task of a full page pushes the next row under the
      offset. */
  lemma CommitSkips(p: Pass)
    requires Inv(p) && |p.rows| > ENHANCEMENT_BATCH_SIZE
    requires p.phase == Spawning(p.rows[..ENHANCEMENT_BATCH_SIZE])
    requires p.offset == ENHANCEMENT_BATCH_SIZE && p.pending == (set t | t in p.rows)
    requires p.spawned == [] && p.inFlight == {}
    ensures Enabled(p, Spawn) && Enabled(Next(p, Spawn), Commit(p.rows[0]))
    ensures var q := Next(Next(p, Spawn), Commit(p.rows[0]));
            Inv(q) && Passed(q, p.rows[ENHANCEMENT_BATCH_SIZE]) && q.gaveUp == p.gaveUp
  {
    StepKeepsInv(p, Spawn);
    StepKeepsInv(Next(p, Spawn), Commit(p.rows[0]));
    RankWithoutFirst(p.rows, p.pending, ENHANCEMENT_BATCH_SIZE);
    var q := Next(Next(p, Spawn), Commit(p.rows[0]));
    assert Seen(q) == p.rows[..ENHANCEMENT_BATCH_SIZE];
    assert Distinct(p.rows);
    hide Inv, Rank;
  }

  /** More than one page: a pass can finish without a row of the second. */
  lemma SecondPageCanSkip(rows: seq<Txid>) returns (run: seq<Action>)
    requires Distinct(rows) && |rows| > ENHANCEMENT_BATCH_SIZE
    ensures CanRun(Start(rows), run)
    ensures var p := End(Start(rows), run);
            p.phase.Finished? && !p.gaveUp && rows[ENHANCEMENT_BATCH_SIZE] !in p.spawned
  {
    FirstPage(rows);
    var p := Next(Start(rows), FetchPage);
    CommitSkips(p);
    var q := Next(Next(p, Spawn), Commit(rows[0]));
    assert Enabled(Start(rows), FetchPage);
    hide Inv, Passed, Next, Enabled;
    var rest := CanFinish(q);
    PassedIsNeverSpawned(q, rest, rows[ENHANCEMENT_BATCH_SIZE]);
    run := StepFirst(Next(p, Spawn), Commit(rows[0]), rest);
    run := StepFirst(p, Spawn, run);
    run := StepFirst(Start(rows), FetchPage, run);
  }

  ghost predicate OnePage(p: Pass) {
    && |p.rows| <= ENHANCEMENT_BATCH_SIZE
    && (p.gaveUp
        || (p.phase.Fetching? && p.offset == 0 && p.spawned == []
            && forall t | t in p.rows :: t in p.pending)
        || (p.offset == |p.rows| && forall t | t in p.rows :: t in Seen(p)))
  }

  lemma FetchKeepsOnePage(p: Pass)
    requires p.phase.Fetching? && OnePage(p)
    ensures OnePage(Next(p, FetchPage))
  {
    if p.offset == 0 && p.spawned == [] && forall t | t in p.rows :: t in p.pending {
      AllPending(p.rows, p.pending);
      assert Page(p.rows, 0) == p.rows;
      assert Seen(Next(p, FetchPage)) == p.rows;
    }
  }

  lemma StepKeepsOnePage(p: Pass, a: Action)
    requires Inv(p) && Enabled(p, a) && OnePage(p)
    ensures OnePage(Next(p, a))
  {
    assert p.spawned == [] ==> p.inFlight == {};
    hide Inv;
    if a.FetchPage? {
      FetchKeepsOnePage(p);
    } else if !a.GiveUp? {
      OnlyFetchingReads(p, a);
      hide Seen;
    }
  }

  lemma {:induction false} OnePageReaches(p: Pass, run: seq<Action>)
    requires Inv(p) && OnePage(p) && CanRun(p, run)
    ensures OnePage(End(p, run)) && End(p, run).rows == p.rows
    decreases |run|
  {
    if run != [] {
      StepKeepsInv(p, run[0]);
      StepKeepsOnePage(p, run[0]);
      OnePageReaches(Next(p, run[0]), run[1..]);
    }
  }

  /** A pass that does not give up is certain to spawn a task for every row
      exactly when all rows fit in one page. */
  lemma OnePassReachesEveryRowExactlyWhen(rows: seq<Txid>)
    requires Distinct(rows)
    ensures ReachesEveryRow(rows) <==> |rows| <= ENHANCEMENT_BATCH_SIZE
  {
    if |rows| <= ENHANCEMENT_BATCH_SIZE {
      forall run | CanRun(Start(rows), run)
        ensures var p := End(Start(rows), run);
                p.phase.Finished? && !p.gaveUp ==> forall t | t in rows :: t in p.spawned
      {
        OnePageReaches(Start(rows), run);
      }
    } else {
      var run := SecondPageCanSkip(rows);
    }
  }
}
