/**
 The two registries that keep background work single: the sync service's
 in-flight scan counters, which gate a restart, and the swap service's poller
 and refresh markers.

 Every operation runs under the service's mutex, so an interleaving is a
 sequence of operations. Guards and tasks that are alive are counted beside the
 registries; a guard can only be dropped while it is alive.
*/
module SingleFlight {

  type Id = nat

  // ---------------------------------------------------------------------------
  // Scans in flight
  // ---------------------------------------------------------------------------

  datatype SyncState = SyncState(jobs: set<Id>, blockingScans: map<Id, nat>)

  /** `guards` counts the live scan guards of each wallet. */
  datatype Sync = Sync(state: SyncState, guards: multiset<Id>)

  datatype SyncEvent =
    | StartSync(wallet: Id)
    | RegisterJob(wallet: Id)
    | JobEnds(wallet: Id)
    | StopSync(wallet: Id)
    | ScanBegins(wallet: Id)
    | ScanEnds(wallet: Id)

  predicate StartRefused(s: SyncState, wallet: Id) {
    wallet in s.jobs || wallet in s.blockingScans
  }

  function Acquired(s: SyncState, wallet: Id): SyncState {
    var count := if wallet in s.blockingScans then s.blockingScans[wallet] else 0;
    s.(blockingScans := s.blockingScans[wallet := count + 1])
  }

  function Released(s: SyncState, wallet: Id): SyncState {
    if wallet !in s.blockingScans then s
    else
      var count := if s.blockingScans[wallet] == 0 then 0 else s.blockingScans[wallet] - 1;
      s.(blockingScans := if count == 0 then s.blockingScans - {wallet}
                          else s.blockingScans[wallet := count])
  }

  predicate SyncPossible(s: Sync, e: SyncEvent) {
    match e
    case ScanEnds(w) => w in s.guards
    case _ => true
  }

  function SyncStep(s: Sync, e: SyncEvent): Sync {
    match e
    case StartSync(_) => s
    case RegisterJob(w) => s.(state := s.state.(jobs := s.state.jobs + {w}))
    case JobEnds(w) => s.(state := s.state.(jobs := s.state.jobs - {w}))
    case StopSync(w) => s.(state := s.state.(jobs := s.state.jobs - {w}))
    case ScanBegins(w) => Sync(Acquired(s.state, w), s.guards + multiset{w})
    case ScanEnds(w) => Sync(Released(s.state, w), s.guards - multiset{w})
  }

  predicate SyncCanRun(s: Sync, run: seq<SyncEvent>)
    decreases |run|
  {
    run == [] || (SyncPossible(s, run[0]) && SyncCanRun(SyncStep(s, run[0]), run[1..]))
  }

  function SyncEnd(s: Sync, run: seq<SyncEvent>): Sync
    requires SyncCanRun(s, run)
    decreases |run|
  {
    if run == [] then s else SyncEnd(SyncStep(s, run[0]), run[1..])
  }

  /** The counter of a wallet is its number of live guards, and absent at zero. */
  ghost predicate Counts(s: Sync) {
    forall w ::
      && (w in s.state.blockingScans <==> s.guards[w] > 0)
      && (w in s.state.blockingScans ==> s.state.blockingScans[w] == s.guards[w])
  }

  lemma SyncStepKeepsCounts(s: Sync, e: SyncEvent)
    requires Counts(s) && SyncPossible(s, e)
    ensures Counts(SyncStep(s, e))
  {
  }

  lemma {:induction false} CountersCountGuards(s: Sync, run: seq<SyncEvent>)
    requires Counts(s) && SyncCanRun(s, run)
    ensures Counts(SyncEnd(s, run))
    decreases |run|
  {
    if run != [] {
      SyncStepKeepsCounts(s, run[0]);
      CountersCountGuards(SyncStep(s, run[0]), run[1..]);
    }
  }

  /** In every interleaving, `start_sync` is refused exactly while a job is
      registered or a scan of that wallet is still in flight; stopping a sync
      does not lift the refusal before its last scan has ended. */
  lemma StartRefusedExactlyWhileScanning(run: seq<SyncEvent>, wallet: Id)
    requires SyncCanRun(Sync(SyncState({}, map[]), multiset{}), run)
    ensures var s := SyncEnd(Sync(SyncState({}, map[]), multiset{}), run);
            && (StartRefused(s.state, wallet) <==> wallet in s.state.jobs || s.guards[wallet] > 0)
            && (s.guards[wallet] > 0 ==>
                  StartRefused(SyncStep(s, StopSync(wallet)).state, wallet))
  {
    CountersCountGuards(Sync(SyncState({}, map[]), multiset{}), run);
  }

  /** `model` counts the live guards beside the registry. Each method is one locked
      section, and one event of the model. */
  class SyncService {
    var jobs: set<Id>
    var blockingScans: map<Id, nat>
    ghost var model: Sync

    ghost predicate Valid()
      reads this
    {
      model.state == SyncState(jobs, blockingScans) && Counts(model)
    }

    constructor ()
      ensures Valid() && model == Sync(SyncState({}, map[]), multiset{})
    {
      jobs, blockingScans := {}, map[];
      model := Sync(SyncState({}, map[]), multiset{});
    }

    /** The gate at the head of `start_sync`. */
    method CheckStart(wallet: Id) returns (refused: bool)
      requires Valid()
      ensures refused <==> wallet in jobs || model.guards[wallet] > 0
    {
      refused := wallet in jobs || wallet in blockingScans;
    }

    method RegisterJob(wallet: Id)
      requires Valid()
      modifies this`jobs, this`model
      ensures Valid() && model == SyncStep(old(model), SyncEvent.RegisterJob(wallet))
      ensures StartRefused(model.state, wallet)
    {
      SyncStepKeepsCounts(model, SyncEvent.RegisterJob(wallet));
      jobs := jobs + {wallet};
      model := SyncStep(model, SyncEvent.RegisterJob(wallet));
    }

    /** Stopping removes the registration; a scan still in flight keeps refusing. */
    method StopSync(wallet: Id)
      requires Valid()
      modifies this`jobs, this`model
      ensures Valid() && model == SyncStep(old(model), SyncEvent.StopSync(wallet))
      ensures StartRefused(model.state, wallet) <==> old(model).guards[wallet] > 0
    {
      SyncStepKeepsCounts(model, SyncEvent.StopSync(wallet));
      jobs := jobs - {wallet};
      model := SyncStep(model, SyncEvent.StopSync(wallet));
    }

    method AcquireScanGuard(wallet: Id)
      requires Valid()
      modifies this`blockingScans, this`model
      ensures Valid() && model == SyncStep(old(model), ScanBegins(wallet))
    {
      SyncStepKeepsCounts(model, ScanBegins(wallet));
      if wallet !in blockingScans {
        blockingScans := blockingScans[wallet := 0];
      }
      blockingScans := blockingScans[wallet := blockingScans[wallet] + 1];
      model := SyncStep(model, ScanBegins(wallet));
    }

    method DropScanGuard(wallet: Id)
      requires Valid()
      modifies this`blockingScans, this`model
      ensures Valid() && model == SyncStep(old(model), ScanEnds(wallet))
    {
      if wallet !in blockingScans {
        return;
      }
      SyncStepKeepsCounts(model, ScanEnds(wallet));
      var count := blockingScans[wallet];
      count := if count == 0 then 0 else count - 1;
      blockingScans := blockingScans[wallet := count];
      if count == 0 {
        blockingScans := blockingScans - {wallet};
      }
      model := SyncStep(model, ScanEnds(wallet));
    }
  }

  // ---------------------------------------------------------------------------
  // Pollers and refreshes
  // ---------------------------------------------------------------------------

  datatype SwapState = SwapState(jobs: set<Id>, refreshInflight: set<Id>)

  /** `starting`: marked, not spawned yet; `spawned`: not polled yet; `polling`:
      running under its guard; `refreshing`: live refreshes; `lost`: swaps whose
      spawned task was dropped before it ran, so that no guard was ever made. */
  datatype Swaps = Swaps(
    state: SwapState, starting: multiset<Id>, spawned: multiset<Id>, polling: multiset<Id>,
    refreshing: multiset<Id>, lost: set<Id>)

  datatype SwapEvent =
    | StartPolling(swap: Id)
    | SpawnSucceeds(swap: Id)
    | SpawnPanics(swap: Id)
    | FirstPoll(swap: Id)
    | DroppedUnpolled(swap: Id)
    | PollerEnds(swap: Id)
    | StartRefresh(swap: Id)
    | RefreshEnds(swap: Id)

  predicate SwapPossible(s: Swaps, e: SwapEvent) {
    match e
    case StartPolling(_) => true
    case SpawnSucceeds(x) => x in s.starting
    case SpawnPanics(x) => x in s.starting
    case FirstPoll(x) => x in s.spawned
    case DroppedUnpolled(x) => x in s.spawned
    case PollerEnds(x) => x in s.polling
    case StartRefresh(_) => true
    case RefreshEnds(x) => x in s.refreshing
  }

  function SwapStep(s: Swaps, e: SwapEvent): Swaps {
    match e
    case StartPolling(x) =>
      if x in s.state.jobs then s
      else s.(state := s.state.(jobs := s.state.jobs + {x}), starting := s.starting + multiset{x})
    case SpawnSucceeds(x) =>
      s.(starting := s.starting - multiset{x}, spawned := s.spawned + multiset{x})
    case SpawnPanics(x) =>
      s.(starting := s.starting - multiset{x}, state := s.state.(jobs := s.state.jobs - {x}))
    case FirstPoll(x) =>
      s.(spawned := s.spawned - multiset{x}, polling := s.polling + multiset{x})
    case DroppedUnpolled(x) => s.(spawned := s.spawned - multiset{x}, lost := s.lost + {x})
    case PollerEnds(x) =>
      s.(polling := s.polling - multiset{x}, state := s.state.(jobs := s.state.jobs - {x}))
    case StartRefresh(x) =>
      if x in s.state.refreshInflight then s
      else s.(state := s.state.(refreshInflight := s.state.refreshInflight + {x}),
              refreshing := s.refreshing + multiset{x})
    case RefreshEnds(x) =>
      s.(state := s.state.(refreshInflight := s.state.refreshInflight - {x}),
         refreshing := s.refreshing - multiset{x})
  }

  predicate SwapCanRun(s: Swaps, run: seq<SwapEvent>)
    decreases |run|
  {
    run == [] || (SwapPossible(s, run[0]) && SwapCanRun(SwapStep(s, run[0]), run[1..]))
  }

  function SwapEnd(s: Swaps, run: seq<SwapEvent>): Swaps
    requires SwapCanRun(s, run)
    decreases |run|
  {
    if run == [] then s else SwapEnd(SwapStep(s, run[0]), run[1..])
  }

  function NoSwaps(): Swaps {
    Swaps(SwapState({}, {}), multiset{}, multiset{}, multiset{}, multiset{}, {})
  }

  /** Tasks of a swap that are on their way to polling or polling already. */
  function Pollers(s: Swaps, x: Id): nat {
    s.starting[x] + s.spawned[x] + s.polling[x]
  }

  ghost predicate Single(s: Swaps) {
    forall x ::
      && Pollers(s, x) == (if x in s.state.jobs && x !in s.lost then 1 else 0)
      && (x in s.lost ==> x in s.state.jobs)
      && s.refreshing[x] == (if x in s.state.refreshInflight then 1 else 0)
  }

  lemma SwapStepKeepsSingle(s: Swaps, e: SwapEvent)
    requires Single(s) && SwapPossible(s, e)
    ensures Single(SwapStep(s, e))
  {
    var next := SwapStep(s, e);
    assert Pollers(s, e.swap) <= 1;
    forall x
      ensures Pollers(next, x) == (if x in next.state.jobs && x !in next.lost then 1 else 0)
      ensures x in next.lost ==> x in next.state.jobs
      ensures next.refreshing[x] == (if x in next.state.refreshInflight then 1 else 0)
    {
      assert Pollers(s, x) == (if x in s.state.jobs && x !in s.lost then 1 else 0);
    }
  }

  lemma {:induction false} RunKeepsSingle(s: Swaps, run: seq<SwapEvent>)
    requires Single(s) && SwapCanRun(s, run)
    ensures Single(SwapEnd(s, run))
    decreases |run|
  {
    if run != [] {
      SwapStepKeepsSingle(s, run[0]);
      RunKeepsSingle(SwapStep(s, run[0]), run[1..]);
    }
  }

  /** In every interleaving a swap has at most one poller and one refresh; and
      polling it is refused with no poller alive exactly when an earlier task of
      it was dropped before it first ran. */
  lemma AtMostOnePoller(run: seq<SwapEvent>, x: Id)
    requires SwapCanRun(NoSwaps(), run)
    ensures var s := SwapEnd(NoSwaps(), run);
            && Pollers(s, x) <= 1 && s.refreshing[x] <= 1
            && (x in s.state.jobs && Pollers(s, x) == 0 <==> x in s.lost)
            && (x in s.state.refreshInflight <==> s.refreshing[x] == 1)
  {
    RunKeepsSingle(NoSwaps(), run);
    var s := SwapEnd(NoSwaps(), run);
    assert Pollers(s, x) == (if x in s.state.jobs && x !in s.lost then 1 else 0);
  }

  /** It does happen: a task dropped before its first poll leaves the swap marked,
      and every later start refused. */
  lemma DroppedTaskLeavesMarker(x: Id) returns (run: seq<SwapEvent>)
    ensures SwapCanRun(NoSwaps(), run)
    ensures var s := SwapEnd(NoSwaps(), run);
            && Pollers(s, x) == 0 && x in s.lost
            && SwapStep(s, StartPolling(x)) == s
  {
    run := [StartPolling(x), SpawnSucceeds(x), DroppedUnpolled(x)];
    var s1 := SwapStep(NoSwaps(), run[0]);
    var s2 := SwapStep(s1, run[1]);
    var s3 := SwapStep(s2, run[2]);
    assert run[1..][1..] == [run[2]] && run[1..][0] == run[1];
    assert SwapCanRun(s2, [run[2]]) && SwapEnd(s2, [run[2]]) == s3;
    assert SwapCanRun(s1, run[1..]) && SwapEnd(s1, run[1..]) == s3;
  }

  /** `model` counts the live tasks and refreshes beside the registry. Each method is
      one locked section, and one event of the model. */
  class SwapService {
    var jobs: set<Id>
    var refreshInflight: set<Id>
    ghost var model: Swaps

    ghost predicate Valid()
      reads this
    {
      model.state == SwapState(jobs, refreshInflight) && Single(model)
    }

    constructor ()
      ensures Valid() && model == NoSwaps()
    {
      jobs, refreshInflight, model := {}, {}, NoSwaps();
    }

    /** The marker is inserted under the same lock as the test: polling starts
        exactly when the swap has no poller, unless a task of it was lost. */
    method MarkPolling(swap: Id) returns (ok: bool)
      requires Valid()
      modifies this`jobs, this`model
      ensures Valid() && model == SwapStep(old(model), StartPolling(swap))
      ensures ok <==> Pollers(old(model), swap) == 0 && swap !in old(model).lost
      ensures ok ==> Pollers(model, swap) == 1
    {
      SwapStepKeepsSingle(model, StartPolling(swap));
      assert Pollers(model, swap) == (if swap in jobs && swap !in model.lost then 1 else 0);
      model := SwapStep(model, StartPolling(swap));
      if swap in jobs {
        return false;
      }
      jobs := jobs + {swap};
      return true;
    }

    /** The spawn panicked: the marker goes with the task that never was. */
    method UnmarkPolling(swap: Id)
      requires Valid() && swap in model.starting
      modifies this`jobs, this`model
      ensures Valid() && model == SwapStep(old(model), SpawnPanics(swap))
      ensures Pollers(model, swap) == 0
    {
      SwapStepKeepsSingle(model, SpawnPanics(swap));
      assert Pollers(model, swap) == 1;
      jobs := jobs - {swap};
      model := SwapStep(model, SpawnPanics(swap));
    }

    /** The task was spawned; the registry does not change. */
    ghost method SpawnSucceeds(swap: Id)
      requires Valid() && swap in model.starting
      modifies this`model
      ensures Valid() && model == SwapStep(old(model), SwapEvent.SpawnSucceeds(swap))
    {
      SwapStepKeepsSingle(model, SwapEvent.SpawnSucceeds(swap));
      model := SwapStep(model, SwapEvent.SpawnSucceeds(swap));
    }

    /** The task runs for the first time and makes its guard. */
    ghost method FirstPoll(swap: Id)
      requires Valid() && swap in model.spawned
      modifies this`model
      ensures Valid() && model == SwapStep(old(model), SwapEvent.FirstPoll(swap))
    {
      SwapStepKeepsSingle(model, SwapEvent.FirstPoll(swap));
      model := SwapStep(model, SwapEvent.FirstPoll(swap));
    }

    /** The task is dropped before it ran, and no guard is there to unmark the swap. */
    ghost method DroppedUnpolled(swap: Id)
      requires Valid() && swap in model.spawned
      modifies this`model
      ensures Valid() && model == SwapStep(old(model), SwapEvent.DroppedUnpolled(swap))
    {
      SwapStepKeepsSingle(model, SwapEvent.DroppedUnpolled(swap));
      model := SwapStep(model, SwapEvent.DroppedUnpolled(swap));
    }

    /** The poller's guard is dropped when its task ends. */
    method DropJobGuard(swap: Id)
      requires Valid() && swap in model.polling
      modifies this`jobs, this`model
      ensures Valid() && model == SwapStep(old(model), PollerEnds(swap))
      ensures Pollers(model, swap) == 0
    {
      SwapStepKeepsSingle(model, PollerEnds(swap));
      assert Pollers(model, swap) == 1;
      jobs := jobs - {swap};
      model := SwapStep(model, PollerEnds(swap));
    }

    /** A refresh starts exactly when none of that swap is running. */
    method TryAcquireRefreshGuard(swap: Id) returns (ok: bool)
      requires Valid()
      modifies this`refreshInflight, this`model
      ensures Valid() && model == SwapStep(old(model), StartRefresh(swap))
      ensures ok <==> old(model).refreshing[swap] == 0
      ensures model.refreshing[swap] == 1
    {
      SwapStepKeepsSingle(model, StartRefresh(swap));
      ok := swap !in refreshInflight;
      refreshInflight := refreshInflight + {swap};
      model := SwapStep(model, StartRefresh(swap));
    }

    method DropRefreshGuard(swap: Id)
      requires Valid() && swap in model.refreshing
      modifies this`refreshInflight, this`model
      ensures Valid() && model == SwapStep(old(model), RefreshEnds(swap))
      ensures model.refreshing[swap] == 0
    {
      SwapStepKeepsSingle(model, RefreshEnds(swap));
      refreshInflight := refreshInflight - {swap};
      model := SwapStep(model, RefreshEnds(swap));
    }
  }
}
