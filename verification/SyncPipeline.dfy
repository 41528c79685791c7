/**
 The pipelined download and scan of one range: a download task, a channel of
 four messages and the scan loop, sharing the adaptive batch controller.

 Every interleaving of the two tasks is a run of actions. Batches are the
 requested half-open intervals. Network and database outcomes are choices of
 the run. Block caching is part of starting a scan. Stopping the sync sets the
 cancel flag and then aborts the scan loop, which lets go of the receiver.
*/
module SyncPipeline {
  import opened BatchController

  const LOOKAHEAD_BATCHES: nat := 4

  datatype Message = Batch(lo: nat, hi: nat) | RangeComplete | DownloadError | Cancelled

  /** Where the download task is: at its loop head, waiting for blocks, waiting
      for room in the channel, or returned. */
  datatype Producer = Ready(at: nat) | Downloading(lo: nat, hi: nat) | Sending(msg: Message) | Done

  datatype Stop = Complete | Closed | Reorg | RangeError | RangeCancelled

  /** Where the scan loop is. `Stopped` has left the loop but still holds the
      receiver while it awaits the download task; `Dropped` has let it go. */
  datatype Consumer =
    | Receiving
    | Caching(lo: nat, hi: nat)
    | Scanning(lo: nat, hi: nat)
    | Stopped(why: Stop)
    | Dropped

  /** One call of the scanner; `state` is the height its chain state is for. */
  datatype ScanCall = ScanCall(lo: nat, hi: nat, state: nat)

  /** `produced` and `taken` are the upper ends of the batches put into the
      channel and taken from it. */
  datatype Pipe = Pipe(
    start: nat, end: nat,
    sizes: Sizes, cancel: bool,
    producer: Producer, channel: seq<Message>, consumer: Consumer,
    produced: nat, taken: nat, isFirst: bool, scans: seq<ScanCall>)

  datatype Action =
    | Cancel
    | Abort
    | CheckRange
    | DownloadOk
    | DownloadFail
    | Send
    | Receive
    | StartScan
    | CacheFail
    | FetchFail
    | ScanOk(secs: real, scannedBlocks: nat, touchedNotes: nat)
    | ScanReorg
    | ScanError
    | ScanWorkerFail

  function Init(start: nat, end: nat): Pipe {
    Pipe(start, end, InitialSizes(start), false, Ready(start), [], Receiving, start, start, true, [])
  }

  /** Heights saturate at zero when counting down. */
  function Prior(height: nat): nat {
    if height == 0 then 0 else height - 1
  }

  /** 32-bit addition of a size to a height, capped by the end of the range. */
  function BatchEnd(p: Pipe, at: nat): nat {
    var sum := at + NextDownloadSize(p.sizes, at);
    var next := if sum > U32_MAX then U32_MAX else sum;
    if next < p.end then next else p.end
  }

  predicate Enabled(p: Pipe, a: Action) {
    match a
    case Cancel => !p.cancel
    case Abort => p.cancel && !p.consumer.Dropped?
    case CheckRange => p.producer.Ready?
    case DownloadOk => p.producer.Downloading?
    case DownloadFail => p.producer.Downloading?
    case Send =>
      p.producer.Sending? && (|p.channel| < LOOKAHEAD_BATCHES || p.consumer.Dropped?)
    case Receive => p.consumer.Receiving? && (p.channel != [] || p.producer.Done?)
    case StartScan => p.consumer.Caching?
    case CacheFail => p.consumer.Caching?
    case FetchFail => p.consumer.Caching? && !p.isFirst
    case _ => p.consumer.Scanning?
  }

  function Next(p: Pipe, a: Action): Pipe
    requires Enabled(p, a)
  {
    match a
    case Cancel => p.(cancel := true)
    case Abort => p.(consumer := Dropped)
    case CheckRange =>
      var at := p.producer.at;
      p.(producer := if at >= p.end then Sending(RangeComplete)
                     else if p.cancel then Sending(Cancelled)
                     else Downloading(at, BatchEnd(p, at)))
    case DownloadOk => p.(producer := Sending(Batch(p.producer.lo, p.producer.hi)))
    case DownloadFail => p.(producer := Sending(DownloadError))
    case Send =>
      var msg := p.producer.msg;
      if p.consumer.Dropped? then p.(producer := Done)
      else if msg.Batch? then
        p.(channel := p.channel + [msg], producer := Ready(msg.hi), produced := msg.hi)
      else p.(channel := p.channel + [msg], producer := Done)
    case Receive =>
      if p.channel == [] then p.(consumer := Stopped(Closed))
      else Took(p.(channel := p.channel[1..]), p.channel[0])
    case StartScan =>
      var lo, hi := p.consumer.lo, p.consumer.hi;
      p.(consumer := Scanning(lo, hi), isFirst := false,
         scans := p.scans + [ScanCall(lo, hi, if p.isFirst then Prior(p.start) else Prior(lo))])
    case CacheFail => p.(consumer := Dropped)
    case FetchFail => p.(consumer := Stopped(RangeError))
    case ScanOk(secs, scannedBlocks, touchedNotes) =>
      p.(consumer := Receiving,
         sizes := Recorded(p.sizes, ScanResult(p.consumer.lo, secs, scannedBlocks, touchedNotes)))
    case ScanReorg => p.(consumer := Stopped(Reorg))
    case ScanError => p.(consumer := Stopped(RangeError))
    case ScanWorkerFail => p.(consumer := Dropped)
  }

  function Took(p: Pipe, msg: Message): Pipe {
    match msg
    case Batch(lo, hi) =>
      p.(taken := hi, consumer := if p.cancel then Stopped(RangeCancelled) else Caching(lo, hi))
    case RangeComplete => p.(consumer := Stopped(Complete))
    case DownloadError => p.(consumer := Stopped(RangeError))
    case Cancelled => p.(consumer := Stopped(RangeCancelled))
  }

  predicate CanRun(p: Pipe, run: seq<Action>)
    decreases |run|
  {
    run == [] || (Enabled(p, run[0]) && CanRun(Next(p, run[0]), run[1..]))
  }

  function End(p: Pipe, run: seq<Action>): Pipe
    requires CanRun(p, run)
    decreases |run|
  {
    if run == [] then p else End(Next(p, run[0]), run[1..])
  }

  // ---------------------------------------------------------------------------
  // Safety: consecutive batches, the right chain state, full coverage
  // ---------------------------------------------------------------------------

  /** Consecutive nonempty intervals from `from` to `to`, each scanned with the
      chain state of the height just below it. */
  ghost predicate Consecutive(scans: seq<ScanCall>, from: nat, to: nat) {
    if scans == [] then from == to
    else
      var last := scans[|scans| - 1];
      && last.lo < last.hi == to && last.state == Prior(last.lo)
      && Consecutive(scans[..|scans| - 1], from, last.lo)
  }

  /** Messages in flight carry on from `from` and hand over to `to`; a message
      that ends the stream is last, and completion is only announced at the end. */
  ghost predicate InFlight(msgs: seq<Message>, from: nat, to: nat, end: nat) {
    if msgs == [] then from == to
    else
      match msgs[0]
      case Batch(lo, hi) => lo == from < hi <= end && InFlight(msgs[1..], hi, to, end)
      case RangeComplete => |msgs| == 1 && from == to >= end
      case _ => |msgs| == 1 && from == to
  }

  predicate EndsStream(msgs: seq<Message>) {
    msgs != [] && !msgs[|msgs| - 1].Batch?
  }

  /** A requested batch: within the range, and 100 heights or all that is left. */
  predicate Requested(p: Pipe, lo: nat, hi: nat) {
    lo == p.produced < hi <= p.end && (hi - lo >= 100 || hi == p.end)
  }

  predicate ProducerInv(p: Pipe) {
    && (p.produced == p.start || p.start < p.produced <= p.end)
    && match p.producer
       case Ready(at) => at == p.produced
       case Downloading(lo, hi) => Requested(p, lo, hi)
       case Sending(Batch(lo, hi)) => Requested(p, lo, hi)
       case Sending(RangeComplete) => p.produced >= p.end
       case _ => true
  }

  function Scanned(p: Pipe): nat {
    if p.scans == [] then p.start else p.scans[|p.scans| - 1].hi
  }

  predicate ConsumerInv(p: Pipe) {
    match p.consumer
    case Caching(lo, hi) => Scanned(p) == lo < hi == p.taken
    case Receiving => Scanned(p) == p.taken
    case Scanning(lo, hi) => Scanned(p) == p.taken
    case Stopped(Complete) => Scanned(p) == p.taken == p.produced >= p.end
    case Stopped(Closed) => false
    case _ => true
  }

  predicate Listening(p: Pipe) {
    p.consumer.Receiving? || p.consumer.Caching? || p.consumer.Scanning?
  }

  ghost predicate Inv(p: Pipe) {
    && Valid(p.sizes) && p.end <= U32_MAX
    && |p.channel| <= LOOKAHEAD_BATCHES
    && (p.isFirst <==> p.scans == [])
    && Consecutive(p.scans, p.start, Scanned(p))
    && InFlight(p.channel, p.taken, p.produced, p.end)
    && (EndsStream(p.channel) ==> p.producer.Done?)
    && (p.producer.Done? && Listening(p) ==> EndsStream(p.channel))
    && ProducerInv(p)
    && ConsumerInv(p)
  }

  lemma {:induction false} InFlightBatch(msgs: seq<Message>, from: nat, to: nat, end: nat, hi: nat)
    requires InFlight(msgs, from, to, end) && !EndsStream(msgs) && to < hi <= end
    ensures InFlight(msgs + [Batch(to, hi)], from, hi, end)
    decreases |msgs|
  {
    if msgs != [] {
      InFlightBatch(msgs[1..], msgs[0].hi, to, end, hi);
      assert (msgs + [Batch(to, hi)])[1..] == msgs[1..] + [Batch(to, hi)];
    }
  }

  lemma {:induction false} InFlightEnd(msgs: seq<Message>, from: nat, to: nat, end: nat, msg: Message)
    requires InFlight(msgs, from, to, end) && !EndsStream(msgs) && !msg.Batch?
    requires msg.RangeComplete? ==> to >= end
    ensures InFlight(msgs + [msg], from, to, end)
    decreases |msgs|
  {
    if msgs != [] {
      InFlightEnd(msgs[1..], msgs[0].hi, to, end, msg);
      assert (msgs + [msg])[1..] == msgs[1..] + [msg];
    }
  }

  lemma SendKeepsInv(p: Pipe)
    requires Inv(p) && Enabled(p, Send)
    ensures Inv(Next(p, Send))
  {
    hide Consecutive, InFlight;
    var msg := p.producer.msg;
    if !p.consumer.Dropped? {
      if msg.Batch? {
        InFlightBatch(p.channel, p.taken, p.produced, p.end, msg.hi);
      } else {
        InFlightEnd(p.channel, p.taken, p.produced, p.end, msg);
      }
    }
  }

  lemma RestEndsStream(msgs: seq<Message>)
    requires |msgs| > 1
    ensures EndsStream(msgs[1..]) <==> EndsStream(msgs)
  {
    assert msgs[1..][|msgs| - 2] == msgs[|msgs| - 1];
  }

  lemma FirstInFlight(p: Pipe)
    requires InFlight(p.channel, p.taken, p.produced, p.end) && p.channel != []
    ensures match p.channel[0]
            case Batch(lo, hi) =>
              lo == p.taken < hi && InFlight(p.channel[1..], hi, p.produced, p.end)
            case RangeComplete => p.channel[1..] == [] && p.taken == p.produced >= p.end
            case _ => p.channel[1..] == [] && p.taken == p.produced
  {
  }

  lemma ReceiveBatchKeepsInv(p: Pipe)
    requires Inv(p) && p.consumer.Receiving? && p.channel != [] && p.channel[0].Batch?
    ensures Inv(Next(p, Receive))
  {
    FirstInFlight(p);
    if |p.channel| > 1 {
      RestEndsStream(p.channel);
    }
    hide Consecutive, InFlight;
  }

  lemma ReceiveEndKeepsInv(p: Pipe)
    requires Inv(p) && p.consumer.Receiving? && p.channel != [] && !p.channel[0].Batch?
    ensures Inv(Next(p, Receive))
  {
    FirstInFlight(p);
    assert InFlight([], p.taken, p.produced, p.end) && !EndsStream([]);
    hide Consecutive, InFlight;
  }

  lemma ReceiveKeepsInv(p: Pipe)
    requires Inv(p) && Enabled(p, Receive)
    ensures Inv(Next(p, Receive))
  {
    assert p.channel != [];
    hide Inv;
    if p.channel[0].Batch? {
      ReceiveBatchKeepsInv(p);
    } else {
      ReceiveEndKeepsInv(p);
    }
  }

  lemma ConsecutiveSnoc(scans: seq<ScanCall>, from: nat, lo: nat, hi: nat)
    requires Consecutive(scans, from, lo) && lo < hi
    ensures Consecutive(scans + [ScanCall(lo, hi, Prior(lo))], from, hi)
  {
    assert (scans + [ScanCall(lo, hi, Prior(lo))])[..|scans|] == scans;
  }

  lemma StartScanKeepsInv(p: Pipe)
    requires Inv(p) && Enabled(p, StartScan)
    ensures Inv(Next(p, StartScan))
  {
    ConsecutiveSnoc(p.scans, p.start, p.consumer.lo, p.consumer.hi);
    hide InFlight, Consecutive;
  }

  lemma ProducerKeepsInv(p: Pipe, a: Action)
    requires Inv(p) && Enabled(p, a)
    requires a.Cancel? || a.CheckRange? || a.DownloadOk? || a.DownloadFail?
    ensures Inv(Next(p, a))
  {
    hide Consecutive, InFlight;
  }

  lemma ConsumerKeepsInv(p: Pipe, a: Action)
    requires Inv(p) && Enabled(p, a)
    requires a.CacheFail? || a.FetchFail? || a.ScanOk? || a.ScanReorg? || a.ScanError?
             || a.ScanWorkerFail? || a.Abort?
    ensures Inv(Next(p, a))
  {
    hide Consecutive, InFlight;
  }

  lemma StepKeepsInv(p: Pipe, a: Action)
    requires Inv(p) && Enabled(p, a)
    ensures Inv(Next(p, a))
  {
    match a {
      case Send => SendKeepsInv(p);
      case Receive => ReceiveKeepsInv(p);
      case StartScan => StartScanKeepsInv(p);
      case Cancel => ProducerKeepsInv(p, a);
      case CheckRange => ProducerKeepsInv(p, a);
      case DownloadOk => ProducerKeepsInv(p, a);
      case DownloadFail => ProducerKeepsInv(p, a);
      case _ => ConsumerKeepsInv(p, a);
    }
  }

  lemma {:induction false} RunKeepsInv(p: Pipe, run: seq<Action>)
    requires Inv(p) && CanRun(p, run)
    ensures Inv(End(p, run))
    decreases |run|
  {
    if run != [] {
      StepKeepsInv(p, run[0]);
      RunKeepsInv(Next(p, run[0]), run[1..]);
    }
  }

  /** In every interleaving, with batch sizes changing along the way, the scanned
      batches are consecutive from the start of the range, each with the chain
      state of the height just below it; and when the range is reported complete
      they cover exactly the range. */
  lemma ScansAreConsecutive(start: nat, end: nat, run: seq<Action>)
    requires end <= U32_MAX && CanRun(Init(start, end), run)
    ensures var p := End(Init(start, end), run);
            && Consecutive(p.scans, start, Scanned(p))
            && (p.consumer == Stopped(Complete) ==>
                  Consecutive(p.scans, start, if start < end then end else start))
            && p.consumer != Stopped(Closed)
  {
    InitInv(start, end);
    RunKeepsInv(Init(start, end), run);
    EndsKeep(Init(start, end), run);
  }

  lemma InitInv(start: nat, end: nat)
    requires end <= U32_MAX
    ensures Inv(Init(start, end))
  {
  }

  lemma {:induction false} EndsKeep(p: Pipe, run: seq<Action>)
    requires CanRun(p, run)
    ensures End(p, run).start == p.start && End(p, run).end == p.end
    decreases |run|
  {
    if run != [] {
      EndsKeep(Next(p, run[0]), run[1..]);
    }
  }

  /** Consecutive scans cover every height between their ends exactly once. */
  lemma {:induction false} CoverExactlyOnce(scans: seq<ScanCall>, from: nat, to: nat, h: nat)
    requires Consecutive(scans, from, to)
    ensures from <= to
    ensures from <= h < to <==> exists i | 0 <= i < |scans| :: scans[i].lo <= h < scans[i].hi
    ensures forall i, j | 0 <= i < j < |scans| :: scans[i].hi <= scans[j].lo
    decreases |scans|
  {
    if scans != [] {
      var n := |scans| - 1;
      var init := scans[..n];
      CoverExactlyOnce(init, from, scans[n].lo, h);
      assert forall i | 0 <= i < n :: init[i] == scans[i];
      forall i | 0 <= i < n ensures scans[i].hi <= scans[n].lo {
        LastIsFurthest(init, from, scans[n].lo, i);
      }
    }
  }

  lemma {:induction false} LastIsFurthest(scans: seq<ScanCall>, from: nat, to: nat, i: nat)
    requires Consecutive(scans, from, to) && i < |scans|
    ensures scans[i].hi <= to
    decreases |scans|
  {
    var n := |scans| - 1;
    if i < n {
      LastIsFurthest(scans[..n], from, scans[n].lo, i);
    }
  }

  // ---------------------------------------------------------------------------
  // Progress: every run is short, and never stuck while the scanner listens
  // ---------------------------------------------------------------------------

  /** Downloads still needed, were each as small as a download can be. */
  function Downloads(from: nat, end: nat): nat {
    if from >= end then 0 else (end - from + 99) / 100
  }

  function ProducerWork(p: Pipe): nat {
    match p.producer
    case Ready(at) => 6 * Downloads(at, p.end) + 5
    case Downloading(lo, _) => 6 * Downloads(lo, p.end) + 4
    case Sending(Batch(lo, _)) => 6 * Downloads(lo, p.end) + 3
    case Sending(_) => 4
    case Done => 0
  }

  function ConsumerWork(p: Pipe): nat {
    match p.consumer
    case Caching(_, _) => 4
    case Scanning(_, _) => 3
    case Receiving => 2
    case Stopped(_) => 1
    case Dropped => 0
  }

  function Work(p: Pipe): nat {
    ProducerWork(p) + 3 * |p.channel| + ConsumerWork(p) + if p.cancel then 0 else 1
  }

  lemma BatchLeavesFewerDownloads(p: Pipe, lo: nat, hi: nat)
    requires Requested(p, lo, hi)
    ensures Downloads(hi, p.end) < Downloads(lo, p.end)
  {
  }

  lemma SendDecreasesWork(p: Pipe)
    requires Inv(p) && Enabled(p, Send)
    ensures Work(Next(p, Send)) < Work(p)
  {
    hide Consecutive, InFlight, Downloads;
    if p.producer.msg.Batch? {
      BatchLeavesFewerDownloads(p, p.producer.msg.lo, p.producer.msg.hi);
    }
  }

  lemma ProducerDecreasesWork(p: Pipe, a: Action)
    requires ProducerInv(p) && Enabled(p, a)
    requires a.Cancel? || a.CheckRange? || a.DownloadOk? || a.DownloadFail?
    ensures Work(Next(p, a)) < Work(p)
  {
    hide BatchEnd;
  }

  lemma ConsumerDecreasesWork(p: Pipe, a: Action)
    requires Enabled(p, a) && !a.Send?
    requires !a.Cancel? && !a.CheckRange? && !a.DownloadOk? && !a.DownloadFail?
    ensures Work(Next(p, a)) < Work(p)
  {
    hide Recorded;
    assert ProducerWork(Next(p, a)) == ProducerWork(p) by { hide Downloads; }
    hide ProducerWork;
  }

  lemma StepDecreasesWork(p: Pipe, a: Action)
    requires Inv(p) && Enabled(p, a)
    ensures Work(Next(p, a)) < Work(p)
  {
    if a.Send? {
      SendDecreasesWork(p);
    } else if a.Cancel? || a.CheckRange? || a.DownloadOk? || a.DownloadFail? {
      ProducerDecreasesWork(p, a);
    } else {
      ConsumerDecreasesWork(p, a);
    }
  }

  /** No run is longer than this; every download asks for at least 100 blocks. */
  lemma {:induction false} RunsAreShort(p: Pipe, run: seq<Action>)
    requires Inv(p) && CanRun(p, run)
    ensures |run| <= Work(p)
    decreases |run|
  {
    if run != [] {
      StepKeepsInv(p, run[0]);
      StepDecreasesWork(p, run[0]);
      RunsAreShort(Next(p, run[0]), run[1..]);
    }
  }

  /** While the scan loop is receiving, caching or scanning, one of the two tasks
      can always take a step. */
  lemma NeverStuckWhileListening(p: Pipe)
    requires Listening(p)
    ensures exists a: Action :: !a.Cancel? && !a.Abort? && Enabled(p, a)
  {
    var a :=
      match p.consumer
      case Caching(_, _) => StartScan
      case Scanning(_, _) => ScanReorg
      case _ =>
        if p.channel != [] || p.producer.Done? then Receive
        else match p.producer
          case Ready(_) => CheckRange
          case Downloading(_, _) => DownloadOk
          case _ => Send;
    assert !a.Cancel? && !a.Abort? && Enabled(p, a);
  }

  // ---------------------------------------------------------------------------
  // After the loop: awaiting the download task with the receiver still alive
  // ---------------------------------------------------------------------------

  /** The download task waits for room that nobody will make. */
  predicate Blocked(p: Pipe) {
    p.consumer.Stopped? && p.producer.Sending? && |p.channel| == LOOKAHEAD_BATCHES
  }

  /** Messages the task would still send from `at` if every download succeeds;
      the controller no longer changes once the scan loop has stopped. */
  function MessagesFrom(p: Pipe, at: nat): (n: nat)
    requires Valid(p.sizes) && p.end <= U32_MAX
    ensures n >= 1
    decreases p.end - at
  {
    if at >= p.end || p.cancel then 1 else 1 + MessagesFrom(p, BatchEnd(p, at))
  }

  function MessagesLeft(p: Pipe): nat
    requires Valid(p.sizes) && p.end <= U32_MAX
  {
    match p.producer
    case Ready(at) => MessagesFrom(p, at)
    case Downloading(_, hi) => 1 + MessagesFrom(p, hi)
    case Sending(Batch(_, hi)) => 1 + MessagesFrom(p, hi)
    case Sending(_) => 1
    case Done => 0
  }

  /** Left to itself: the sync is not stopped from outside. */
  predicate NoAbort(run: seq<Action>) {
    forall a | a in run :: !a.Abort?
  }

  /** Left to itself, every run of the wait can be carried on until the download
      task has returned; as runs are short, the wait then ends. */
  ghost predicate AwaitAlwaysEnds(p: Pipe) {
    forall run | CanRun(p, run) && NoAbort(run) :: CanReturn(End(p, run))
  }

  ghost predicate CanReturn(p: Pipe) {
    exists rest :: CanRun(p, rest) && NoAbort(rest) && End(p, rest).producer.Done?
  }

  /** While the task has not returned and is not blocked, it has a step to take. */
  lemma WaitingTaskCanStep(p: Pipe) returns (a: Action)
    requires !p.producer.Done? && !Blocked(p) && p.consumer.Stopped?
    requires |p.channel| <= LOOKAHEAD_BATCHES
    ensures Enabled(p, a) && (a.CheckRange? || a.DownloadOk? || a.Send?)
  {
    a := match p.producer
      case Ready(_) => CheckRange
      case Downloading(_, _) => DownloadOk
      case _ => Send;
  }

  lemma {:induction false} CancelOnlyShortens(p: Pipe, at: nat)
    requires Valid(p.sizes) && p.end <= U32_MAX
    ensures MessagesFrom(p.(cancel := true), at) <= MessagesFrom(p, at)
  {
  }

  lemma {:induction false} MessagesDependOnController(p: Pipe, q: Pipe, at: nat)
    requires Valid(p.sizes) && p.end <= U32_MAX
    requires p.sizes == q.sizes && p.end == q.end && p.cancel == q.cancel
    ensures MessagesFrom(p, at) == MessagesFrom(q, at)
    decreases p.end - at
  {
    if at < p.end && !p.cancel {
      MessagesDependOnController(p, q, BatchEnd(p, at));
    }
  }

  /** A step of the download task, or setting the flag, adds no message; and its
      successful steps lose none. */
  lemma TaskStepCannotAddMessages(p: Pipe, a: Action)
    requires Inv(p) && Enabled(p, a) && !p.consumer.Dropped?
    requires a.Cancel? || a.CheckRange? || a.DownloadOk? || a.DownloadFail? || a.Send?
    ensures var q := Next(p, a);
            && Inv(q) && q.consumer == p.consumer && q.sizes == p.sizes && q.end == p.end
            && MessagesLeft(q) + |q.channel| <= MessagesLeft(p) + |p.channel|
            && (a.CheckRange? || a.DownloadOk? || a.Send? ==>
                  MessagesLeft(q) + |q.channel| == MessagesLeft(p) + |p.channel|)
  {
    StepKeepsInv(p, a);
    hide Consecutive, InFlight;
    var q := Next(p, a);
    match a {
      case Cancel =>
        if p.producer.Ready? {
          CancelOnlyShortens(p, p.producer.at);
        } else if p.producer.Downloading? {
          CancelOnlyShortens(p, p.producer.hi);
        } else if p.producer.Sending? && p.producer.msg.Batch? {
          CancelOnlyShortens(p, p.producer.msg.hi);
        }
      case CheckRange =>
        if q.producer.Downloading? {
          MessagesDependOnController(p, q, q.producer.hi);
        }
      case DownloadOk =>
        MessagesDependOnController(p, q, p.producer.hi);
      case DownloadFail =>
      case Send =>
        if p.producer.msg.Batch? {
          MessagesDependOnController(p, q, p.producer.msg.hi);
        }
    }
  }

  lemma {:induction false} RoomKeeps(p: Pipe, run: seq<Action>)
    requires Inv(p) && p.consumer.Stopped? && CanRun(p, run) && NoAbort(run)
    requires MessagesLeft(p) + |p.channel| <= LOOKAHEAD_BATCHES
    ensures var q := End(p, run);
            && Inv(q) && q.consumer.Stopped?
            && MessagesLeft(q) + |q.channel| <= LOOKAHEAD_BATCHES
    decreases |run|
  {
    if run != [] {
      assert run[0] in run;
      TaskStepCannotAddMessages(p, run[0]);
      hide Inv, MessagesLeft, Next, Enabled;
      RoomKeeps(Next(p, run[0]), run[1..]);
    }
  }

  /** With room for all its messages the task is never blocked and can return. */
  lemma {:induction false} RoomIsEnough(p: Pipe) returns (rest: seq<Action>)
    requires Inv(p) && p.consumer.Stopped?
    requires MessagesLeft(p) + |p.channel| <= LOOKAHEAD_BATCHES
    ensures !Blocked(p)
    ensures CanRun(p, rest) && NoAbort(rest) && End(p, rest).producer.Done?
    decreases Work(p)
  {
    hide Consecutive, InFlight;
    if p.producer.Done? {
      rest := [];
    } else {
      var a := WaitingTaskCanStep(p);
      TaskStepCannotAddMessages(p, a);
      StepDecreasesWork(p, a);
      var more := RoomIsEnough(Next(p, a));
      rest := [a] + more;
      assert rest[1..] == more;
    }
  }

  /** Only the download task moves, and its downloads succeed. */
  predicate OnlyDownloads(run: seq<Action>) {
    forall a | a in run :: a.CheckRange? || a.DownloadOk? || a.Send?
  }

  /** With too many messages left, downloads that all succeed end up blocked. */
  lemma {:induction false} TooManyMessagesBlock(p: Pipe) returns (run: seq<Action>)
    requires Inv(p) && p.consumer.Stopped?
    requires MessagesLeft(p) + |p.channel| > LOOKAHEAD_BATCHES
    ensures CanRun(p, run) && OnlyDownloads(run) && Blocked(End(p, run))
    decreases Work(p)
  {
    if Blocked(p) {
      run := [];
    } else {
      var a := WaitingTaskCanStep(p);
      TaskStepCannotAddMessages(p, a);
      StepDecreasesWork(p, a);
      var rest := TooManyMessagesBlock(Next(p, a));
      run := [a] + rest;
      assert run[1..] == rest;
    }
  }

  /** A blocked task stays blocked for all that either task can do. */
  lemma BlockedByItself(p: Pipe, a: Action)
    requires Blocked(p) && Enabled(p, a) && !a.Abort?
    ensures a.Cancel? && Blocked(Next(p, a))
  {
  }

  lemma {:induction false} BlockedCannotReturn(p: Pipe, rest: seq<Action>)
    requires Blocked(p) && CanRun(p, rest) && NoAbort(rest)
    ensures !End(p, rest).producer.Done?
    decreases |rest|
  {
    if rest != [] {
      assert rest[0] in rest;
      BlockedByItself(p, rest[0]);
      BlockedCannotReturn(Next(p, rest[0]), rest[1..]);
    }
  }

  /** Stopping the sync releases a blocked task, and nothing else does. */
  lemma OnlyStoppingReleases(p: Pipe) returns (rest: seq<Action>)
    requires Blocked(p)
    ensures CanRun(p, rest) && End(p, rest).producer.Done?
    ensures forall other | CanRun(p, other) && End(p, other).producer.Done? :: Abort in other
  {
    var q := p.(cancel := true);
    var released := [Abort, Send];
    assert released[1..] == [Send];
    assert CanRun(Next(q, Abort), [Send]) && End(Next(q, Abort), [Send]).producer.Done?;
    assert CanRun(q, released) && End(q, released).producer.Done?;
    if p.cancel {
      rest := released;
    } else {
      rest := [Cancel] + released;
      assert rest[1..] == released;
    }
    forall other | CanRun(p, other) && End(p, other).producer.Done? ensures Abort in other {
      if Abort !in other {
        BlockedCannotReturn(p, other);
      }
    }
  }

  /** Once the scan loop has stopped, awaiting the download task is certain to end by
      itself exactly when the messages it may still send fit in the channel's free
      slots. */
  lemma AwaitEndsExactlyWhenMessagesFit(p: Pipe)
    requires Inv(p) && p.consumer.Stopped?
    ensures AwaitAlwaysEnds(p) <==> MessagesLeft(p) + |p.channel| <= LOOKAHEAD_BATCHES
  {
    hide Consecutive, InFlight, MessagesLeft, Blocked;
    if MessagesLeft(p) + |p.channel| <= LOOKAHEAD_BATCHES {
      forall run | CanRun(p, run) && NoAbort(run) ensures CanReturn(End(p, run)) {
        RoomKeeps(p, run);
        var rest := RoomIsEnough(End(p, run));
      }
    } else {
      var run := TooManyMessagesBlock(p);
      forall rest | CanRun(End(p, run), rest) && NoAbort(rest)
        ensures !End(End(p, run), rest).producer.Done?
      {
        BlockedCannotReturn(End(p, run), rest);
      }
      assert !CanReturn(End(p, run));
    }
  }

  // ---------------------------------------------------------------------------
  // A failing first scan
  // ---------------------------------------------------------------------------

  /** No scan succeeds, and the sync is not stopped from outside. */
  predicate FirstScanFails(run: seq<Action>) {
    forall a | a in run :: !a.ScanOk? && !a.Abort?
  }

  ghost predicate FirstScanCanBlock(start: nat, end: nat) {
    exists run :: CanRun(Init(start, end), run) && FirstScanFails(run)
                  && Blocked(End(Init(start, end), run))
  }

  /** Until a scan succeeds, one message at most has been taken from the stream. */
  ghost predicate AtMostOneTaken(p: Pipe, total: nat) {
    && Inv(p) && !(p.consumer.Dropped?)
    && MessagesLeft(p) + |p.channel| + (if p.consumer.Receiving? then 0 else 1) <= total
  }

  lemma ConsumerStepKeepsMessages(p: Pipe, a: Action)
    requires Inv(p) && Enabled(p, a) && !a.ScanOk? && !a.Abort?
    requires !(a.Cancel? || a.CheckRange? || a.DownloadOk? || a.DownloadFail? || a.Send?)
    ensures var q := Next(p, a);
            && Inv(q) && MessagesLeft(q) == MessagesLeft(p) && !q.consumer.Receiving?
            && |q.channel| + (if p.consumer.Receiving? then 1 else 0) == |p.channel|
  {
    StepKeepsInv(p, a);
    ConsumerStepEffect(p, a);
    var q := Next(p, a);
    hide Next, Enabled, Consecutive, InFlight;
    match p.producer {
      case Ready(at) => MessagesDependOnController(p, q, at);
      case Downloading(_, hi) => MessagesDependOnController(p, q, hi);
      case Sending(Batch(_, hi)) => MessagesDependOnController(p, q, hi);
      case _ =>
    }
  }

  /** What a step of the scan loop leaves alone, short of a scan that succeeds. */
  lemma ConsumerStepEffect(p: Pipe, a: Action)
    requires Inv(p) && Enabled(p, a) && !a.ScanOk?
    requires !(a.Cancel? || a.CheckRange? || a.DownloadOk? || a.DownloadFail? || a.Send?)
    ensures var q := Next(p, a);
            && q.producer == p.producer && q.sizes == p.sizes && q.end == p.end
            && q.cancel == p.cancel && !q.consumer.Receiving?
            && (!a.Abort? ==> |q.channel| + (if p.consumer.Receiving? then 1 else 0) == |p.channel|)
  {
    assert p.consumer.Receiving? ==> !p.producer.Done? || p.channel != [];
    hide Consecutive, InFlight, BatchEnd;
  }

  lemma StepKeepsAtMostOne(p: Pipe, a: Action, total: nat)
    requires AtMostOneTaken(p, total) && Enabled(p, a) && !a.ScanOk? && !a.Abort?
    ensures AtMostOneTaken(Next(p, a), total) || Next(p, a).consumer.Dropped?
  {
    if a.Cancel? || a.CheckRange? || a.DownloadOk? || a.DownloadFail? || a.Send? {
      TaskStepCannotAddMessages(p, a);
    } else {
      ConsumerStepKeepsMessages(p, a);
    }
    hide Inv, MessagesLeft, Next, Enabled;
  }

  lemma {:induction false} DroppedStays(p: Pipe, run: seq<Action>)
    requires p.consumer.Dropped? && CanRun(p, run)
    ensures End(p, run).consumer.Dropped?
    decreases |run|
  {
    if run != [] {
      DroppedStays(Next(p, run[0]), run[1..]);
    }
  }

  lemma {:induction false} RunKeepsAtMostOne(p: Pipe, run: seq<Action>, total: nat)
    requires AtMostOneTaken(p, total) && CanRun(p, run) && FirstScanFails(run)
    ensures AtMostOneTaken(End(p, run), total) || End(p, run).consumer.Dropped?
    decreases |run|
  {
    if run != [] {
      assert run[0] in run;
      hide AtMostOneTaken, Next, Enabled;
      StepKeepsAtMostOne(p, run[0], total);
      if Next(p, run[0]).consumer.Dropped? {
        DroppedStays(Next(p, run[0]), run[1..]);
      } else {
        RunKeepsAtMostOne(Next(p, run[0]), run[1..], total);
      }
    }
  }

  /** A first scan that fails can leave the loop awaiting a blocked download task
      exactly when the range needs more than five messages: one taken, four in the
      channel, and one without room. */
  lemma FirstScanCanBlockExactlyWhen(start: nat, end: nat)
    requires start < end <= U32_MAX
    ensures Valid(Init(start, end).sizes)
    ensures FirstScanCanBlock(start, end) <==> MessagesFrom(Init(start, end), start) > 5
  {
    var p0 := Init(start, end);
    InitInv(start, end);
    if FirstScanCanBlock(start, end) {
      var run :| CanRun(p0, run) && FirstScanFails(run) && Blocked(End(p0, run));
      RunKeepsAtMostOne(p0, run, MessagesFrom(p0, start));
      assert MessagesLeft(End(p0, run)) >= 1;
    }
    if MessagesFrom(p0, start) > 5 {
      var p, first := FailedFirstScan(start, end);
      MessagesDependOnController(p0, p, p.producer.at);
      var rest := TooManyMessagesBlock(p);
      hide Inv, MessagesFrom, Next, Enabled;
      RunsConcatenate(p0, first, rest);
      assert FirstScanFails(first + rest);
    }
  }

  lemma FirstBatchSent(start: nat, end: nat) returns (p: Pipe, run: seq<Action>)
    requires start < end <= U32_MAX
    ensures CanRun(Init(start, end), run) && p == End(Init(start, end), run)
    ensures FirstScanFails(run) && Inv(p)
    ensures var hi := BatchEnd(Init(start, end), start);
            p == Init(start, end).(producer := Ready(hi), channel := [Batch(start, hi)], produced := hi)
  {
    hide InFlight, Consecutive, Recorded, BatchEnd;
    InitInv(start, end);
    p, run := Init(start, end), [];
    p, run := TakeStep(start, end, p, run, CheckRange);
    p, run := TakeStep(start, end, p, run, DownloadOk);
    p, run := TakeStep(start, end, p, run, Send);
    assert [] + [Batch(start, p.produced)] == [Batch(start, p.produced)];
  }

  lemma FailedFirstScan(start: nat, end: nat) returns (p: Pipe, run: seq<Action>)
    requires start < end <= U32_MAX
    ensures CanRun(Init(start, end), run) && p == End(Init(start, end), run)
    ensures FirstScanFails(run)
    ensures Inv(p) && p.consumer == Stopped(RangeError)
    ensures p.end == end && !p.cancel && p.sizes == InitialSizes(start)
    ensures p.channel == [] && p.producer == Ready(BatchEnd(Init(start, end), start))
  {
    hide InFlight, Consecutive, Recorded, BatchEnd;
    p, run := FirstBatchSent(start, end);
    p, run := TakeStep(start, end, p, run, Receive);
    p, run := TakeStep(start, end, p, run, StartScan);
    p, run := TakeStep(start, end, p, run, ScanError);
  }

  lemma TakeStep(start: nat, end: nat, p: Pipe, run: seq<Action>, a: Action)
    returns (p': Pipe, run': seq<Action>)
    requires CanRun(Init(start, end), run) && p == End(Init(start, end), run)
    requires Inv(p) && Enabled(p, a)
    ensures p' == Next(p, a) && run' == run + [a] && Inv(p')
    ensures CanRun(Init(start, end), run') && p' == End(Init(start, end), run')
  {
    StepKeepsInv(p, a);
    p', run' := Next(p, a), run + [a];
    assert CanRun(p, [a]) && End(p, [a]) == p';
    RunsConcatenate(Init(start, end), run, [a]);
  }

  /** How far a batch from `at` goes before any scan has succeeded. */
  function Stride(start: nat, at: nat): nat {
    if 1_710_000 <= start <= 2_050_000 || 1_710_000 <= at <= 2_050_000 then 100 else 250
  }

  lemma FirstBatchEnd(start: nat, end: nat, at: nat)
    requires at < end <= U32_MAX
    ensures var hi := BatchEnd(Init(start, end), at);
            if at + Stride(start, at) < end then hi == at + Stride(start, at) else hi == end
  {
    InitialSizesExactly(start, at);
  }

  /** Messages from `at` on before any scan has succeeded. */
  function FirstMessages(start: nat, end: nat, at: nat): nat
    requires end <= U32_MAX
  {
    MessagesFrom(Init(start, end), at)
  }

  lemma OneBatchLess(start: nat, end: nat, at: nat, n: nat)
    requires end <= U32_MAX && n > 0
    ensures FirstMessages(start, end, at) > n + 1 <==>
              at < end && FirstMessages(start, end, at + Stride(start, at)) > n
  {
    var p := Init(start, end);
    if at < end {
      FirstBatchEnd(start, end, at);
      assert MessagesFrom(p, at) == 1 + MessagesFrom(p, BatchEnd(p, at));
      assert at + Stride(start, at) >= end ==>
        MessagesFrom(p, at + Stride(start, at)) == 1 && MessagesFrom(p, end) == 1;
    }
  }

  lemma MoreThanOne(start: nat, end: nat, at: nat)
    requires end <= U32_MAX
    ensures FirstMessages(start, end, at) > 1 <==> at < end
  {
    var p := Init(start, end);
    if at < end {
      assert MessagesFrom(p, at) == 1 + MessagesFrom(p, BatchEnd(p, at));
    }
  }

  /** The closed form: a failing first scan can block exactly when four batches from
      the start do not reach the end. */
  lemma FirstScanCanBlockBeyondFourBatches(start: nat, end: nat)
    requires start < end <= U32_MAX
    ensures var a := start + Stride(start, start);
            var b := a + Stride(start, a);
            var c := b + Stride(start, b);
            FirstScanCanBlock(start, end) <==> c + Stride(start, c) < end
  {
    hide FirstScanCanBlock, Stride;
    FirstScanCanBlockExactlyWhen(start, end);
    assert FirstScanCanBlock(start, end) <==> FirstMessages(start, end, start) > 5;
    hide FirstMessages;
    var a := start + Stride(start, start);
    var b := a + Stride(start, a);
    var c := b + Stride(start, b);
    OneBatchLess(start, end, start, 4);
    OneBatchLess(start, end, a, 3);
    OneBatchLess(start, end, b, 2);
    OneBatchLess(start, end, c, 1);
    MoreThanOne(start, end, c + Stride(start, c));
  }

  /** So the bound is 1000 heights clear of the sandblasted ones, and 400 from any
      start among them. */
  lemma FailedFirstScanCanBlock(start: nat, end: nat)
    requires start < end <= U32_MAX
    ensures end <= 1_710_000 || start > 2_050_000 ==>
              (FirstScanCanBlock(start, end) <==> end - start > 1000)
    ensures 1_710_000 <= start <= 2_050_000 ==>
              (FirstScanCanBlock(start, end) <==> end - start > 400)
    ensures end - start > 1000 ==> FirstScanCanBlock(start, end)
  {
    FirstScanCanBlockBeyondFourBatches(start, end);
    hide FirstScanCanBlock;
  }

  // ---------------------------------------------------------------------------
  // What is requested
  // ---------------------------------------------------------------------------

  /** The results of the scans that succeeded, in order. */
  function ScanHistory(p: Pipe, run: seq<Action>): seq<ScanResult>
    requires CanRun(p, run)
    decreases |run|
  {
    if run == [] then []
    else
      var rest := ScanHistory(Next(p, run[0]), run[1..]);
      match run[0]
      case ScanOk(secs, scannedBlocks, touchedNotes) =>
        [ScanResult(p.consumer.lo, secs, scannedBlocks, touchedNotes)] + rest
      case _ => rest
  }

  lemma OnlyScansChangeSizes(p: Pipe, a: Action)
    requires Enabled(p, a)
    ensures Next(p, a).sizes
         == match a
            case ScanOk(secs, scannedBlocks, touchedNotes) =>
              Recorded(p.sizes, ScanResult(p.consumer.lo, secs, scannedBlocks, touchedNotes))
            case _ => p.sizes
  {
    hide Recorded, BatchEnd;
  }

  lemma {:induction false} SizesFollowScans(p: Pipe, run: seq<Action>)
    requires CanRun(p, run)
    ensures End(p, run).sizes == AfterHistory(p.sizes, ScanHistory(p, run))
    decreases |run|
  {
    if run != [] {
      assert Enabled(p, run[0]);
      hide Next, Recorded;
      OnlyScansChangeSizes(p, run[0]);
      SizesFollowScans(Next(p, run[0]), run[1..]);
      var rest := ScanHistory(Next(p, run[0]), run[1..]);
      if run[0].ScanOk? {
        assert ScanHistory(p, run)[1..] == rest;
      } else {
        assert ScanHistory(p, run) == rest;
      }
    }
  }

  /** After any run, a download starts exactly when the range is not finished and the
      sync is not cancelled. It takes up where the last batch ended, and asks for as
      much as the controller says after exactly the scans that succeeded, or for 100
      at a sandblasted height, and never beyond the end. */
  lemma RequestsFollowController(start: nat, end: nat, run: seq<Action>)
    requires end <= U32_MAX && CanRun(Init(start, end), run)
    requires End(Init(start, end), run).producer.Ready?
    ensures var p := End(Init(start, end), run);
            var q := Next(p, CheckRange);
            var at := p.produced;
            var sizes := AfterHistory(InitialSizes(start), ScanHistory(Init(start, end), run));
            var size := if 1_710_000 <= at <= 2_050_000 then 100 else sizes.current;
            && p.sizes == sizes
            && (q.producer.Downloading? <==> at < end && !p.cancel)
            && (q.producer.Downloading? ==>
                  q.producer == Downloading(at, if at + size < end then at + size else end))
            && (at >= end ==> q.producer == Sending(RangeComplete))
            && (at < end && p.cancel ==> q.producer == Sending(Cancelled))
  {
    var p := End(Init(start, end), run);
    InitInv(start, end);
    RunKeepsInv(Init(start, end), run);
    EndsKeep(Init(start, end), run);
    SizesFollowScans(Init(start, end), run);
    assert NextDownloadSize(p.sizes, p.produced)
        == if 1_710_000 <= p.produced <= 2_050_000 then 100 else p.sizes.current;
    hide Consecutive, InFlight, CanRun, End, ScanHistory, AfterHistory, InitialSizes, Init;
  }

  // ---------------------------------------------------------------------------
  // Undisturbed and cancelled runs
  // ---------------------------------------------------------------------------

  /** Nothing fails and nobody stops the sync. */
  predicate IsUndisturbed(a: Action) {
    a.CheckRange? || a.DownloadOk? || a.Send? || a.Receive? || a.StartScan? || a.ScanOk?
  }

  predicate IsGood(m: Message) {
    m.Batch? || m.RangeComplete?
  }

  ghost predicate Undisturbed(p: Pipe) {
    && Inv(p) && !p.cancel
    && (forall m | m in p.channel :: IsGood(m))
    && (p.producer.Sending? ==> IsGood(p.producer.msg))
    && (Listening(p) || p.consumer == Stopped(Complete))
  }

  lemma StepKeepsUndisturbed(p: Pipe, a: Action)
    requires Undisturbed(p) && Enabled(p, a) && IsUndisturbed(a)
    ensures Undisturbed(Next(p, a))
  {
    StepKeepsInv(p, a);
    assert a.Receive? ==> p.channel != [] && p.channel[0] in p.channel;
    hide Inv, Recorded, BatchEnd;
  }

  lemma {:induction false} RunKeepsUndisturbed(p: Pipe, run: seq<Action>)
    requires Undisturbed(p) && CanRun(p, run) && forall a | a in run :: IsUndisturbed(a)
    ensures Undisturbed(End(p, run))
    decreases |run|
  {
    hide Undisturbed, Next, Enabled;
    if run != [] {
      assert run[0] in run;
      StepKeepsUndisturbed(p, run[0]);
      RunKeepsUndisturbed(Next(p, run[0]), run[1..]);
    }
  }

  /** A sync that nothing disturbs goes on, in whatever order its tasks take their
      turns, until it has scanned exactly the range and reported it complete. */
  lemma UndisturbedRunsComplete(start: nat, end: nat, run: seq<Action>)
    requires start < end <= U32_MAX && CanRun(Init(start, end), run)
    requires forall a | a in run :: IsUndisturbed(a)
    ensures var p := End(Init(start, end), run);
            || (exists a :: IsUndisturbed(a) && Enabled(p, a))
            || (p.consumer == Stopped(Complete) && Consecutive(p.scans, start, end))
  {
    var p := End(Init(start, end), run);
    InitInv(start, end);
    RunKeepsUndisturbed(Init(start, end), run);
    ScansAreConsecutive(start, end, run);
    hide Consecutive, InFlight, End, CanRun, Init;
    if Listening(p) {
      var a :=
        match p.consumer
        case Caching(_, _) => StartScan
        case Scanning(_, _) => ScanOk(1.0, 0, 0)
        case _ =>
          if p.channel != [] || p.producer.Done? then Receive
          else match p.producer
            case Ready(_) => CheckRange
            case Downloading(_, _) => DownloadOk
            case _ => Send;
      assert IsUndisturbed(a) && Enabled(p, a);
    }
  }

  /** What may go wrong in a run. */
  datatype Troubles = Troubles(reorg: bool, error: bool, cancel: bool)

  predicate IsAllowed(a: Action, t: Troubles) {
    && (a.ScanReorg? ==> t.reorg)
    && (a.DownloadFail? || a.FetchFail? || a.ScanError? ==> t.error)
    && (a.Cancel? ==> t.cancel)
  }

  predicate CanCarry(m: Message, t: Troubles) {
    (m.DownloadError? ==> t.error) && (m.Cancelled? ==> t.cancel)
  }

  /** A pipeline in which nothing else has gone wrong. */
  predicate ShowsOnly(p: Pipe, t: Troubles) {
    && (p.cancel ==> t.cancel)
    && (forall m | m in p.channel :: CanCarry(m, t))
    && (p.producer.Sending? ==> CanCarry(p.producer.msg, t))
    && match p.consumer
       case Stopped(Reorg) => t.reorg
       case Stopped(RangeError) => t.error
       case Stopped(RangeCancelled) => t.cancel
       case _ => true
  }

  lemma StepShowsOnly(p: Pipe, a: Action, t: Troubles)
    requires ShowsOnly(p, t) && Enabled(p, a) && IsAllowed(a, t)
    ensures ShowsOnly(Next(p, a), t)
  {
    assert a.Receive? && p.channel != [] ==> p.channel[0] in p.channel;
    hide Recorded, BatchEnd;
  }

  lemma {:induction false} RunShowsOnly(p: Pipe, run: seq<Action>, t: Troubles)
    requires ShowsOnly(p, t) && CanRun(p, run) && forall a | a in run :: IsAllowed(a, t)
    ensures ShowsOnly(End(p, run), t)
    decreases |run|
  {
    hide ShowsOnly, Next, Enabled, IsAllowed;
    if run != [] {
      assert run[0] in run;
      StepShowsOnly(p, run[0], t);
      RunShowsOnly(Next(p, run[0]), run[1..], t);
    }
  }

  /** The loop stops for a reason that was there: a reorganisation only after a scan
      found one, an error only after a download, a state fetch or a scan failed, and
      a cancellation only after one was asked for. */
  lemma StopsForItsReason(start: nat, end: nat, run: seq<Action>)
    requires CanRun(Init(start, end), run)
    ensures var why := End(Init(start, end), run).consumer;
            && (why == Stopped(Reorg) ==> ScanReorg in run)
            && (why == Stopped(RangeError) ==>
                  DownloadFail in run || FetchFail in run || ScanError in run)
            && (why == Stopped(RangeCancelled) ==> Cancel in run)
  {
    var t := Troubles(ScanReorg in run, DownloadFail in run || FetchFail in run || ScanError in run,
                      Cancel in run);
    assert forall a | a in run :: IsAllowed(a, t);
    RunShowsOnly(Init(start, end), run, t);
    hide End, CanRun;
  }

  /** The scans a cancelled pipeline may still start: the batch being cached. */
  function ScansLeft(p: Pipe): nat {
    if p.consumer.Caching? then 1 else 0
  }

  lemma {:induction false} CancelledStartsAtMostOneScan(p: Pipe, run: seq<Action>)
    requires p.cancel && CanRun(p, run)
    ensures |End(p, run).scans| <= |p.scans| + ScansLeft(p)
    decreases |run|
  {
    if run != [] {
      var q := Next(p, run[0]);
      assert q.cancel && |q.scans| + ScansLeft(q) <= |p.scans| + ScansLeft(p) by {
        hide Recorded, BatchEnd;
      }
      hide Next, Enabled;
      CancelledStartsAtMostOneScan(q, run[1..]);
    }
  }

  lemma {:induction false} RunsConcatenate(p: Pipe, first: seq<Action>, rest: seq<Action>)
    requires CanRun(p, first) && CanRun(End(p, first), rest)
    ensures CanRun(p, first + rest) && End(p, first + rest) == End(End(p, first), rest)
    decreases |first|
  {
    hide Next, Enabled;
    if first == [] {
      assert first + rest == rest;
    } else {
      RunsConcatenate(Next(p, first[0]), first[1..], rest);
      assert (first + rest)[1..] == first[1..] + rest;
    }
  }
}
