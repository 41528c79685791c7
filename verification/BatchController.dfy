/**
 The adaptive download batch size. Heights and sizes are 32-bit; scan times are
 seconds as `real`.
*/
module BatchController {

  const U32_MAX: nat := 0xffff_ffff
  const BATCH_SIZE: nat := 250
  const BATCH_SIZE_SANDBLASTING: nat := 100
  const ADAPTIVE_BATCH_MIN_SIZE: nat := 125
  const ADAPTIVE_BATCH_MAX_SIZE: nat := 2000
  const ADAPTIVE_BATCH_FAST_SCAN_SECS: real := 0.80
  const ADAPTIVE_BATCH_SLOW_SCAN_SECS: real := 2.00

  function EffectiveBatchSize(height: nat): nat {
    if 1_710_000 <= height <= 2_050_000 then BATCH_SIZE_SANDBLASTING else BATCH_SIZE
  }

  datatype Sizes = Sizes(min: nat, max: nat, current: nat)

  /** A controller is fixed at 100 or ranges over 125 to 2000. */
  predicate Valid(c: Sizes) {
    && (c.min, c.max) in {(100, 100), (125, 2000)}
    && c.min <= c.current <= c.max
  }

  function InitialSizes(rangeStart: nat): (c: Sizes)
    ensures Valid(c)
  {
    var base := EffectiveBatchSize(rangeStart);
    if base == BATCH_SIZE_SANDBLASTING then Sizes(base, base, base)
    else Sizes(ADAPTIVE_BATCH_MIN_SIZE, ADAPTIVE_BATCH_MAX_SIZE, base)
  }

  function Min(a: nat, b: nat): nat {
    if a < b then a else b
  }

  function Max(a: nat, b: nat): nat {
    if a < b then b else a
  }

  function Clamp(n: nat, min: nat, max: nat): nat {
    if n < min then min else if n > max then max else n
  }

  function SaturatingMul(a: nat, b: nat): nat {
    if a * b > U32_MAX then U32_MAX else a * b
  }

  /** Whatever the height, a valid controller asks for 100 to 2000 blocks. */
  function NextDownloadSize(c: Sizes, height: nat): (size: nat)
    ensures Valid(c) ==> 100 <= size <= 2000
  {
    if EffectiveBatchSize(height) == BATCH_SIZE_SANDBLASTING then BATCH_SIZE_SANDBLASTING
    else Clamp(c.current, c.min, c.max)
  }

  datatype ScanResult = ScanResult(start: nat, secs: real, scannedBlocks: nat, touchedNotes: nat)

  /** The controller after a scan: slower scans shrink it by a quarter, fast
      scans that touch no note grow it by half. */
  function Recorded(c: Sizes, r: ScanResult): (c': Sizes)
    ensures Valid(c) ==> Valid(c') && c'.min == c.min && c'.max == c.max
  {
    if r.scannedBlocks == 0
       || EffectiveBatchSize(r.start) == BATCH_SIZE_SANDBLASTING
       || r.secs <= 0.0 then c
    else
      var size :=
        if r.secs >= ADAPTIVE_BATCH_SLOW_SCAN_SECS then SaturatingMul(c.current, 3) / 4
        else if r.secs <= ADAPTIVE_BATCH_FAST_SCAN_SECS && r.touchedNotes == 0 then
          SaturatingMul(c.current, 3) / 2
        else c.current;
      c.(current := Clamp(size, c.min, c.max))
  }

  function AfterHistory(c: Sizes, history: seq<ScanResult>): (c': Sizes)
    ensures Valid(c) ==> Valid(c') && c'.min == c.min && c'.max == c.max
    decreases |history|
  {
    if history == [] then c else AfterHistory(Recorded(c, history[0]), history[1..])
  }

  /** For every history of scan timings, from any range start, every later
      download asks for 100 to 2000 blocks. */
  lemma DownloadSizesBounded(rangeStart: nat, history: seq<ScanResult>, height: nat)
    ensures 100 <= NextDownloadSize(AfterHistory(InitialSizes(rangeStart), history), height) <= 2000
  {
  }

  /** A scan can only move the size the way its timing calls for. */
  lemma ScanMovesSizeOneWay(c: Sizes, r: ScanResult)
    requires Valid(c)
    ensures Recorded(c, r).current > c.current ==>
              r.secs <= ADAPTIVE_BATCH_FAST_SCAN_SECS && r.touchedNotes == 0
    ensures Recorded(c, r).current < c.current ==> r.secs >= ADAPTIVE_BATCH_SLOW_SCAN_SECS
    ensures r.secs >= ADAPTIVE_BATCH_SLOW_SCAN_SECS && r.scannedBlocks > 0
            && EffectiveBatchSize(r.start) == BATCH_SIZE && c.current > c.min ==>
              Recorded(c, r).current < c.current
  {
  }

  /** By how much a scan moves the size: a slow one takes a quarter off, a fast one
      without notes adds a half, both rounded down and kept within the limits; a scan
      that says nothing about speed leaves it. */
  lemma ScanMovesSizeExactly(c: Sizes, r: ScanResult)
    requires Valid(c)
    ensures var size := Recorded(c, r).current;
            var counts := r.scannedBlocks > 0 && r.secs > 0.0 && !(1_710_000 <= r.start <= 2_050_000);
            && (!counts ==> size == c.current)
            && (counts && r.secs >= 2.0 ==>
                  size == c.min || (4 * size <= 3 * c.current < 4 * (size + 1)))
            && (counts && r.secs >= 2.0 && size == c.min ==> 3 * c.current < 4 * (c.min + 1))
            && (counts && r.secs <= 0.8 && r.touchedNotes == 0 ==>
                  size == c.max || (2 * size <= 3 * c.current < 2 * (size + 1)))
            && (counts && r.secs <= 0.8 && r.touchedNotes == 0 && size == c.max ==>
                  2 * c.max <= 3 * c.current)
            && (counts && r.secs < 2.0 && (r.secs > 0.8 || r.touchedNotes > 0) ==>
                  size == c.current)
  {
  }

  /** A range that starts among the sandblasted heights stays at 100 throughout; any
      other starts at 250 and asks for 100 only at such heights. */
  lemma InitialSizesExactly(rangeStart: nat, height: nat)
    ensures var slow := 1_710_000 <= rangeStart <= 2_050_000;
            && NextDownloadSize(InitialSizes(rangeStart), height)
               == (if slow || 1_710_000 <= height <= 2_050_000 then 100 else 250)
            && (forall r: ScanResult :: slow ==>
                  Recorded(InitialSizes(rangeStart), r) == InitialSizes(rangeStart))
  {
  }

  datatype Decision = Grew | Shrunk

  datatype Adjustment =
    | NoAdjustment
    | Adjusted(previous: nat, current: nat, decision: Decision)

  class AdaptiveBatchController {
    var minSize: nat
    var maxSize: nat
    var currentSize: nat

    ghost function Value(): Sizes
      reads this
    {
      Sizes(minSize, maxSize, currentSize)
    }

    constructor (rangeStart: nat)
      ensures Value() == InitialSizes(rangeStart)
    {
      var base := EffectiveBatchSize(rangeStart);
      if base == BATCH_SIZE_SANDBLASTING {
        minSize, maxSize, currentSize := base, base, base;
      } else {
        minSize := Min(ADAPTIVE_BATCH_MIN_SIZE, BATCH_SIZE);
        maxSize := Max(ADAPTIVE_BATCH_MAX_SIZE, BATCH_SIZE);
        currentSize := base;
      }
    }

    method NextDownload(height: nat) returns (size: nat)
      ensures size == NextDownloadSize(Value(), height)
    {
      var base := EffectiveBatchSize(height);
      if base == BATCH_SIZE_SANDBLASTING {
        size := BATCH_SIZE_SANDBLASTING;
      } else {
        size := Clamp(currentSize, minSize, maxSize);
      }
    }

    method RecordScanResult(r: ScanResult) returns (a: Adjustment)
      modifies this`currentSize
      ensures Value() == Recorded(old(Value()), r)
      ensures a == if currentSize == old(currentSize)
                   then NoAdjustment
                   else Adjusted(old(currentSize), currentSize,
                                 if currentSize > old(currentSize) then Grew else Shrunk)
    {
      if r.scannedBlocks == 0 {
        return NoAdjustment;
      }
      if EffectiveBatchSize(r.start) == BATCH_SIZE_SANDBLASTING {
        return NoAdjustment;
      }
      if r.secs <= 0.0 {
        return NoAdjustment;
      }
      var previous := currentSize;
      if r.secs >= ADAPTIVE_BATCH_SLOW_SCAN_SECS {
        currentSize := SaturatingMul(currentSize, 3) / 4;
      } else if r.secs <= ADAPTIVE_BATCH_FAST_SCAN_SECS && r.touchedNotes == 0 {
        currentSize := SaturatingMul(currentSize, 3) / 2;
      }
      currentSize := Clamp(currentSize, minSize, maxSize);
      if currentSize == previous {
        return NoAdjustment;
      }
      return Adjusted(previous, currentSize, if currentSize > previous then Grew else Shrunk);
    }
  }
}
