/** The characters-per-minute tracker: a bounded history of keystroke
    timestamps (milliseconds), a pending penalty folded into the next
    timestamp, and the verdict whether the typist may progress. */
module Cpm {

  const DefaultMaxWindow: int := 25
  const DefaultMinWindow: int := 15
  const DefaultCpmThreshold: int := 60
  /** Longest gap between two key presses that is recorded as it is. */
  const MaxTime: int := 5000
  const DefaultPenalty: int := 1000
  /** Penalties at or above this are ignored. */
  const MaxPenalty: int := 5000
  /** Milliseconds per minute, the scale of the rate. */
  const MsPerMinute: int := 60000

  function Last(series: seq<int>): int
    requires series != []
  {
    series[|series| - 1]
  }

  /** Time span covered by the history: newest minus oldest timestamp. */
  function Span(series: seq<int>): int
    requires series != []
  {
    Last(series) - series[0]
  }

  /** The value a JavaScript `number` division of the sample count by the
      span, scaled to a minute, produces: NaN on an empty history (both array
      reads are `undefined`), +Infinity on a zero span, a finite (possibly
      negative) rate otherwise. */
  datatype Rate = NotANumber | PositiveInfinity | Finite(perMinute: real)

  function RateOf(series: seq<int>): (r: Rate)
    ensures r == NotANumber <==> series == []
    ensures r == PositiveInfinity <==> series != [] && Span(series) == 0
    ensures r.Finite? ==> r.perMinute * (Span(series) as real) == (|series| * MsPerMinute) as real
  {
    if series == [] then NotANumber
    else if Span(series) == 0 then PositiveInfinity
    else Finite((|series| as real / Span(series) as real) * MsPerMinute as real)
  }

  /** `rate > threshold` on JavaScript numbers: false for NaN, true for
      +Infinity against any integer threshold. */
  predicate Exceeds(rate: Rate, threshold: int) {
    match rate
    case NotANumber => false
    case PositiveInfinity => true
    case Finite(v) => v > threshold as real
  }

  /** A finite rate exceeds the threshold exactly when the cross-multiplied
      integer comparison holds (the order flips for a negative span). */
  lemma ExceedsCrossMultiplied(count: int, span: int, threshold: int)
    requires span != 0
    ensures var rate := Finite((count as real / span as real) * MsPerMinute as real);
      span > 0 ==> (Exceeds(rate, threshold) <==> count * MsPerMinute > threshold * span)
    ensures var rate := Finite((count as real / span as real) * MsPerMinute as real);
      span < 0 ==> (Exceeds(rate, threshold) <==> count * MsPerMinute < threshold * span)
  {
  }

  /** The progression verdict on a history under the given configuration:
      never before `minWindow` samples, then the rate against the threshold. */
  function Progress(series: seq<int>, minWindow: int, cpmThreshold: int): (ok: bool)
    ensures |series| < minWindow ==> !ok
    ensures series == [] ==> !ok
    ensures |series| >= minWindow ==> ok == Exceeds(RateOf(series), cpmThreshold)
  {
    if |series| < minWindow then false else Exceeds(RateOf(series), cpmThreshold)
  }

  /** Once the warm-up gate is passed, the verdict is the integer comparison
      of the sample count per minute against the threshold times the span,
      strict in both directions; a zero span always progresses. */
  lemma ProgressCrossMultiplied(series: seq<int>, minWindow: int, cpmThreshold: int)
    requires series != [] && |series| >= minWindow
    ensures Span(series) == 0 ==> Progress(series, minWindow, cpmThreshold)
    ensures Span(series) > 0 ==>
      (Progress(series, minWindow, cpmThreshold) <==> |series| * MsPerMinute > cpmThreshold * Span(series))
    ensures Span(series) < 0 ==>
      (Progress(series, minWindow, cpmThreshold) <==> |series| * MsPerMinute < cpmThreshold * Span(series))
  {
    if Span(series) != 0 {
      ExceedsCrossMultiplied(|series|, Span(series), cpmThreshold);
    }
  }

  /** The pending penalty after a request to add `amount`. */
  function PenaltyAfter(pending: int, amount: int): (r: int)
    ensures amount < 0 ==> r == pending
    ensures amount >= MaxPenalty ==> r == pending
    ensures 0 <= amount < MaxPenalty ==> r == pending + amount
    ensures pending <= r < pending + MaxPenalty
  {
    if amount < 0 then pending
    else if amount >= MaxPenalty then pending
    else pending + amount
  }

  /** The key-press time after clamping a long idle gap; an empty history
      has no previous time to clamp against. */
  function ClampedTime(series: seq<int>, now: int): int
  {
    if series != [] && now - Last(series) >= MaxTime then Last(series) + MaxTime else now
  }

  /** Clamping never moves a key press later, leaves an empty history's first
      press and every gap shorter than `MaxTime` alone, and caps a longer gap
      at exactly `MaxTime`. */
  lemma ClampedTimeBounds(series: seq<int>, now: int)
    ensures ClampedTime(series, now) <= now
    ensures series == [] ==> ClampedTime(series, now) == now
    ensures series != [] ==> ClampedTime(series, now) - Last(series) <= MaxTime
    ensures series != [] && now - Last(series) < MaxTime ==> ClampedTime(series, now) == now
    ensures series != [] && now - Last(series) >= MaxTime ==> ClampedTime(series, now) - Last(series) == MaxTime
  {
  }

  /** The timestamp recorded for a key press at `now` with `penalty` pending. */
  function Stamp(series: seq<int>, now: int, penalty: int): int
  {
    ClampedTime(series, now) + penalty
  }

  /** A pending penalty shifts the recorded timestamp by exactly its amount,
      relative to the clamped time without penalty; so after a long idle gap
      the recorded gap is exactly `MaxTime` plus the penalty. */
  lemma PenaltyShiftsStamp(series: seq<int>, now: int, penalty: int)
    ensures Stamp(series, now, penalty) == Stamp(series, now, 0) + penalty
    ensures series != [] && now - Last(series) >= MaxTime ==>
      Stamp(series, now, penalty) - Last(series) == MaxTime + penalty
    ensures series != [] ==> Stamp(series, now, penalty) - Last(series) <= MaxTime + penalty
  {
  }

  /** Drops the oldest entry when the history is longer than `maxWindow`. */
  function Slide(series: seq<int>, maxWindow: int): seq<int>
    requires series != []
  {
    if |series| > maxWindow then series[1..] else series
  }

  /** The history after recording a key press at `now`. */
  function Record(series: seq<int>, now: int, penalty: int, maxWindow: int): seq<int>
  {
    Slide(series + [Stamp(series, now, penalty)], maxWindow)
  }

  /** Recording appends the new stamp and drops at most the oldest entry, so
      the history never shrinks and a bound it met before still holds; it is
      empty afterwards only when it was empty and the window is below one. */
  lemma RecordShape(series: seq<int>, now: int, penalty: int, maxWindow: int)
    ensures var r := Record(series, now, penalty, maxWindow);
      (r == [] <==> series == [] && maxWindow < 1)
      && (r != [] ==> Last(r) == Stamp(series, now, penalty))
      && (|series| + 1 <= maxWindow ==> r == series + [Stamp(series, now, penalty)])
      && (|series| + 1 > maxWindow ==> r == (series + [Stamp(series, now, penalty)])[1..])
      && |series| <= |r| <= |series| + 1
      && r == (series + [Stamp(series, now, penalty)])[|series| + 1 - |r|..]
      && (0 <= maxWindow && |series| <= maxWindow ==> |r| <= maxWindow)
  {
  }

  class CPM {
    var timeSeries: seq<int>
    var maxWindow: int
    var minWindow: int
    var cpmThreshold: int
    var penaltyAmount: int

    /** The history respects the configured maximum window. */
    ghost predicate WithinWindow()
      reads this
    {
      0 <= maxWindow && |timeSeries| <= maxWindow
    }

    constructor ()
      ensures timeSeries == [] && penaltyAmount == 0
      ensures maxWindow == DefaultMaxWindow && minWindow == DefaultMinWindow
      ensures cpmThreshold == DefaultCpmThreshold
      ensures WithinWindow() && !ShouldProgress()
    {
      timeSeries := [];
      maxWindow := DefaultMaxWindow;
      minWindow := DefaultMinWindow;
      cpmThreshold := DefaultCpmThreshold;
      penaltyAmount := 0;
    }

    /** Clears the history and restores the default configuration; the
        pending penalty is kept. */
    method Reset()
      modifies this
      ensures timeSeries == [] && penaltyAmount == old(penaltyAmount)
      ensures maxWindow == DefaultMaxWindow && minWindow == DefaultMinWindow
      ensures cpmThreshold == DefaultCpmThreshold
      ensures WithinWindow() && !ShouldProgress()
    {
      timeSeries := [];
      maxWindow := DefaultMaxWindow;
      minWindow := DefaultMinWindow;
      cpmThreshold := DefaultCpmThreshold;
    }

    function GetMaxWindow(): int
      reads this
    {
      maxWindow
    }

    function GetMinWindow(): int
      reads this
    {
      minWindow
    }

    function GetCpmThreshold(): int
      reads this
    {
      cpmThreshold
    }

    /** Stores `maxWindow` unchecked; nothing else changes. */
    method SetMaxWindow(maxWindow: int)
      modifies this`maxWindow
      ensures GetMaxWindow() == maxWindow
    {
      this.maxWindow := maxWindow;
    }

    /** Stores `minWindow` unchecked; nothing else changes. */
    method SetMinWindow(minWindow: int)
      modifies this`minWindow
      ensures GetMinWindow() == minWindow
    {
      this.minWindow := minWindow;
    }

    /** Stores `cpmThreshold` unchecked; nothing else changes. */
    method SetCpmThreshold(cpmThreshold: int)
      modifies this`cpmThreshold
      ensures GetCpmThreshold() == cpmThreshold
    {
      this.cpmThreshold := cpmThreshold;
    }

    /** The current typing rate in characters per minute. */
    function GetCPM(): Rate
      reads this
    {
      RateOf(timeSeries)
    }

    /** Whether the user should progress to the next character. */
    function ShouldProgress(): bool
      reads this
    {
      Progress(timeSeries, minWindow, cpmThreshold)
    }

    /** Adds `penalty` milliseconds to the pending penalty, unless it is
        negative or at least `MaxPenalty`. */
    method Penalize(penalty: int := DefaultPenalty)
      modifies this`penaltyAmount
      ensures penaltyAmount == PenaltyAfter(old(penaltyAmount), penalty)
    {
      if penalty < 0 {
        return;
      }
      if penalty >= MaxPenalty {
        return;
      }
      penaltyAmount := penaltyAmount + penalty;
    }

    /** Records a key press at clock time `now` and returns the verdict on
        the updated history. */
    method AddTime(now: int) returns (progress: bool)
      modifies this`timeSeries, this`penaltyAmount
      ensures timeSeries == Record(old(timeSeries), now, old(penaltyAmount), maxWindow)
      ensures penaltyAmount == 0
      ensures old(WithinWindow()) ==> WithinWindow()
      ensures progress == ShouldProgress()
    {
      var currentTime := now;
      if timeSeries != [] && currentTime - timeSeries[|timeSeries| - 1] >= MaxTime {
        currentTime := timeSeries[|timeSeries| - 1] + MaxTime;
      }

      currentTime := currentTime + penaltyAmount;
      penaltyAmount := 0;

      assert currentTime == Stamp(old(timeSeries), now, old(penaltyAmount));

      timeSeries := timeSeries + [currentTime];
      if |timeSeries| > maxWindow {
        timeSeries := timeSeries[1..];
      }
      RecordShape(old(timeSeries), now, old(penaltyAmount), maxWindow);
      return ShouldProgress();
    }
  }
}
