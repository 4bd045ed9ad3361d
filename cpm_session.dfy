/** A typing session: the history after a run of key presses, each recorded
    the way `CPM.AddTime` records one, and what such runs can and cannot
    guarantee. */
module CpmSession {

  import opened Cpm

  /** The history after key presses at the clock times `nows`, starting from
      `series` with `penalty` pending; the first press consumes the penalty,
      so later ones see none. */
  function Replay(series: seq<int>, penalty: int, maxWindow: int, nows: seq<int>): seq<int>
    decreases |nows|
  {
    if nows == [] then series
    else Replay(Record(series, nows[0], penalty, maxWindow), 0, maxWindow, nows[1..])
  }

  /** One more key press at the end of a run is one more `Record` step. */
  lemma {:induction false} ReplaySnoc(series: seq<int>, penalty: int, maxWindow: int, nows: seq<int>, now: int)
    ensures Replay(series, penalty, maxWindow, nows + [now])
         == Record(Replay(series, penalty, maxWindow, nows), now, if nows == [] then penalty else 0, maxWindow)
    decreases |nows|
  {
    if nows == [] {
      assert ([] + [now])[1..] == [];
    } else {
      assert (nows + [now])[0] == nows[0];
      assert (nows + [now])[1..] == nows[1..] + [now];
      ReplaySnoc(Record(series, nows[0], penalty, maxWindow), 0, maxWindow, nows[1..], now);
    }
  }

  /** Starting within the window, the history fills up to `maxWindow` and
      stays there: its length is the smaller of the two. */
  lemma {:induction false} ReplayLength(series: seq<int>, penalty: int, maxWindow: int, nows: seq<int>)
    requires |series| <= maxWindow
    ensures |Replay(series, penalty, maxWindow, nows)|
         == if |series| + |nows| <= maxWindow then |series| + |nows| else maxWindow
    decreases |nows|
  {
    if nows != [] {
      RecordShape(series, nows[0], penalty, maxWindow);
      ReplayLength(Record(series, nows[0], penalty, maxWindow), 0, maxWindow, nows[1..]);
    }
  }

  /** The history never gets shorter over a run of key presses. */
  lemma {:induction false} ReplayNeverShrinks(series: seq<int>, penalty: int, maxWindow: int, nows: seq<int>)
    ensures |Replay(series, penalty, maxWindow, nows)| >= |series|
    decreases |nows|
  {
    if nows != [] {
      RecordShape(series, nows[0], penalty, maxWindow);
      ReplayNeverShrinks(Record(series, nows[0], penalty, maxWindow), 0, maxWindow, nows[1..]);
    }
  }

  /** Once `minWindow` samples have been seen, the warm-up gate stays open
      over any run of key presses; only `Reset` or raising `minWindow`
      closes it. */
  lemma GateStaysOpen(series: seq<int>, penalty: int, maxWindow: int, minWindow: int, nows: seq<int>)
    requires |series| >= minWindow
    ensures |Replay(series, penalty, maxWindow, nows)| >= minWindow
  {
    ReplayNeverShrinks(series, penalty, maxWindow, nows);
  }

  /** After the maximum window is set below the current length, no run of key
      presses brings the history back within it: each press appends one
      entry and drops one. */
  lemma {:induction false} ShrunkWindowPersists(series: seq<int>, penalty: int, maxWindow: int, nows: seq<int>)
    requires |series| > maxWindow
    ensures |Replay(series, penalty, maxWindow, nows)| == |series|
    decreases |nows|
  {
    if nows != [] {
      RecordShape(series, nows[0], penalty, maxWindow);
      ShrunkWindowPersists(Record(series, nows[0], penalty, maxWindow), 0, maxWindow, nows[1..]);
    }
  }

  /** The history is not kept in ascending order: with a penalty pending, the
      next stamp lands after a later real key press, which is then recorded
      earlier than its predecessor. */
  lemma PenaltyCanReorder()
    ensures Replay([0], 1000, DefaultMaxWindow, [100, 200]) == [0, 1100, 200]
  {
  }

  /** The first key press after a reset does not progress, whatever the
      penalty carried over and the clock time. */
  lemma FirstPressAfterResetWaits(now: int, penalty: int)
    ensures !Progress(Record([], now, penalty, DefaultMaxWindow), DefaultMinWindow, DefaultCpmThreshold)
  {
    RecordShape([], now, penalty, DefaultMaxWindow);
  }

  /** Key presses at `start`, `start + step`, ... (`count` of them). */
  function Steady(start: int, step: int, count: nat): (s: seq<int>)
    ensures |s| == count
    ensures forall i :: 0 <= i < count ==> s[i] == start + i * step
  {
    if count == 0 then [] else Steady(start, step, count - 1) + [start + (count - 1) * step]
  }

  /** From an empty history with nothing pending, evenly spaced key presses
      closer together than `MaxTime` are recorded exactly as they come while
      the window has room. */
  lemma {:induction false} SteadyRecordedAsIs(start: int, step: int, count: nat, maxWindow: int)
    requires 0 <= step < MaxTime && count <= maxWindow
    ensures Replay([], 0, maxWindow, Steady(start, step, count)) == Steady(start, step, count)
  {
    if count > 0 {
      var prefix := Steady(start, step, count - 1);
      var now := start + (count - 1) * step;
      SteadyRecordedAsIs(start, step, count - 1, maxWindow);
      ReplaySnoc([], 0, maxWindow, prefix, now);
      if prefix != [] {
        assert Last(prefix) == start + (count - 2) * step;
        assert now - Last(prefix) == step by {
          assert (count - 1) * step == (count - 2) * step + step;
        }
      }
      assert Stamp(prefix, now, 0) == now;
      RecordShape(prefix, now, 0, maxWindow);
    }
  }

  /** The verdict on an evenly spaced history of at least `minWindow` (and at
      least two) samples: the count per minute against the threshold times
      `(count - 1) * step`. */
  lemma SteadyVerdict(start: int, step: int, count: nat, minWindow: int, cpmThreshold: int)
    requires step > 0 && count >= 2 && count >= minWindow
    ensures Progress(Steady(start, step, count), minWindow, cpmThreshold)
        <==> count * MsPerMinute > cpmThreshold * ((count - 1) * step)
  {
    var s := Steady(start, step, count);
    assert Span(s) == (count - 1) * step;
    ProgressCrossMultiplied(s, minWindow, cpmThreshold);
  }

  /** Fifteen key presses 500 ms apart under the default configuration
      (about 128.6 characters per minute) progress. */
  lemma FastTypistProgresses(start: int)
    ensures Progress(Replay([], 0, DefaultMaxWindow, Steady(start, 500, 15)), DefaultMinWindow, DefaultCpmThreshold)
  {
    SteadyRecordedAsIs(start, 500, 15, DefaultMaxWindow);
    SteadyVerdict(start, 500, 15, DefaultMinWindow, DefaultCpmThreshold);
  }

  /** Fifteen key presses 2000 ms apart under the default configuration
      (about 32.1 characters per minute) do not progress. */
  lemma SlowTypistWaits(start: int)
    ensures !Progress(Replay([], 0, DefaultMaxWindow, Steady(start, 2000, 15)), DefaultMinWindow, DefaultCpmThreshold)
  {
    SteadyRecordedAsIs(start, 2000, 15, DefaultMaxWindow);
    SteadyVerdict(start, 2000, 15, DefaultMinWindow, DefaultCpmThreshold);
  }

  /** Extending a run of presses from an empty history by the next one. */
  lemma ReplayPrefixStep(nows: seq<int>, i: int, maxWindow: int)
    requires 0 <= i < |nows|
    ensures Replay([], 0, maxWindow, nows[..i + 1]) == Record(Replay([], 0, maxWindow, nows[..i]), nows[i], 0, maxWindow)
  {
    assert nows[..i] + [nows[i]] == nows[..i + 1];
    ReplaySnoc([], 0, maxWindow, nows[..i], nows[i]);
  }

  /** The verdicts a fresh tracker under the default configuration reports,
      one per press of `nows`. */
  function Verdicts(nows: seq<int>): (vs: seq<bool>)
    ensures |vs| == |nows|
    decreases |nows|
  {
    if nows == [] then []
    else Verdicts(nows[..|nows| - 1])
         + [Progress(Replay([], 0, DefaultMaxWindow, nows), DefaultMinWindow, DefaultCpmThreshold)]
  }

  /** The verdict for each press is the verdict on the history of the
      presses up to and including it. */
  lemma {:induction false} VerdictsAt(nows: seq<int>)
    ensures forall k :: 0 <= k < |nows| ==>
      Verdicts(nows)[k] == Progress(Replay([], 0, DefaultMaxWindow, nows[..k + 1]), DefaultMinWindow, DefaultCpmThreshold)
    decreases |nows|
  {
    if nows != [] {
      var init := nows[..|nows| - 1];
      VerdictsAt(init);
      forall k | 0 <= k < |nows|
        ensures Verdicts(nows)[k] == Progress(Replay([], 0, DefaultMaxWindow, nows[..k + 1]), DefaultMinWindow, DefaultCpmThreshold)
      {
        if k < |init| {
          assert init[..k + 1] == nows[..k + 1];
        } else {
          assert nows[..k + 1] == nows;
        }
      }
    }
  }

  /** A caller that creates a tracker and reports a key press at each of the
      times `nows` receives, for every press, the verdict on the history
      `Replay` predicts for the presses so far. */
  method Simulate(nows: seq<int>) returns (verdicts: seq<bool>)
    ensures |verdicts| == |nows|
    ensures forall i :: 0 <= i < |nows| ==>
      verdicts[i] == Progress(Replay([], 0, DefaultMaxWindow, nows[..i + 1]), DefaultMinWindow, DefaultCpmThreshold)
  {
    var tracker := new CPM();
    verdicts := [];
    var i := 0;
    while i < |nows|
      invariant 0 <= i <= |nows|
      invariant tracker.timeSeries == Replay([], 0, DefaultMaxWindow, nows[..i])
      invariant tracker.penaltyAmount == 0 && tracker.maxWindow == DefaultMaxWindow
      invariant tracker.minWindow == DefaultMinWindow && tracker.cpmThreshold == DefaultCpmThreshold
      invariant verdicts == Verdicts(nows[..i])
    {
      ReplayPrefixStep(nows, i, DefaultMaxWindow);
      var progress := tracker.AddTime(nows[i]);
      assert nows[..i + 1][..i] == nows[..i];
      verdicts := verdicts + [progress];
      i := i + 1;
    }
    assert nows[..i] == nows;
    VerdictsAt(nows);
  }
}
