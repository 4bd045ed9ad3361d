# Typing-speed tracker and FIFO queue

This project models two classes of a typing-practice application.

The first is `CPM`, the characters-per-minute tracker. It keeps a bounded history of keystroke timestamps in milliseconds. It also keeps a pending penalty that is added to the next timestamp. After each keystroke it decides whether the user may progress to the next target character:

- A key press 5000 ms or more after the last recorded entry is recorded exactly 5000 ms after it. The comparison is with the recorded entry, which may already include a penalty, not with the previous real key press.
- The pending penalty is added to the timestamp and then zeroed.
- The new timestamp is appended, and at most the oldest entry is evicted.
- Progress is never allowed while the history holds fewer than `minWindow` samples.
- After that, the rate `length / (last - first) * 60000` must be strictly greater than the threshold.

The second is the generic first-in first-out `Queue<T>`.

Files:

- `wrappers.dfy` (module `Wrappers`): `Option`, which stands for a result that may be `undefined`.
- `queue.dfy` (module `Queues`): the `Queue` class over a `seq<T>` field, plus a client `FirstInFirstOut` that shows the FIFO order.
- `cpm.dfy` (module `Cpm`):
  - the constants;
  - the JavaScript-number outcome of the rate (`Rate`: NaN, +Infinity or a finite real);
  - the pure step functions (`ClampedTime`, `Stamp`, `Slide`, `Record`, `Progress`, `PenaltyAfter`) and the lemmas about them;
  - the `CPM` class, whose methods update its fields and are proved against those functions.
- `cpm_session.dfy` (module `CpmSession`):
  - `Replay`, the history after a whole run of key presses;
  - lemmas about window length, eviction and ordering;
  - the evenly-spaced typing scenarios;
  - `Simulate`, a caller that drives a real `CPM` object and gets exactly the verdicts that `Replay` predicts.

The clock is a parameter: `AddTime(now)` receives the time that the source reads from `Date.now()`.

Where the prose design of the system and the code disagree, the model follows the code:

- The design says the history is always in ascending order. The code does not guarantee this: `PenaltyCanReorder` exhibits a history `[0, 1100, 200]`.
- The design says `history.length <= maxWindow` always holds. The code only keeps a bound that already held. After `setMaxWindow` shrinks the window below the current length, no run of key presses restores it (`ShrunkWindowPersists`).
- The design speaks of validated bounds (`minWindow >= 1`, `maxWindow >= minWindow`) and a positive threshold. The setters store any value. The model takes arbitrary integers and covers the degenerate cases: an empty history gives NaN, a zero span gives +Infinity, a negative span gives a negative rate.

The getters `GetMaxWindow`, `GetMinWindow`, `GetCpmThreshold` and `GetCPM`, the predicate `ShouldProgress` and `Queue.Size` are plain reads. They have no rows of their own. Their meaning is stated by the setters' contracts, by `RateOf`, by `Progress` and by `IsEmpty`. The step functions `Exceeds`, `ClampedTime`, `Stamp`, `Slide`, `Record` and `Replay` carry no postconditions of their own; each row for them names the lemma that states its properties.

## Model

| member | source | states |
|---|---|---|
| `Cpm.RateOf` | src/routes/cpm.ts:89-92 | The rate is NaN exactly when the history is empty. It is +Infinity exactly when the span (newest minus oldest) is zero. Otherwise it is finite, and rate times span equals length times 60000. |
| `Cpm.Exceeds` | src/routes/cpm.ts:100-100 | JavaScript's `rate > threshold`: false for NaN, true for +Infinity, the real comparison for a finite rate. Its meaning is proved in `ExceedsCrossMultiplied`. |
| `Cpm.ExceedsCrossMultiplied` | src/routes/cpm.ts:91-100 | For a non-zero span, the finite rate `count / span * 60000` is strictly above the threshold exactly when `count * 60000 > threshold * span` (span positive) or `count * 60000 < threshold * span` (span negative). |
| `Cpm.Progress` | src/routes/cpm.ts:98-101 | Never progresses with fewer than `minWindow` samples or with an empty history. Otherwise the verdict is the rate compared to the threshold with strict `>`. |
| `Cpm.ProgressCrossMultiplied` | src/routes/cpm.ts:89-101 | Past the warm-up gate, the verdict equals `length * 60000 > threshold * span` for a positive span, with both directions. For a negative span the order flips. A zero span always progresses. |
| `Cpm.PenaltyAfter` | src/routes/cpm.ts:107-114 | A negative penalty leaves the pending amount unchanged, and so does a penalty of 5000 or more. A penalty in `0..4999` adds exactly its amount. The pending amount never decreases and grows by less than 5000 per call. |
| `Cpm.ClampedTime` | src/routes/cpm.ts:121-124 | The clock time after clamping a long idle gap against the last recorded entry; an empty history is never clamped. Its properties are proved in `ClampedTimeBounds`. |
| `Cpm.ClampedTimeBounds` | src/routes/cpm.ts:121-124 | Clamping never moves a key press later. It leaves the first press on an empty history as it is, and any gap under 5000 ms. It caps a longer gap at exactly 5000 ms after the last entry. |
| `Cpm.Stamp` | src/routes/cpm.ts:121-126 | The value appended: the clamped time plus the pending penalty. Its properties are proved in `PenaltyShiftsStamp`. |
| `Cpm.PenaltyShiftsStamp` | src/routes/cpm.ts:121-127 | The recorded stamp is the unpenalised clamped time plus exactly the penalty. After a long gap it lies exactly `5000 + penalty` after the last entry, and never more than that. |
| `Cpm.Slide` | src/routes/cpm.ts:130-132 | The single conditional `shift`: the oldest entry goes when the history is longer than `maxWindow`. Its effect is proved in `RecordShape`. |
| `Cpm.Record` | src/routes/cpm.ts:121-132 | One keystroke's change to the history: push the stamp, then slide. Its shape is proved in `RecordShape`. |
| `Cpm.RecordShape` | src/routes/cpm.ts:129-132 | The history becomes `old + [v]` when `|old| + 1 <= maxWindow`, and `(old + [v])[1..]` otherwise. `v` is the newest entry, only the oldest entry can be dropped, the length never shrinks, and a bound `|old| <= maxWindow` with `maxWindow >= 0` still holds afterwards. |
| `Cpm.CPM.constructor` | src/routes/cpm.ts:19-25 | An empty history, windows 25 and 15, threshold 60, no pending penalty. The window bound holds and the tracker does not progress. |
| `Cpm.CPM.Reset` | src/routes/cpm.ts:30-35 | An empty history and the default windows and threshold. The pending penalty is unchanged. The tracker does not progress. |
| `Cpm.CPM.SetMaxWindow` | src/routes/cpm.ts:41-67 | `GetMaxWindow()` then returns the value set, with no validation. The frame allows only `maxWindow` to change. |
| `Cpm.CPM.SetMinWindow` | src/routes/cpm.ts:49-75 | `GetMinWindow()` then returns the value set, with no validation. Only `minWindow` changes. |
| `Cpm.CPM.SetCpmThreshold` | src/routes/cpm.ts:57-83 | `GetCpmThreshold()` then returns the value set, with no validation. Only `cpmThreshold` changes. |
| `Cpm.CPM.Penalize` | src/routes/cpm.ts:107-114 | The pending penalty becomes `PenaltyAfter(old, penalty)`. The argument defaults to 1000. Only the penalty changes. |
| `Cpm.CPM.AddTime` | src/routes/cpm.ts:120-134 | The history becomes `Record(old history, now, old penalty, maxWindow)`. The pending penalty becomes 0. A window bound that held still holds. The result is `ShouldProgress()` on the updated state. Only the history and the penalty change. |
| `CpmSession.Replay` | src/routes/cpm.ts:120-134 | The history after a run of `addTime` calls, each one a `Record` step; the pending penalty goes to the first. Its properties are proved in the lemmas below. |
| `CpmSession.ReplaySnoc` | src/routes/cpm.ts:120-134 | One more key press after a run is one more recording step. The pending penalty goes only to the first press of the run. |
| `CpmSession.ReplayLength` | src/routes/cpm.ts:129-132 | Starting within the window, the history length after `k` presses is `min(|old| + k, maxWindow)`. So the window bound holds after every run. |
| `CpmSession.ReplayNeverShrinks` | src/routes/cpm.ts:129-132 | The history never gets shorter over a run of key presses. |
| `CpmSession.GateStaysOpen` | src/routes/cpm.ts:98-132 | Once the history holds at least `minWindow` samples, it still does after any run of key presses. So over a run the warm-up gate stays open; only `Reset` or raising `minWindow` with `setMinWindow` closes it. |
| `CpmSession.ShrunkWindowPersists` | src/routes/cpm.ts:130-132 | Eviction uses `if`, not `while`. So after the window is shrunk below the current length, the length stays the same through any run of presses. |
| `CpmSession.PenaltyCanReorder` | src/routes/cpm.ts:122-126 | From `[0]` with 1000 ms pending, presses at 100 and 200 record `[0, 1100, 200]`. The history is not kept in order. |
| `CpmSession.FirstPressAfterResetWaits` | src/routes/cpm.ts:30-35 | After a reset under the default configuration, the next key press never progresses. |
| `CpmSession.SteadyRecordedAsIs` | src/routes/cpm.ts:121-131 | On a fresh tracker, evenly spaced presses less than 5000 ms apart that fit in the window are recorded exactly as they come. |
| `CpmSession.SteadyVerdict` | src/routes/cpm.ts:89-101 | An evenly spaced history of `count >= 2` samples passes the gate exactly when `count * 60000 > threshold * (count - 1) * step`. |
| `CpmSession.FastTypistProgresses` | src/routes/cpm.ts:89-101 | Fifteen presses 500 ms apart under the defaults (about 128.6 CPM) progress. |
| `CpmSession.SlowTypistWaits` | src/routes/cpm.ts:89-101 | Fifteen presses 2000 ms apart under the defaults (about 32.1 CPM) do not progress. |
| `CpmSession.Simulate` | src/routes/cpm.ts:120-134 | A caller that creates a tracker and calls `AddTime` for each clock time gets one verdict per press. Each verdict is the progress verdict on the `Replay` history of the presses so far. |
| `Queues.Queue.constructor` | src/lib/structs/queue.ts:7-9 | The contents equal the given items. With no argument the queue is empty. |
| `Queues.Queue.Enqueue` | src/lib/structs/queue.ts:15-17 | The contents become `old + [item]`, so the size grows by one and existing order is kept. |
| `Queues.Queue.Dequeue` | src/lib/structs/queue.ts:23-25 | On a non-empty queue, returns `Some(old[0])` and leaves `old[1..]`. On an empty queue, returns `None` (`undefined`) and the queue stays empty. |
| `Queues.Queue.Peek` | src/lib/structs/queue.ts:31-33 | Returns `Some` exactly when the queue is non-empty, holding the front item. It reads only and changes nothing. |
| `Queues.Queue.IsEmpty` | src/lib/structs/queue.ts:39-49 | Holds exactly when `Size() == 0`, which is exactly when no items are stored. It reads only. |
| `Queues.FirstInFirstOut` | src/lib/structs/queue.ts:1-25 | Building a queue from `initial`, enqueuing `xs` and dequeuing until empty yields `initial + xs`: items leave in the order they arrived. |

## Left out

- The clock: `Date.now()` is replaced by the `now` parameter of `AddTime`.
- The diagnostic `console.error` for a negative penalty is output only. The model keeps only its outcome, which is that nothing changes.
- `Cpm.RateOf`: the finite rate is an exact real quotient. IEEE-754 rounding of `length / span * 60000` can differ from the exact value when the exact rate equals the threshold, so the strict comparison could flip there. That rounding is not modelled.
- JavaScript numbers are modelled as unbounded integers. Non-integer penalties, thresholds or window sizes, and a threshold of NaN or Infinity, are not modelled.
- `Queue`'s constructor stores the caller's array without copying it, so the two can alias. The model treats the contents as a value.
- The configurable profile (a second default threshold of 75, a configuration record, a flag for `reset` to clear the penalty, an aggregate penalty cap) belongs to a redesign that the code does not implement. The model uses the code's constants and its `reset`, which keeps the penalty.
