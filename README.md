# CircleProgress: the animation engine of a breathing-dots progress view

`CircleProgress` is an Android `View` that draws fifteen coloured dots on a
ring. The dots collapse through the centre one after another and reappear on
the far side, and the whole frame turns slowly so that the cycle loops without
a jump. This project models the engine under the drawing calls and proves
properties of it:

- **The playback clock.** The fields `mStartTime`, `mPlayTime` and
  `mStartAnim` are driven by `startAnim`, `stopAnim`, `reset`, `setRadius`
  and `getFactor`. Integer milliseconds are modelled as `int`, and each
  reading of the animation clock is a `now` parameter.
- **The cycle factor.** The play time over the duration, wrapped by Java's
  float `% 1f`.
- **The per-dot factor of `getItemFactor`.** It staggers each dot by
  `0.66/15·i` of a cycle, compresses its move into a third of a cycle, and
  clamps the result to [0, 1] before handing it to the interpolator. The
  interpolator is a function parameter.
- **`calPoints`.** It fills the 15-slot `mArcPoint` array: an integer ring
  radius `(int)(mViewSize/3 * factor)`, a dot radius `radius/12`, and colour
  `COLORS[i % 3]` for slot i.
- **The draw loop of `onDraw`.** It moves each dot to `p − 2·p·itemFactor`
  inside a frame rotated by `36·factor` degrees.

Modules, one per part of the source file:

- `JavaArith` covers Java's truncating `/` and `%`, the `(int)` cast and
  float `% 1f`.
- `Layout` covers the ring and its colours.
- `Motion` covers the factor, the stagger, the displacement and the rotation.
- `CircleProgressView` holds the class `CircleProgress`, with the clock
  fields, the layout sizes and the `mArcPoint` array as an
  `array<Option<ArcPoint>>`. A slot is `None` until it is first laid out,
  where the source has `null`.
- `Playback` holds call sequences a host makes, with what the contracts let
  it conclude.

The model follows the source's behaviour exactly, including these points
where the engine does not do what one might expect:

- `setRadius` does not restart the cycle from factor 0. It resumes at
  `mPlayTime % mDuration`, so the new layout is drawn at the old phase
  (`Playback.SetRadiusKeepsPhase`).
- The stored play time is wrapped modulo the duration on every `startAnim`,
  so it does not grow without bound across pauses.
- `stopAnim` only clears the flag. The frozen play time is the one the last
  `getFactor` wrote (the last frame drawn), not the time of the stop. For
  the same reason, calling `startAnim` while already playing takes the
  clock back to the last drawn phase.
- At 600 ms into a 3600 ms cycle, dot 0 is half-way through its window, but
  dots 1 to 3 are also moving. Only dots 4 to 14 are still at rest
  (`Motion.SixHundredMilliseconds`).

Java's `%` on `long` truncates toward zero, and so does the float `%`. Both
are written out (`JavaArith.Rem`, `JavaArith.FracPart`), so the clock needs
no "monotonic now" precondition. Phase preservation (`Motion.FactorOfRem`)
holds for negative play times as well. For a non-negative play time the
factor is in [0, 1); for a negative one it is in (−1, 0].

## Model

| member | source | states |
|---|---|---|
| `JavaArith.Div` | app/src/main/java/me/fichardu/circleprogress/CircleProgress.java:113-114 | Java integer division by a positive divisor is rounded toward zero: for a ≥ 0, q·b ≤ a < q·b + b; for a ≤ 0, q·b − b < a ≤ q·b ≤ 0 |
| `JavaArith.Rem` | app/src/main/java/me/fichardu/circleprogress/CircleProgress.java:155 | `mPlayTime % mDuration` lies in [0, b) for a non-negative play time and in (−b, 0] for a negative one, and differs from the play time by a multiple of the duration |
| `JavaArith.RemIdempotent` | app/src/main/java/me/fichardu/circleprogress/CircleProgress.java:155 | reducing an already reduced play time again changes nothing: a second `startAnim` leaves the stored play time as the first one left it |
| `JavaArith.Trunc` | app/src/main/java/me/fichardu/circleprogress/CircleProgress.java:113 | the `(int)` cast rounds toward zero: n ≤ x < n + 1 for x ≥ 0, n − 1 < x ≤ n for x ≤ 0 |
| `JavaArith.FracPart` | app/src/main/java/me/fichardu/circleprogress/CircleProgress.java:134 | `x % 1f` is in [0, 1) for x ≥ 0 and in (−1, 0] for x ≤ 0, and differs from x by an integer |
| `Layout.LayoutRadius` | app/src/main/java/me/fichardu/circleprogress/CircleProgress.java:113 | the ring radius is the truncation of (viewSize/3, in integer division)·factor: it is `viewSize/3` at factor 1, and for a size ≥ 0 and factor in [0, 1] it satisfies 0 ≤ 3·radius ≤ viewSize |
| `Layout.PointRadius` | app/src/main/java/me/fichardu/circleprogress/CircleProgress.java:114 | the dot radius is the ring radius divided by 12 in Java division: 0 ≤ 12·r ≤ radius < 12·r + 12 for a non-negative radius |
| `Layout.ColorIndex` | app/src/main/java/me/fichardu/circleprogress/CircleProgress.java:120 | slot i takes palette entry i % COLOR_NUM, always a valid index into the three colours |
| `Layout.RestPoint` | app/src/main/java/me/fichardu/circleprogress/CircleProgress.java:117-121 | slot i's rest dot takes colour `COLORS[i % 3]`; at ring radius 0 it is the centre; slot 0, whose direction is straight up, sits at (0, −radius) |
| `Layout.RestPointOnRing` | app/src/main/java/me/fichardu/circleprogress/CircleProgress.java:117-118 | when a slot's direction is a unit vector, its laid-out dot lies at distance `radius` from the centre |
| `Layout.NeighboursDiffer` | app/src/main/java/me/fichardu/circleprogress/CircleProgress.java:116-122 | adjacent slots never share a colour, including slot 14 and slot 0 where the ring closes |
| `Layout.CountColorInTriples` | app/src/main/java/me/fichardu/circleprogress/CircleProgress.java:120 | each palette entry is taken by exactly one slot in every run of three consecutive slots (by induction on the number of runs) |
| `Layout.EachColorFiveTimes` | app/src/main/java/me/fichardu/circleprogress/CircleProgress.java:116-122 | each of the three colours appears on exactly 5 of the 15 dots |
| `Motion.Factor` | app/src/main/java/me/fichardu/circleprogress/CircleProgress.java:133-134 | the factor for a non-negative play time is in [0, 1) (in (−1, 0] for a negative one), and within the first cycle it equals playTime / duration |
| `Motion.FactorOfRem` | app/src/main/java/me/fichardu/circleprogress/CircleProgress.java:154-156 | reducing the play time by Java's `%` leaves the factor unchanged: startAnim keeps the phase |
| `Motion.FactorPeriodic` | app/src/main/java/me/fichardu/circleprogress/CircleProgress.java:133-134 | shifting a non-negative play time by whole cycles (staying non-negative) gives the same factor |
| `Motion.Rotation` | app/src/main/java/me/fichardu/circleprogress/CircleProgress.java:89 | for a factor in [0, 1) the frame rotation is in [0, 36) degrees |
| `Motion.Stagger` | app/src/main/java/me/fichardu/circleprogress/CircleProgress.java:145 | dot i waits i fifteenths of the 0.66 span (wait·15 = 0.66·i), so every one of the 15 dots starts within [0, 0.66) of the cycle |
| `Motion.ClampedItemFactor` | app/src/main/java/me/fichardu/circleprogress/CircleProgress.java:145-150 | the clamped factor of dot i is in [0, 1]; it is 0 when factor ≤ 0.66/15·i, 1 when factor ≥ 0.66/15·i + 1/3, and strictly between those bounds it equals (factor − 0.66/15·i)·3, strictly inside (0, 1) |
| `Motion.ItemFactor` | app/src/main/java/me/fichardu/circleprogress/CircleProgress.java:137-152 | the eased factor is the interpolator's value at 0 before dot i's window opens and its value at 1 once the window has closed |
| `Motion.ItemFactorOutsideWindow` | app/src/main/java/me/fichardu/circleprogress/CircleProgress.java:145-151 | with an interpolator fixing 0 and 1, the eased factor is 0 before dot i's window and 1 after it |
| `Motion.ItemFactorBounded` | app/src/main/java/me/fichardu/circleprogress/CircleProgress.java:145-151 | with an interpolator mapping [0, 1] into [0, 1], the eased factor is in [0, 1] for every cycle factor |
| `Motion.ClampedItemFactorMonotone` | app/src/main/java/me/fichardu/circleprogress/CircleProgress.java:145-150 | a dot's clamped factor never decreases as the cycle factor grows |
| `Motion.ClampedItemFactorTrails` | app/src/main/java/me/fichardu/circleprogress/CircleProgress.java:145 | dot i + 1 is never further along than dot i at the same instant |
| `Motion.ItemFactorTrails` | app/src/main/java/me/fichardu/circleprogress/CircleProgress.java:145-151 | with a monotone interpolator, the eased factors keep that order too |
| `Motion.AllDotsAcrossBeforeWrap` | app/src/main/java/me/fichardu/circleprogress/CircleProgress.java:145-150 | the last dot's window closes before the cycle ends (0.66/15·14 + 1/3 < 1); from then on every dot is fully across, and at factor 0 every dot is at rest |
| `Motion.Displace` | app/src/main/java/me/fichardu/circleprogress/CircleProgress.java:100-101 | a coordinate is unchanged at item factor 0, negated at 1, and 0 (the centre) at 1/2 |
| `Motion.DrawnCircle` | app/src/main/java/me/fichardu/circleprogress/CircleProgress.java:98-102 | the painted circle has the dot's colour and `mPointRadius`; it is at the rest point at item factor 0 and at the mirror point (−x, −y) at item factor 1 |
| `Motion.DisplaceAlongDiameter` | app/src/main/java/me/fichardu/circleprogress/CircleProgress.java:100-101 | the drawn point's distance from the centre is \|1 − 2·itemFactor\| times the rest distance, so for item factors in [0, 1] it never leaves the ring |
| `Motion.RotatedMirrorMatchesColor` | app/src/main/java/me/fichardu/circleprogress/CircleProgress.java:89-93 | slot i's mirror angle, turned 36° either way, is exactly the angle of slot i + 6 or slot i + 9 (mod 15), and both have slot i's colour, so the last frame of a cycle matches the first |
| `Motion.SixHundredMilliseconds` | app/src/main/java/me/fichardu/circleprogress/CircleProgress.java:133-150 | at 600 ms of a 3600 ms cycle the factor is 1/6: dot 0 is at 0.5, dots 1 to 3 are strictly between 0 and 1, and dots 4 to 14 are at 0 |
| `CircleProgressView.CircleProgress.constructor` | app/src/main/java/me/fichardu/circleprogress/CircleProgress.java:51-65 | `init` stores the three colours, allocates all 15 slots empty, leaves the clock stopped at play time 0, and sets the duration to 3600 |
| `CircleProgressView.CircleProgress.WithDefaultColors` | app/src/main/java/me/fichardu/circleprogress/CircleProgress.java:50-63 | with no colour attributes, `init` takes the default palette RED, YELLOW, BLUE; otherwise as `init` above |
| `CircleProgressView.CircleProgress.OnMeasure` | app/src/main/java/me/fichardu/circleprogress/CircleProgress.java:72-76 | the view size is the smaller of width and height, and the layout is rebuilt at factor 1 |
| `CircleProgressView.CircleProgress.CalPoints` | app/src/main/java/me/fichardu/circleprogress/CircleProgress.java:112-123 | every one of the 15 slots is written; slot i holds radius·direction(i) with colour `COLORS[i % 3]`; `mPointRadius` is `LayoutRadius(viewSize, factor) / 12`; the clock is untouched |
| `CircleProgressView.CircleProgress.GetFactor` | app/src/main/java/me/fichardu/circleprogress/CircleProgress.java:129-135 | while playing, the play time becomes now − start time; while stopped, nothing is written. The result is the factor of the new play time |
| `CircleProgressView.CircleProgress.DrawDots` | app/src/main/java/me/fichardu/circleprogress/CircleProgress.java:96-103 | the draw loop succeeds exactly when every slot is laid out; circle i is then slot i's dot displaced by its eased item factor, with the dot radius and colour |
| `CircleProgressView.CircleProgress.OnDraw` | app/src/main/java/me/fichardu/circleprogress/CircleProgress.java:80-110 | the play time is updated as by `getFactor`; the frame is rotated by 36·factor and holds the displaced circles; another frame is requested exactly when playing; an unlaid slot gives no frame |
| `CircleProgressView.CircleProgress.StartAnim` | app/src/main/java/me/fichardu/circleprogress/CircleProgress.java:154-157 | afterwards the clock is playing, the play time is `old(mPlayTime) % mDuration`, and the start time is now minus that |
| `CircleProgressView.CircleProgress.StopAnim` | app/src/main/java/me/fichardu/circleprogress/CircleProgress.java:168-170 | only the playing flag changes, and it is cleared |
| `CircleProgressView.CircleProgress.Reset` | app/src/main/java/me/fichardu/circleprogress/CircleProgress.java:161-165 | the clock is stopped at play time 0; the start time and the layout are untouched |
| `CircleProgressView.CircleProgress.SetInterpolator` | app/src/main/java/me/fichardu/circleprogress/CircleProgress.java:172-174 | only the interpolator changes |
| `CircleProgressView.CircleProgress.SetDuration` | app/src/main/java/me/fichardu/circleprogress/CircleProgress.java:176-178 | only the duration changes, to the given positive value |
| `CircleProgressView.CircleProgress.SetRadius` | app/src/main/java/me/fichardu/circleprogress/CircleProgress.java:180-184 | the layout is rebuilt at the given factor and the clock plays again, from `old(mPlayTime) % mDuration` rather than 0 |
| `Playback.StartKeepsPhase` | app/src/main/java/me/fichardu/circleprogress/CircleProgress.java:154-157 | `startAnim(now)` followed by `getFactor` at the same now returns the factor of the play time from before the start; only the three clock fields may change |
| `Playback.PauseResumeKeepsPhase` | app/src/main/java/me/fichardu/circleprogress/CircleProgress.java:129-170 | a frame while playing, a pause of any length, and a resume give two frames with the same factor |
| `Playback.StoppedClockIsFrozen` | app/src/main/java/me/fichardu/circleprogress/CircleProgress.java:129-135 | while stopped, `getFactor` writes nothing and returns the same value at every now |
| `Playback.ResetShowsStart` | app/src/main/java/me/fichardu/circleprogress/CircleProgress.java:161-165 | after `reset`, the next frame's factor is 0 |
| `Playback.SetRadiusKeepsPhase` | app/src/main/java/me/fichardu/circleprogress/CircleProgress.java:180-184 | after `setRadius(f)`, a frame at the same instant shows the new layout at the old phase; the duration and the view size are untouched |

## Left out

- Android plumbing is not modelled: the three constructors, `TypedArray`
  attribute parsing (the colours are constructor arguments, or the default
  palette for `WithDefaultColors`), `Paint`, the
  `getDefaultSize` measurement (`OnMeasure` takes the resolved width and
  height), `mCenter` and `canvas.translate`, and the canvas calls `save`,
  `rotate`, `drawCircle` and `restore`. The rotation and the circles are
  returned as a `Frame` instead.
- `postInvalidate` and the self-rescheduling redraw loop are host frame
  scheduling. `OnDraw` returns `redraw`, true exactly while playing;
  `startAnim` and `reset` also request a frame, which is not modelled.
- `Math.sin` and `Math.cos` in `calPoints` are not modelled. The directions
  (−sin θ, −cos θ) of the 15 slots are the constructor input `ring`. The
  claim that all rest positions sum to the centre depends on the trigonometry
  and is not stated.
- Float rounding is not modelled. `factor`, the division by `mDuration`,
  `% 1f`, `0.66f / 15 * i` and the `(float)` casts use exact `real`
  arithmetic.
- The `(int)` cast is modelled as plain truncation. Its saturation at the
  `int` range and its NaN case are not modelled.
- Integer widths are not modelled: times (`long`) and sizes (`int`) are
  unbounded integers, so overflow is not covered.
- `EaseInOutCubicInterpolator` is not part of this model (its source is not
  available). The interpolator is an arbitrary `real -> real` function. The
  lemmas that need an easing contract state it as a precondition: endpoints
  fixed, maps [0, 1] into [0, 1], or monotone.
- CircleProgressView.CircleProgress.SetDuration: requires a positive
  duration. With `setDuration(0)` the source divides by zero in `getFactor`
  and takes `% 0` in `startAnim`; negative durations are not modelled either.
- Motion.RotatedMirrorMatchesColor: works on whole-degree slot angles. It
  does not model the canvas rotation sense; it covers both senses (a 36°
  turn either way) rather than picking Android's.
