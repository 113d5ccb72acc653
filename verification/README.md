# Dial view selection and sweep, in Dafny

This project models the state machine inside `DialView`, the Android custom
view of the testArcAnimation app. The view is a dial with N selectable
positions (`SELECTION_COUNT`, 12 in the app). A click moves the target
selection one position forward and recolours the dial. The animator that the
click starts then delivers progress values `val` in [0, 1]. While `val < 1`
each frame moves a red marker and a blue arc part of the way towards the next
position. The frame with `val >= 1` commits: the last selection becomes the
target, the marker stands on it, the arc collapses, and its start angle moves
forward by one slot.

Units. The view keeps the marker and position angles in radians, as
multiples of `mRadian = 2*pi/N`. Here they are reals in *slot units*, so that
one slot is 1.0 and the base rotation `9 * mRadian` is 9.0. No pi and no
trigonometry are needed. The arc's start and sweep are in degrees, the unit
of the arc primitive. Canvas arcs and the cos/sin placement both measure
clockwise from 3 o'clock on screen, so `k` slots are `k * 360/N` degrees
(`DialGeometry.SlotsToDegrees`). The per-slot step of the arc is Java's
`360 / N` with int division, kept as `DialGeometry.SlotDegrees`. It is
truncated when N does not divide 360.

Layout:
- `dial_geometry.dfy`, module `DialGeometry`: the slot width in degrees,
  Java's `%`, the angle of a position (the angle part of
  `computeXYForPosition`), and facts about these.
- `dial_view.dfy`, module `Dial`: the state as a value (`ViewState`). The
  functions `Init`, `Advance` (the click) and `Update` (one animation frame)
  give each event's effect on it. The class `DialView` keeps the same fields
  and updates them in place, and each of its methods is proved equal to the
  matching function. The lemmas state what each event does.
- `dial_runs.dfy`, module `DialRuns`: traces of clicks and frames in any
  order. Every click starts an animator that is never cancelled, so frames of
  several sweeps can interleave. The lemmas here hold for every trace: how far
  the arc's start has moved, where the target is, the state after complete
  sweeps, and whether the arc stays aligned with the marker.

## Model

| member | source | states |
|---|---|---|
| `DialGeometry.SlotDegrees` | testDrawArc/Application/src/main/java/com/example/customfancontroller/DialView.java:200 | `360 / N` is the largest whole number of degrees `d` with `d * N <= 360`, and it is never negative |
| `DialGeometry.JavaRem` | testDrawArc/Application/src/main/java/com/example/customfancontroller/DialView.java:147 | Java's `%` with a positive divisor: for a non-negative dividend it lies in [0, N) and equals the Euclidean remainder; for a negative one it lies in (-N, 0]; in both cases the dividend minus the result is a multiple of N, which fixes Java's value |
| `DialGeometry.PositionZeroIsBase` | testDrawArc/Application/src/main/java/com/example/customfancontroller/DialView.java:339-340 | position 0 sits at the base rotation of 9 slots |
| `DialGeometry.PositionStep` | testDrawArc/Application/src/main/java/com/example/customfancontroller/DialView.java:340 | consecutive positions are exactly one slot (`mRadian`) apart |
| `DialGeometry.PositionFullTurn` | testDrawArc/Application/src/main/java/com/example/customfancontroller/DialView.java:340 | position `pos + N` is position `pos` plus one full turn of N slots |
| `DialGeometry.PositionModTurn` | testDrawArc/Application/src/main/java/com/example/customfancontroller/DialView.java:339-340 | the angle of any integer position equals the angle of that position mod N plus a whole number of turns |
| `DialGeometry.PositionsWithinTurn` | testDrawArc/Application/src/main/java/com/example/customfancontroller/DialView.java:271-272 | the N label positions are distinct and lie within one turn |
| `DialGeometry.FullTurnIsCircle` | testDrawArc/Application/src/main/java/com/example/customfancontroller/DialView.java:42 | N slots are 360 degrees, and N truncated slots `N * (360/N)` make 360 exactly when N divides 360 |
| `DialGeometry.SlotsToDegreesExact` | testDrawArc/Application/src/main/java/com/example/customfancontroller/DialView.java:42 | when N divides 360, j slots of `2*pi/N` radians are exactly `j * (360/N)` degrees |
| `Dial.DialView.constructor` | testDrawArc/Application/src/main/java/com/example/customfancontroller/DialView.java:105-137 | the fields start as `Init(N)`, the invariant holds, and the count is N |
| `Dial.DialView.OnClick` | testDrawArc/Application/src/main/java/com/example/customfancontroller/DialView.java:143-161 | the click listener leaves exactly the state `Advance(N, old state)` and keeps both selections in [0, N) |
| `Dial.DialView.OnAnimationUpdate` | testDrawArc/Application/src/main/java/com/example/customfancontroller/DialView.java:177-211 | the update listener leaves exactly the state `Update(N, old state, val)` and keeps both selections in [0, N) |
| `Dial.DialView.LabelAngles` | testDrawArc/Application/src/main/java/com/example/customfancontroller/DialView.java:269-278 | the draw loop places label `i` at the angle of position `i`, for every `i` in [0, N) |
| `Dial.InitialState` | testDrawArc/Application/src/main/java/com/example/customfancontroller/DialView.java:126-137 | both selections start at 0 and the marker at 9 slots; the arc starts at `9 * (360/N)` (270 for N = 12) with a sweep of 6; the dial is gray |
| `Dial.AdvanceNext` | testDrawArc/Application/src/main/java/com/example/customfancontroller/DialView.java:147 | a click sets the target to `(target + 1) mod N`: one step forward, and from N-1 back to 0; the target stays in [0, N) |
| `Dial.AdvanceKeepsSweep` | testDrawArc/Application/src/main/java/com/example/customfancontroller/DialView.java:143-161 | a click leaves the last selection, the arc's start and sweep, and the marker angle unchanged |
| `Dial.AdvanceColour` | testDrawArc/Application/src/main/java/com/example/customfancontroller/DialView.java:155-159 | after a click the dial is green exactly when the new target is at least 1, and gray exactly when it is 0 |
| `Dial.UpdateInterpolates` | testDrawArc/Application/src/main/java/com/example/customfancontroller/DialView.java:202-205 | a frame with `val < 1` keeps the selections, the arc's start and the colour; the marker is `val` slots past the last committed position; the sweep is `(360/N) * val` |
| `Dial.InterpolationBounds` | testDrawArc/Application/src/main/java/com/example/customfancontroller/DialView.java:204-205 | for `val` in [0, 1) the marker lies between the last committed position and the next one, and the sweep lies in [0, 360/N), or is 0 when N > 360 and the truncated slot is 0 degrees |
| `Dial.InterpolationMonotone` | testDrawArc/Application/src/main/java/com/example/customfancontroller/DialView.java:204-205 | a later frame of the same sweep never moves the marker back or shrinks the arc |
| `Dial.InterpolationIdempotent` | testDrawArc/Application/src/main/java/com/example/customfancontroller/DialView.java:204-205 | repeating a frame with the same `val < 1` changes nothing further |
| `Dial.UpdateCommits` | testDrawArc/Application/src/main/java/com/example/customfancontroller/DialView.java:197-201 | a frame with `val >= 1` sets the last selection to the target and puts the marker on it; the sweep becomes 0 and the arc's start grows by exactly `360/N` (30 for N = 12); the target and colour stay |
| `Dial.CommitTwice` | testDrawArc/Application/src/main/java/com/example/customfancontroller/DialView.java:197-201 | a second committing frame moves the arc's start forward again, so a commit is not idempotent |
| `Dial.UpdateStaysInRange` | testDrawArc/Application/src/main/java/com/example/customfancontroller/DialView.java:197-198 | frames keep both selections in [0, N) |
| `Dial.CommitContinuous` | testDrawArc/Application/src/main/java/com/example/customfancontroller/DialView.java:197-205 | with one click pending, the commit puts the marker where the interpolation was heading, one slot on (up to a full turn when the target wrapped to 0); the arc's end `start + sweep` continues from the interpolated end |
| `Dial.RestartAfterClick` | testDrawArc/Application/src/main/java/com/example/customfancontroller/DialView.java:143-205 | a click in the middle of a sweep keeps the last committed selection, and the new animator's first frame puts the marker back on it, with an empty arc and the same start |
| `Dial.ClickThenFirstFrame` | testDrawArc/Application/src/main/java/com/example/customfancontroller/DialView.java:147-205 | a click followed by its animator's first frame (`val = 0`) advances the target, keeps the last committed selection and the arc's start, puts the marker on the last committed position and empties the arc; the click alone leaves the initial sweep of 6 |
| `DialRuns.RunStaysInRange` | testDrawArc/Application/src/main/java/com/example/customfancontroller/DialView.java:147-198 | every trace of clicks and frames keeps both selections in [0, N) |
| `DialRuns.RunStartAngle` | testDrawArc/Application/src/main/java/com/example/customfancontroller/DialView.java:200 | over any trace, the arc's start grows by exactly `360/N` per committing frame and by nothing else |
| `DialRuns.RunActive` | testDrawArc/Application/src/main/java/com/example/customfancontroller/DialView.java:147 | over any trace, the target is the starting target plus the number of clicks, mod N |
| `DialRuns.StartAngleFromInit` | testDrawArc/Application/src/main/java/com/example/customfancontroller/DialView.java:136-200 | after k commits from the initial state the arc starts at `9*(360/N) + k*(360/N)`, which is `270 + 30*k` for N = 12 |
| `DialRuns.ClicksCycle` | testDrawArc/Application/src/main/java/com/example/customfancontroller/DialView.java:147 | N clicks in a row bring the target back to its starting value and leave the sweep fields unchanged |
| `DialRuns.ClicksKeepSweep` | testDrawArc/Application/src/main/java/com/example/customfancontroller/DialView.java:143-161 | any run of clicks leaves the last selection, the arc and the marker as they were |
| `DialRuns.RoundsSettle` | testDrawArc/Application/src/main/java/com/example/customfancontroller/DialView.java:143-201 | after k complete sweeps (click, then its final frame) from the initial state, both selections are `k mod N`, the marker stands on that position, the arc is empty and it starts at `(9 + k) * (360/N)` |
| `DialRuns.ArcFollowsMarker` | testDrawArc/Application/src/main/java/com/example/customfancontroller/DialView.java:136-200 | when N divides 360, after complete sweeps the arc starts where the marker stands, up to whole turns of 360 degrees; the marker's angle in degrees is `(9 + last) * (360/N)` |
| `DialRuns.FullTurnDrift` | testDrawArc/Application/src/main/java/com/example/customfancontroller/DialView.java:136-200 | after N complete sweeps the marker is back on position 0, and the arc's start has moved `N * (360/N)` degrees: at most 360, and exactly 360 only when N divides 360 |

## Left out

- `GridView.java`: it only draws two fixed lines and holds no state to model.
- The Android view lifecycle: the three constructors are one constructor that
  takes N. `onSizeChanged` is left out, with the float radius
  `min(w, h) / 2 * 0.8`. So is `invalidate`.
- Rendering: the `onDraw` drawing calls, `grawArc`, `Paint`, `Canvas` and
  `RectF` are left out. Of `onDraw` the model keeps only the angles at which
  the label loop places the labels (`LabelAngles`). The indicator position
  that `onDraw` computes from `mActiveSelection` is left out because nothing
  draws it.
- The x/y coordinates of `computeXYForPosition` and `computeXYForAngle`: they
  use floating-point cos/sin. Only the angle formula is modelled.
- `ValueAnimator` timing and its linear interpolator: the animated value is
  the parameter `val` of `OnAnimationUpdate`, and in a trace the `val` of a
  `Frame` event. Traces may interleave the frames of several animators in any
  order. The model does not limit them to the orders a real clock produces.
- Floating point: `startAngle` and `sweepAngle` are Java floats, and
  `animAngle` is a double built from the float `oneSectionRadius`. The model
  keeps `startAngle` as an exact integer. The Java float holds these integer
  sums exactly below 2^24 degrees; rounding above that is not modelled. The
  sweep and the marker angle are exact reals, so float rounding of
  `(360/N) * val` and of `(float)(2*pi/N)` is not modelled.
- `SELECTION_COUNT` is a static field set to 12. The model takes any N > 0 as
  the constructor's argument, and several lemmas state the N = 12 values.
- The `Log` calls, the dead `computeXYForPosition_org`, the commented-out
  code, the unused `endAngle`, and the text and marker paints, whose colours
  never change.
- Each frame carries an absolute `val` (DialView.java:188). There is no
  accumulated progress, no clamp, no idle state and no duration, so a frame
  with `val >= 1` always commits again (`Dial.CommitTwice`).
- Dial.DialView.OnClick: the call `animateArc(1000)` at DialView.java:151 is
  not modelled inside the method. The animator it starts delivers its first
  frame (`val = 0`) while that call runs; in the model that frame is the
  `Frame(0.0)` event that follows the `Click` in a trace, or a call
  `OnAnimationUpdate(0.0)` right after `OnClick` (`Dial.ClickThenFirstFrame`).
