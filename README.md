# PerfectCircle: the circle-tracing session, in Dafny

The game screen asks the player to trace a circle around a dot. The model covers
the logic of `ViewController` that turns a pan gesture into a score. It has
three parts:

- `Scoring` (scoring.dfy) holds the two scoring rules. `CircleQuality`
  compares the bounding-box widths of the drawn shape and of the perfect circle
  as perimeters (width times pi), and clamps the result below at 0.
  `ColorPercentage` compares one sample's distance to the dot with the target
  radius.
- `Colors` (colors.dfy) holds the four reference colours, `UIColor.interpolate`
  as a channel-wise linear blend on RGBA reals, and the band selection of
  `color(forPercentage:)` as a band plus a blend fraction (`ShadeFor`), with
  the resulting colour (`Color`).
- `Tracing` (tracing.dfy) holds the session. The fields that `handlePanGesture`
  updates are the last point, the perfect-circle radius, the combined path,
  the highest quality and the one-shot timer, which is modelled as an armed
  flag. They form the value `State`. `Step` gives the effect of each gesture
  phase (began, changed, ended) on them, and `Run` gives the effect of a
  sequence of phases. The class `CircleSession` has these fields and one
  method per phase. Each method's contract states the new fields and ties
  them to `Step`.

Every oval appended to the combined path is centred on the dot, which does not
move. The path is therefore modelled as the sequence of its ovals' radii, and
its bounding-box width is twice the largest of them (`MaxRadius`). The
finger's distance to the dot (`CGPoint.distance`) is passed in as a
non-negative real.

Three behaviours of the code are easy to misread; the model keeps them as
written:

- The highest quality is not reset when a new gesture begins
  (ViewController.swift:140-155 never writes it; 190-192 only raise it). It is
  the best quality since the screen was loaded (`RunHighestIsBest`).
- "Too close!" is only a flag (ViewController.swift:171-173): the alert is
  shown, but the sample is still processed in full. The `Changed` method
  returns the condition as a flag.
- The blend fraction of the lowest colour band, `percentage / 80`, is not
  clamped (ViewController.swift:236).

## Model

| member | source | states |
|---|---|---|
| `Scoring.CircleQuality` | PerfectCircleGame/ViewController.swift:207-220 | the quality lies in [0, 1] and is 1 exactly when the user width equals the expected width |
| `Scoring.QualityFromWidths` | PerfectCircleGame/ViewController.swift:211-214 | pi cancels: the quality is max(1 - \|u - e\| / e, 0) on the bare widths |
| `Scoring.QualityMonotone` | PerfectCircleGame/ViewController.swift:214-217 | a width closer to the expected width never scores lower |
| `Scoring.QualityZeroIff` | PerfectCircleGame/ViewController.swift:214-217 | the clamp at 0 is reached exactly when the width is 0 or at least twice the expected width |
| `Scoring.ColorPercentage` | PerfectCircleGame/ViewController.swift:175-176 | the colour percentage is at most 100, and is 100 exactly when the sample lies on the target radius |
| `Scoring.ColorPercentageNegativeIff` | PerfectCircleGame/ViewController.swift:175-176 | it is not clamped: it is negative exactly when the sample is more than twice the radius from the dot |
| `Scoring.SingleOvalQualityIsClampedColorPercentage` | PerfectCircleGame/ViewController.swift:175-189 | for a path of one oval, quality in percent equals the colour percentage clamped at 0 |
| `Colors.Interpolate` | PerfectCircleGame/ViewController.swift:261-274 | fraction 0 gives `from`, fraction 1 gives `to`, and a fraction in [0, 1] keeps every channel between the two colours |
| `Colors.InterpolateReversed` | PerfectCircleGame/ViewController.swift:268-271 | blending from `from` to `to` by p equals blending from `to` to `from` by 1 - p |
| `Colors.ShadeFor` | PerfectCircleGame/ViewController.swift:229-237 | the four bands are disjoint and exhaustive (>= 95, [90, 95), [80, 90), < 80); the middle fractions lie in [0, 1); the lowest is below 1 and negative exactly for a negative percentage |
| `Colors.ShadeForThenUnshade` | PerfectCircleGame/ViewController.swift:231-237 | below 95 the band and fraction determine the percentage |
| `Colors.UnshadeThenShadeFor` | PerfectCircleGame/ViewController.swift:229-237 | every band and fraction the selection can produce is produced by the percentage it stands for |
| `Colors.Color` | PerfectCircleGame/ViewController.swift:223-238 | 95 and above is pure green; in [90, 95) every channel lies between green and yellow, in [80, 90) between yellow and orange, in [0, 80) between orange and red; every colour has blue 0 and alpha 1 |
| `Colors.ColorAsWrittenRunsBackwards` | PerfectCircleGame/ViewController.swift:229-237 | as written, 90 is green and 94 is redder than 90; the colour jumps at 95, 90 and 80; at -80 the green channel exceeds 1 |
| `Colors.IntendedColor` | PerfectCircleGame/ViewController.swift:223-238 | corrected colour: channels in [0, 1]; green at 95 and above, yellow at 90, orange at 80, red at 0 and below |
| `Colors.IntendedRedChannel` | PerfectCircleGame/ViewController.swift:224-236 | the corrected red channel is (95 - p) / 5 clamped to [0, 1] |
| `Colors.IntendedGreenChannel` | PerfectCircleGame/ViewController.swift:224-236 | the corrected green channel, band by band, in closed form |
| `Colors.IntendedColorGradient` | PerfectCircleGame/ViewController.swift:229-237 | corrected colour: as the percentage rises, red never rises and green never falls, each changing by at most 1/5 per point, so there is no jump at a band limit |
| `Tracing.MaxRadius` | PerfectCircleGame/ViewController.swift:183-187 | the largest oval radius: at least every radius, one of them, 0 for an empty path |
| `Tracing.MaxRadiusAppend` | PerfectCircleGame/ViewController.swift:187 | appending an oval gives the maximum of the old largest radius and the new one |
| `Tracing.MaxRadiusExtends` | PerfectCircleGame/ViewController.swift:187 | a path that extends another is at least as wide |
| `Tracing.SampleQuality` | PerfectCircleGame/ViewController.swift:183-189 | the quality in percent lies in [0, 100] and is 100 exactly when the widest oval has the target radius |
| `Tracing.Respond` | PerfectCircleGame/ViewController.swift:169-189 | a changed sample reports the too-close flag exactly when the distance is below 35; quality in [0, 100], 100 exactly when the widest oval including this one has the target radius; colour percentage at most 100, 100 exactly on the radius |
| `Tracing.Step` | PerfectCircleGame/ViewController.swift:136-203 | every phase keeps the fields well formed and never lowers the highest quality |
| `Tracing.Run` | PerfectCircleGame/ViewController.swift:136-203 | any admissible sequence of phases keeps the fields well formed |
| `Tracing.Best` | PerfectCircleGame/ViewController.swift:190-192 | the running maximum is at least its start and every quality, and is one of them |
| `Tracing.RunHighestIsBest` | PerfectCircleGame/ViewController.swift:189-192 | after any sequence of gestures the highest quality is the maximum of its old value and every quality reported in between; no began phase resets it |
| `Tracing.HighestNeverDecreases` | PerfectCircleGame/ViewController.swift:140-192 | the highest quality after any prefix of a sequence of phases is at most its value after the whole sequence |
| `Tracing.PathGrowsWithinGesture` | PerfectCircleGame/ViewController.swift:149-187 | with no began phase, the radius stays fixed, the old path is a prefix of the new one, and its widest oval does not shrink |
| `Tracing.PerfectCircleScoresFull` | PerfectCircleGame/ViewController.swift:169-189 | while every oval lies on the target radius, a sample on it scores quality 100 and colour percentage 100 |
| `Tracing.CircleSession.constructor` | PerfectCircleGame/ViewController.swift:55-61 | the fields start at the origin point, radius 0, an empty path, highest quality 0 and no timer |
| `Tracing.CircleSession.Began` | PerfectCircleGame/ViewController.swift:140-155 | the timer is armed, the radius is the start distance, the path is emptied, the last point is the start point, and the highest quality is kept |
| `Tracing.CircleSession.Changed` | PerfectCircleGame/ViewController.swift:156-194 | the last point moves and the sample's oval is appended whether or not it is too close; the highest quality becomes the maximum of its old value and the sample's quality; the radius and timer are kept; it returns the quality, the colour percentage and the too-close flag |
| `Tracing.CircleSession.Ended` | PerfectCircleGame/ViewController.swift:195-199 | the timer is disarmed, the highest quality is returned, and the radius, path, last point and highest quality are unchanged |

## Left out

- View construction, SnapKit layout, labels, the reset button and `resetAction`. These are UI only. `resetAction` writes no modelled field, so the highest quality and the path survive it.
- Stroke drawing with `CAShapeLayer` and the removal of sublayers. These are rendering side effects. The stroke colour rule is modelled (`Colors.Color`), but `Changed` does not return the colour.
- The alert and its Restart handler. They are UI. "Too close!" is the returned flag `tooClose`.
- The timer firing "Too slow!" after 6.0 seconds. It runs asynchronously, alongside the gesture. Only whether a timer is armed is modelled, so a timer that has fired still reads as armed until the gesture ends or a new one begins.
- `hypot` and `CGPoint.distance`. These are library numerics. Distances are inputs, taken to be non-negative.
- The centre point that is re-read from the dot on every event. The dot never moves, so all ovals are taken to be concentric.
- `CGPath` bounding-box computation. It is replaced by twice the largest oval radius.
- Floating-point rounding, NaN and infinity. Reals are used throughout.
- A start exactly on the dot (radius 0). `Changed`, `Respond` and `SampleQuality` require a positive radius, because the code divides by it.
- Gesture states other than began, changed and ended. They change nothing in the code (`default: break`), so they have no method.
- Label formatting with `"%.1f"`, which is display only.
- `UIColor.getRed`. The RGBA constants of the four colours are used directly.

## Findings

| source | as written | input that shows it | evidently intended | confidence | as-written member | corrected member |
|---|---|---|---|---|---|---|
| PerfectCircleGame/ViewController.swift:229-237 | each band blends from its upper colour at the bottom of the band to its lower colour at the top. The colour therefore moves towards green as the percentage falls within a band, jumps at 95, 90 and 80, and (unclamped) leaves the channel range below 0 | percentage 94 gives red 0.8, while 90 gives pure green (red 0); 94.9 is almost yellow but 95 is green; -80 gives green channel 330/255 | the colour turns green, yellow, orange, red as the percentage falls (the comment at line 179). Each band blends from its lower colour to its upper one, and the lowest fraction is clamped to [0, 1] | medium; not executed | `Colors.ColorAsWrittenRunsBackwards` | `Colors.IntendedColorGradient` |
