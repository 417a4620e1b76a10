# StrangeOrbits particle engine, modelled in Dafny

StrangeOrbits draws an image as a cloud of small trembling particles. Each
particle is a `FigurePoint`. It waits at an anchor outside the element and
morphs towards a pixel of the current figure. Show and hide transitions are
queued first in, first out. At most one of them is active at a time. Its
eased time factor drives the morph of every point.

This project models the engine without its canvas, DOM and event plumbing.
It has six modules:

- `Wrappers`: `Option` and `Result`.
- `Geometry`: positions (`Vec`), the linear interpolation every morph
  uses, and what it guarantees about staying between its endpoints.
- `Bezier`: the cubic-bezier easing.
  - The polynomial helpers, the sample table and its scan, and the
    Newton-Raphson and bisection refinements.
  - The closure the factory returns, as the class `BezierEasing`. Its
    `sampleValues` table is an array.
- `Particle`: the option values, the random draws, and the class
  `FigurePoint`. That class covers the constructor with its off-screen
  anchor bands, `setPosition`, `setOffset` and the morph and tremble parts
  of `update`.
- `Mask`: the raster scan of `imageDataToFigure` as a pure specification.
  It gives the qualifying pixels of an RGBA buffer in row-major order: the
  alpha byte is above 127 and the density draw is below `pointDensity`.
- `Engine`: the class `Engine`.
  - The state: the transition queue, the active transition, the point list
    and the log of fired callbacks.
  - The methods `ShowFigure`, `HideFigure`, `UpdateAnimation`,
    `ImageDataToFigure` and `RemoveOffscreenFigurePoints`.
  - The method `CompleteImageLoad` stands for the asynchronous arrival of a
    show transition's image.

Some parts of the source are inputs rather than computations here:

- **Random draws:** every `Math.random()` result is an explicit input of
  type `Draw`, a real in [0, 1).
  - The density draw of `imageDataToFigure` is a function of the pixel
    index.
  - The six draws of a new point are a function of the index the point
    gets.
  - The two draws of a tremble resampling form a `TrembleDraws` value.
- **Image buffer:** the decoded image is a `seq<byte>`.
- **Callbacks:** a callback is a number. Calling it appends that number to
  `callbacksFired`.
- **Numbers:** all numbers are exact reals. Floating-point rounding is not
  modelled.

The names `minTrembleOffset` and `maxTrembleOffset` suggest that a tremble
target's x offset lies between them. The code at strangeorbits.js:600
computes `r * (max - min) - min` instead, and the model follows the code.
That offset lies between `-minTrembleOffset` and
`maxTrembleOffset - 2 * minTrembleOffset` (`ResampledOffset`).

## Model

| member | source | states |
|---|---|---|
| Geometry.Lerp | strangeorbits.js:569-576 | interpolation gives `from` at factor 0, `to` at factor 1, and the common point when both ends coincide |
| Geometry.LerpBetween | strangeorbits.js:569-576 | for a factor in [0, 1] both coordinates of the interpolation lie between those of the two ends |
| Bezier.CalcBezier | strangeorbits.js:706-708 | every curve coordinate is 0 at t = 0 and 1 at t = 1, whatever the controls |
| Bezier.BernsteinForm | strangeorbits.js:693-713 | the polynomial of `A`/`B`/`C` is the Bernstein form of the cubic from 0 to 1 with inner controls aA1 and aA2, and `getSlope` is the Bernstein form of its derivative |
| Bezier.A | strangeorbits.js:693-695 | the cubic coefficient of the power form; `CoefficientsAtEnds` and `BernsteinForm` state its properties |
| Bezier.B | strangeorbits.js:697-699 | the quadratic coefficient of the power form; `CoefficientsAtEnds` and `BernsteinForm` state its properties |
| Bezier.C | strangeorbits.js:701-703 | the linear coefficient of the power form; `CoefficientsAtEnds` and `BernsteinForm` state its properties |
| Bezier.CoefficientsAtEnds | strangeorbits.js:693-713 | the three coefficients sum to 1, so the curve ends at 1; C is the slope at t = 0, which is 3 times the first control value, and 3A + 2B + C the slope at t = 1, which is 3 times one minus the second |
| Bezier.GetSlope | strangeorbits.js:711-713 | the derivative of `calcBezier`; `SlopeIsDerivative` and `BernsteinForm` state that, and `CoefficientsAtEnds` gives its values at both ends |
| Bezier.SlopeIsDerivative | strangeorbits.js:706-713 | the change of `calcBezier` between s and t is (t - s) times a divided difference that equals `getSlope` at s = t |
| Bezier.SampleTableIncreasing | strangeorbits.js:747-752 | for x controls in [0, 1] the sample table rises strictly from 0 at entry 0 to 1 at entry 10 |
| Bezier.IntervalIndex | strangeorbits.js:754-762 | the scan stops at an index in 0..9; every sample it passed is at most aX, and the sample after the stop exceeds aX unless it is the last interval |
| Bezier.IntervalBrackets | strangeorbits.js:754-762 | for aX in [0, 1) the picked interval's samples bracket aX |
| Bezier.IntervalStart | strangeorbits.js:755-761 | the accumulated interval start lies in [0, 0.9] |
| Bezier.Interpolate | strangeorbits.js:764-766 | when aX lies inside the interval's x-range, the interpolated guess lies inside the interval's t-range |
| Bezier.InitialGuessInInterval | strangeorbits.js:754-766 | for aX in [0, 1) the first guess for t lies in the picked interval, so in [0, 1) |
| Bezier.NewtonRaphson | strangeorbits.js:729-739 | n Newton steps for x(t) = aX, stopping at a zero slope; `NewtonKeepsRoot` states its property and `NewtonRaphsonIterate` computes it |
| Bezier.NewtonKeepsRoot | strangeorbits.js:729-739 | a guess that already solves x(t) = aX is returned unchanged by any number of Newton steps |
| Bezier.Subdivide | strangeorbits.js:715-727 | the bisection from step i; `SubdivideInBracket` states its property and `BinarySubdivide` computes it |
| Bezier.SubdivideInBracket | strangeorbits.js:715-727 | bisection returns a t inside the bracket it starts from |
| Bezier.Refine | strangeorbits.js:768-775 | the refinement of a guess chosen by its slope; `RefineGuess` computes it |
| Bezier.Fallback | strangeorbits.js:771-775 | the flat-slope and bisection branches; `FallbackInInterval` states that they stay in the guess's interval |
| Bezier.FallbackInInterval | strangeorbits.js:768-775 | the flat-slope and bisection branches return a t inside the guess's interval |
| Bezier.TForX | strangeorbits.js:754-776 | the solved t of `getTForX`; `GetTForX` computes it and `TForXInUnitWithoutNewton` bounds it |
| Bezier.TForXInUnitWithoutNewton | strangeorbits.js:754-776 | when the slope at the guess is below `NEWTON_MIN_SLOPE`, the solved t for aX in [0, 1) lies in the picked interval and in [0, 1] |
| Bezier.Eased | strangeorbits.js:778-790 | the easing the factory returns, which the engine's named easings run; `EasedEndpoints` states its exact ends and its identity case, and `BezierEasing.Apply` computes it |
| Bezier.EasedEndpoints | strangeorbits.js:778-790 | every easing maps 0 to 0 and 1 to 1 exactly, and diagonal controls give the identity |
| Bezier.NewtonRaphsonIterate | strangeorbits.js:729-739 | the loop computes the four-step Newton iteration with its early return on a zero slope, and keeps an exact root |
| Bezier.BinarySubdivide | strangeorbits.js:715-727 | the do-while loop computes the bisection, runs 1 to 10 times and stays inside an ordered bracket |
| Bezier.BezierEasing.constructor | strangeorbits.js:745-752 | the table holds x(i / 10) at every index i unless the controls are diagonal |
| Bezier.BezierEasing.ScanTable | strangeorbits.js:755-762 | the table scan stops at the interval the table specification picks, below the last index, with the matching interval start |
| Bezier.BezierEasing.GuessInInterval | strangeorbits.js:764-766 | the interpolation between the two table entries around aX gives the specified first guess |
| Bezier.BezierEasing.RefineGuess | strangeorbits.js:768-775 | the slope at the guess selects Newton-Raphson, the guess itself or bisection, as the refinement specification does |
| Bezier.BezierEasing.GetTForX | strangeorbits.js:754-776 | the table lookup, interpolation and refinement compute the specified solved t |
| Bezier.BezierEasing.Apply | strangeorbits.js:778-790 | the returned function is the identity for diagonal controls, gives exactly 0 and 1 at the ends, and otherwise y at the solved t |
| Bezier.NewBezierEasing | strangeorbits.js:741-752 | the factory fails exactly when an x control lies outside [0, 1]; otherwise it returns a fresh easing with a filled table |
| Particle.Spread | strangeorbits.js:460-530 | a draw times a span lies between 0 and the span, strictly below a positive span |
| Particle.Scale | strangeorbits.js:460-464 | a radius, opacity or tremble duration draw lies between its min and max option, strictly below the max when min < max |
| Particle.Side | strangeorbits.js:468 | the side choice is one of 0, 1, 2, 3 |
| Particle.OffscreenAnchor | strangeorbits.js:468-495 | the anchor lies within 100 of the element, on side 0 at least 20 above it, on side 1 at least 20 right of it, on side 2 at least 20 below it, on side 3 at least 20 left of it |
| Particle.AnchorOffscreen | strangeorbits.js:468-495 | every anchor is outside the element by at least 20 |
| Particle.DefaultOptionsValid | strangeorbits.js:75-85 | the default options have positive and ordered tremble durations, so every point of a default engine restarts its tremble on its first update |
| Particle.ResampledOffset | strangeorbits.js:597-602 | a new tremble target has x between -min and max - 2 * min offset, and y in [-10, 10) |
| Particle.Morph | strangeorbits.js:569-582 | the morph gives the next position from factor 1 on, the previous one at factor 0, and a point between them for factors in [0, 1] |
| Particle.FigurePoint.constructor | strangeorbits.js:456-530 | a new point sits at its anchor heading for its target with zero offsets, a positive tremble duration, and, when minTrembleDuration <= maxTrembleDuration, a tremble clock that restarts on the first update |
| Particle.FigurePoint.SetPosition | strangeorbits.js:536-546 | the old target becomes the previous position and p the next; nothing else changes |
| Particle.FigurePoint.SetOffset | strangeorbits.js:548-560 | the old target becomes the previous position, the anchor the next, and the point is marked offscreen |
| Particle.FigurePoint.Update | strangeorbits.js:563-620 | the position is the morph plus the tremble offset at the new clock; a clock at or past the duration restarts from 0 with the old target as start and a resampled target, otherwise it advances by deltaTime with the targets unchanged |
| Particle.TrembleOffsetBetween | strangeorbits.js:604-615 | within a tremble cycle the offset stays between the two tremble targets and starts at the previous one |
| Mask.Scan | strangeorbits.js:403-424 | the picked pixels before column x of row y, in scan order; `ScanMembership` and `ScanOrdered` state its properties and `ScanRow` computes it |
| Mask.Targets | strangeorbits.js:403-424 | the picked pixels of the whole image; `TargetsAreQualifyingPixels` states its properties and `ScanImage` computes it |
| Mask.ScanMembership | strangeorbits.js:403-424 | a pixel of the image is among the scanned ones before (x, y) exactly when it comes earlier in row-major order and qualifies |
| Mask.ScanOrdered | strangeorbits.js:403-424 | the scanned pixels lie in the image before (x, y) and are in strictly increasing row-major order |
| Mask.TargetsAreQualifyingPixels | strangeorbits.js:403-424 | over the whole image the targets are exactly the qualifying pixels, each once, in row-major order |
| Engine.DefaultEasingsFixEndpoints | strangeorbits.js:90-97 | every default easing maps 0 to 0 and 1 to 1, "strange" is among them, and "linear" is the identity |
| Engine.Resolve | strangeorbits.js:310-314 | a started transition's easing is never a name, and it is a function exactly when it was given as one or as a registered name |
| Engine.Fired | strangeorbits.js:331-334 | a completing transition fires at most one callback |
| Engine.Survivors | strangeorbits.js:439-446 | the surviving points are all not offscreen, each comes from the list, and every point not offscreen survives |
| Engine.SurvivorsAppend | strangeorbits.js:439-446 | filtering distributes over concatenation, so the survivors keep their relative order |
| Engine.SurvivorsExtremes | strangeorbits.js:439-446 | without offscreen points nothing is removed; with only offscreen points everything is |
| Engine.SurvivorsDistinct | strangeorbits.js:439-446 | filtering a list of distinct points leaves distinct points |
| Engine.Engine.constructor | strangeorbits.js:49-61 | a new engine is idle, with no points, transitions, image or fired callbacks |
| Engine.Engine.ShowFigure | strangeorbits.js:159-171 | a show transition with clock 0, not ready, easing defaulting to "strange", is appended at the tail of the queue |
| Engine.Engine.HideFigure | strangeorbits.js:174-183 | a hide transition with clock 0, ready, easing defaulting to "strange", is appended at the tail of the queue |
| Engine.Engine.Next | strangeorbits.js:290-314 | the transition an update works on is the active one, else the head of the queue with its easing resolved, and it is well formed |
| Engine.Engine.UpdateAnimation | strangeorbits.js:287-340 | idle with an empty queue gives 1 and changes nothing; an idle engine starts the queue head, so transitions start in queue order; a transition that is not ready gives 1 with no clock moved; a ready one advances by deltaTime and returns the eased factor or fails on a non-function easing; once clock / duration reaches 1 it prunes offscreen points, fires its callback once and goes idle |
| Engine.Engine.StartNext | strangeorbits.js:290-314 | the head leaves the queue and becomes active; a show records its url, a hide clears the image and sends every point off screen |
| Engine.Engine.Advance | strangeorbits.js:320-339 | the clock, return value, completion and callback behaviour of an active transition |
| Engine.Engine.HideAllPoints | strangeorbits.js:303-306 | every point is shifted towards its anchor and marked offscreen |
| Engine.SpliceStep | strangeorbits.js:440-444 | removing an offscreen point at i, or passing a surviving one, keeps the survivors of the consumed prefix in front and the rest of the original list behind |
| Engine.Engine.RemoveOffscreenFigurePoints | strangeorbits.js:439-446 | the splice loop leaves exactly the survivors, in their original order |
| Engine.Engine.PlacePoint | strangeorbits.js:409-423 | the next point is sent to the picked pixel if it exists, or a new point spawned for it is appended; earlier points are untouched |
| Engine.Engine.ScanRow | strangeorbits.js:406-424 | one row of the scan with its alpha offset i advancing by 4 per pixel places the row's picked pixels after the earlier ones |
| Engine.Engine.ScanImage | strangeorbits.js:403-426 | the count equals the number of picked pixels; afterwards there are max(old count, picked) points, point k heads for the k-th picked pixel, later old points are untouched, and new points are fresh and spawned for their pixel |
| Engine.Engine.RetireSurplus | strangeorbits.js:428-430 | every point from index n on is sent towards its anchor and marked offscreen; earlier points are untouched |
| Engine.Engine.ImageDataToFigure | strangeorbits.js:403-435 | there are max(old count, picked) points; point k < picked heads for the k-th picked pixel in row-major order; every later point is offscreen and heads for its anchor |
| Engine.Engine.CompleteImageLoad | strangeorbits.js:296-299 | the figure is built from the image and the waiting show becomes ready; point k heads for the k-th picked pixel, every earlier point starts from its old target, exactly the points beyond the picked pixels are offscreen and head for their anchors, and new points are spawned at their anchors |

## Left out

- Canvas and DOM work is not modelled, because it is rendering plumbing with no engine logic. This covers `init`, `resizeCanvas`, drawing in `frame`, `start`/`stop`, `requestAnimationFrame` and the `backgroundColor` accessors.
- The frame loop is not modelled. It calls `update(moveFactor, deltaTime)` on every point (strangeorbits.js:268-270). Each such call is `FigurePoint.Update`, and the model does not compose them with `UpdateAnimation`.
- Image loading and letterbox scaling are not modelled, because they are browser calls. This covers `setFigure`, `getImageData` and the asynchronous part of `loadImage`. The decoded buffer is an input of `CompleteImageLoad`. The one effect of `loadImage` on the engine is that `actualImage` becomes the url (strangeorbits.js:364). `StartNext` models it.
- The re-scan of the current image after a resize is not modelled.
- Mouse and touch handlers are not modelled. They only set flags and positions.
- The pointer-force block of `update` is not modelled, so `mouseOffset` keeps its value. The block divides by the distance to the pointer, which is undefined at distance 0.
- Merging of custom options is not modelled. The engine takes a ready `Options` value and a map of named easings.
- The demo slideshow (`demo/js/demo.js`) is not modelled. It only drives the DOM.
- The colour and pointer-force options are not modelled, because nothing in the model reads them.
- `Math.random()` itself is not modelled. Its results are inputs.
- Floating-point arithmetic and the `Float32Array` rounding of the sample table are not modelled. All numbers are exact reals.
- Bezier.TForXInUnitWithoutNewton: the solved t is shown to stay in [0, 1] only when Newton-Raphson is not selected. Newton-Raphson's convergence is left opaque.
- Bezier.BezierEasing.GetTForX: it states that it computes the specified t, but not that t solves x(t) = aX. The precision of the numerics is left opaque.
- Bezier.SampleTableIncreasing: monotonicity of x(t) is proved at the eleven sample points only, not between them.
- Particle.FigurePoint.constructor: requires both tremble duration options to be positive. Otherwise the source divides by a zero or negative duration in `update`.
- Particle.FigurePoint.Update: it does not cover the pointer force or `mouseOffset`.
- Engine.Engine.ShowFigure: requires a positive duration. The source behaves oddly for the others. With duration 0 the time factor is +Infinity once the clock is positive, so the transition completes on the first ready frame with a positive deltaTime. With a negative duration the time factor stays below 1 (strangeorbits.js:324-329), so the transition never completes and the queue stalls for good.
- Engine.Engine.HideFigure: requires a positive duration, for the same reasons as `ShowFigure`.
- Engine.Engine.CompleteImageLoad: requires the transition that asked for the image to be still active and waiting. The source's load callback sets `ready` on whatever transition is current when the image arrives. It throws when none is.
- Engine.Engine.UpdateAnimation: a callback cannot re-enter the engine, because callbacks are numbers appended to a log.
- Engine.Engine.UpdateAnimation: an easing is applied as a plain function from reals to reals. An easing that throws is not modelled.
- Engine.Engine.UpdateAnimation: a non-function easing gives `Failure`, and the engine may be updated again afterwards. In the source the TypeError escapes `frame` before it requests the next animation frame (strangeorbits.js:263, 281-283), so the animation stops for good.
