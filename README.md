# Fourier series visualiser — a Dafny model of the frame engine

The visualiser draws a chain of rotating vectors ("epicycles"). Vector i spins
at the odd harmonic n = 2i+1 with radius radius·4/(n·π). Each vector starts
where the previous one ended, and the chain begins at the origin. Moving across,
each vector contributes r·cos(n·t). Vertically, it contributes r times the
amplitude of the selected waveform: sine, square, triangle, sawtooth or a
custom mathjs formula. The height of the final point is pushed onto a
newest-first history. The history is drawn as a trailing wave to the right of
the chain, with a connector from the final point to the newest sample. Then
the angular time advances by 0.01·frequency·speed.

The model follows the one source file, `src/App.tsx`, part by part:

- `MathModel`
  - `Math.sin`, `Math.cos`, `Math.asin` and mathjs `evaluate` are the fields of a `MathLib` value that every computation receives. Nothing is assumed about them beyond what a lemma states as a hypothesis.
  - `Math.PI` is the literal 3.141592653589793.
  - `Math.sign` is defined directly.
- `Waveforms`: `getWaveformValue` as the function `Value`, and the value and error state of `evaluateFormula`. Includes the sawtooth bounds and period.
- `Controls`: the settings record and `handleSettingChange`, as a pure function from the old settings and a typed change to the new settings.
- `Epicycles`: the chain the loop in `animate` walks, as a specification.
  - `Chain` gives the first k vectors.
  - `FinalPoint` gives the sample the chain reaches.
  - It also gives the chain's shape and the final point as a sum.
- `History`: the `unshift`/`pop` step on the sample buffer, and what many frames in a row do to it.
- `Drawing`: a frame as the sequence of canvas primitives it emits, in order: `clearRect`, each circle, line and marker, the connector, and the wave polyline. It also proves what a frame draws of each kind.
- `Animation`: the component's mutable state as the class `Visualizer`. Its fields are the settings, the formula text, the error state, the history, the time and the running flag. `Animate` is the frame step, written as the source writes it:
  - the guard on a missing canvas or context;
  - the `for` loop over the vectors (split into `DrawChain` and `DrawVector`);
  - the in-place history update (`PushSample`);
  - the connector and wave drawing (`DrawTrace`, `DrawWave`);
  - the time step (`AdvanceTime`).

  Each of these methods is proved against the specification functions above.

Behaviours of the code worth knowing, which the model follows as written:

- **History length.** When the history is already longer than the canvas width, a frame does not cut it back to the width. It drops one sample and adds one, so the length stays the same (`History.LongerThanWidthKeepsLength`).
- **Settings changes advance time.** Any settings or formula change re-runs the effect that calls `animate()` once. That frame advances the time even while the animation is paused (`Animation.Visualizer.ChangeSetting`, `Animation.Visualizer.SetFormula`).
- **Sawtooth range.** The sawtooth 2·(u − floor(u + 0.5)) lies in [−1, 1), not (−1, 1]. It reaches −1 at half periods and never reaches 1 (`Waveforms.Sawtooth`, `Waveforms.SawtoothAtHalfPeriod`).
- **Formula error state.** Every call of the formula wrapper overwrites the error state. After a frame it therefore reflects only the last harmonic's evaluation, at x = (2·numCircles − 1)·t (`Animation.ErrorReflectsLastHarmonic`).
- **Colour fallback.** Both colour fallbacks (`colors[i] || …`) also replace an existing but empty colour string, because "" is falsy. An out-of-range read stands for `undefined` and is written "".

## Model

| member | source | states |
|---|---|---|
| MathModel.Sign | src/App.tsx:105 | the sign is −1, 0 or 1, and it is positive (negative) exactly when its argument is |
| Waveforms.Sawtooth | src/App.tsx:109 | the sawtooth amplitude always lies in [−1, 1) |
| Waveforms.SawtoothAtHalfPeriod | src/App.tsx:109 | the lower end of the range is attained: at t = π/n the sawtooth is −1 |
| Waveforms.PeriodsShift | src/App.tsx:109 | advancing t by 2π/n advances u = t·n/(2π) by exactly one period |
| Waveforms.SawtoothPeriodic | src/App.tsx:109 | the sawtooth is unchanged when t rises by 2π/n |
| Waveforms.FormulaValue | src/App.tsx:36-45 | the wrapper returns the evaluator's result when it succeeds and 0 when it throws |
| Waveforms.FormulaError | src/App.tsx:36-45 | the error state is cleared exactly when the evaluation succeeds, and otherwise holds the invalid-formula message |
| Waveforms.Value | src/App.tsx:100-115 | square mode yields only −1, 0 or 1; sawtooth mode stays in [−1, 1); an unrecognised mode yields sin(n·t) |
| Waveforms.FallbackIsSine | src/App.tsx:102-113 | sine mode is sin(n·t), and every unrecognised mode gives the same value as sine |
| Waveforms.SquareFollowsSine | src/App.tsx:104-105 | square mode is 1, −1 or 0 exactly when sin(n·t) is positive, negative or zero |
| Waveforms.CustomEvaluatesAtPhase | src/App.tsx:110-111 | custom mode is the formula evaluated at x = n·t, or 0 when evaluation fails |
| Waveforms.TriangleBounded | src/App.tsx:106-107 | triangle mode stays in [−1, 1] whenever asin returns a value in its principal range |
| Controls.ResizeColors | src/App.tsx:211-213 | the new colour list has exactly the requested length; an existing non-empty colour at a kept index stays, and every other slot gets the supplied random colour |
| Controls.HandleSettingChange | src/App.tsx:205-218 | a circle count becomes max(1, value) with a colour list of exactly that length that keeps the existing non-empty colours; any other key sets exactly its own field; nothing outside the touched fields changes |
| Controls.ChangePreservesWellFormed | src/App.tsx:209-216 | every change other than a raw colour list keeps "at least one circle and one colour per circle" |
| Epicycles.Harmonic | src/App.tsx:136 | every vector's harmonic is a positive odd number |
| Epicycles.HarmonicCount | src/App.tsx:132 | the loop runs numCircles times, and not at all when numCircles is not positive |
| Epicycles.HarmonicRadius | src/App.tsx:137 | definition of harmonic n's radius radius·4/(n·π); stated by rows Epicycles.ChainShape, Drawing.FrameCircles, Animation.Visualizer.DrawVector |
| Epicycles.Term | src/App.tsx:136-140 | definition of vector i's displacement (r·cos(n·t), r·wave(n, t)) with n = 2i+1 and r = radius·4/(n·π); stated by rows Epicycles.ChainShape, Epicycles.FinalPointIsSum, Epicycles.SingleSineHarmonic, Drawing.FrameLines |
| Epicycles.Chain | src/App.tsx:129-152 | definition of the first k vectors of a frame, each starting where the previous ended; has exactly k vectors; stated by rows Epicycles.ChainShape, Epicycles.ChainExtends, Epicycles.FinalPointIsSum, Animation.Visualizer.DrawChain |
| Epicycles.FinalPoint | src/App.tsx:129-159 | definition of the point the frame's loop reaches, whose height is the pushed sample; stated by rows Epicycles.FrameChain, Epicycles.SingleSineHarmonic, Animation.Visualizer.Animate |
| Epicycles.ChainShape | src/App.tsx:129-152 | the chain has exactly k vectors; vector i has index i, harmonic 2i+1 and radius radius·4/(n·π), and ends at its start plus its own displacement; the first starts at the origin and each later one where the previous ended |
| Epicycles.ChainExtends | src/App.tsx:132-140 | drawing more vectors never moves the earlier ones: a longer chain extends a shorter one |
| Epicycles.FinalPointIsSum | src/App.tsx:129-140 | the end of the first k vectors is the sum over i < k of (rᵢ·cos(nᵢ·t), rᵢ·wave(nᵢ, t)) |
| Epicycles.SpansTelescope | src/App.tsx:133-140 | for any chain linked end to start from the origin, the vectors' own extents add up to its end point |
| Epicycles.FrameChain | src/App.tsx:129-157 | a frame's chain has numCircles vectors, and its final point is both the sum of their extents and the sum of the harmonic terms |
| Epicycles.SingleSineHarmonic | src/App.tsx:136-140 | with one circle in sine mode the final point is (R·4/π·cos t, R·4/π·sin t) |
| History.Push | src/App.tsx:159-162 | index 0 is the new sample and every older sample moves up one place; the length grows by one until it reaches the width and then stays; a buffer within the width stays within it; the result is empty only for an empty buffer and width 0 |
| History.PushAll | src/App.tsx:159-162 | definition of the buffer after one push per frame over many frames; stated by rows History.PushAllWindow, History.FromEmpty, History.StaysWithinWidth, History.LongerThanWidthKeepsLength |
| History.PushDropsOnlyOldest | src/App.tsx:159-162 | the buffer after a push is a prefix of the sample followed by the old buffer: only the oldest sample can be lost, and at most one |
| History.PushAllWindow | src/App.tsx:159-162 | after any number of frames the buffer is the new samples newest first, then the old contents, cut to max(old length, min(old length + frames, width)) |
| History.FromEmpty | src/App.tsx:159-162 | starting empty, after k frames the buffer holds the min(k, width) newest samples in newest-first order |
| History.StaysWithinWidth | src/App.tsx:160-162 | a buffer within the width never grows past it, however many frames run |
| History.LongerThanWidthKeepsLength | src/App.tsx:160-162 | a buffer longer than the width keeps its length through any number of frames: there is no immediate truncation |
| Drawing.CircleColor | src/App.tsx:143 | a circle takes its own colour when present and non-empty, and otherwise the first colour |
| Drawing.ChainPrimitives | src/App.tsx:132-157 | definition of what the loop draws, pass by pass in order; stated by rows Drawing.ChainLines, Drawing.ChainCircles, Drawing.ChainFills, Animation.Visualizer.DrawChain |
| Drawing.SegmentPrimitives | src/App.tsx:142-156 | definition of what one loop pass draws: its circle when circles are shown, its line, and on the last pass the marker; stated by rows Drawing.ChainLines, Drawing.ChainCircles, Drawing.ChainFills, Animation.Visualizer.DrawVector |
| Drawing.WavePoints | src/App.tsx:87-95 | definition of the trailing wave's points; there is exactly one per sample; stated by rows Drawing.WaveLayout, Animation.DrawWave |
| Drawing.Connector | src/App.tsx:164-170 | definition of the line from the final point to the newest sample; it is a proper line exactly when the history is not empty and always starts at the final point; stated by rows Drawing.ConnectorMeetsWave, Animation.ConnectorIsHorizontal |
| Drawing.TracePrimitives | src/App.tsx:164-172 | definition of what a frame draws after the loop: the connector, then the wave polyline; stated by rows Drawing.FrameOfLines, Drawing.FrameOfMarker, Drawing.FrameOfCircles, Animation.Visualizer.DrawTrace |
| Drawing.FrameOf | src/App.tsx:124-172 | definition of a frame drawn from a given chain: clear, the loop's primitives, then the connector and the wave; stated by rows Drawing.FrameOfLines, Drawing.FrameOfMarker, Drawing.FrameOfCircles |
| Drawing.FramePrimitives | src/App.tsx:124-172 | definition of the frame drawn from the chain at time t; stated by rows Drawing.FrameLines, Drawing.FrameMarker, Drawing.FrameCircles, Animation.Visualizer.Animate |
| Drawing.WaveLayout | src/App.tsx:87-95 | the wave has one point per sample; the first point is 150 px right of the chain's origin, each point is one pixel right of the one before, and each sits at its sample's height |
| Drawing.ChainLines | src/App.tsx:146-152 | the loop draws exactly one line per vector, in order, the i-th on the canvas from vector i's start to its end |
| Drawing.ChainCircles | src/App.tsx:142-145 | the loop draws one circle per vector when circles are shown and none otherwise, centred on the vector's start, with its radius and colour |
| Drawing.ChainFills | src/App.tsx:154-156 | the loop draws a filled marker only on reaching vector numCircles − 1, and then exactly one, on the chain's end |
| Drawing.FrameOfLines | src/App.tsx:124-170 | the lines a frame draws are the vectors' lines in order, followed by the connector when the history is not empty; with an empty history they are the vectors' lines alone |
| Drawing.FrameOfMarker | src/App.tsx:154-156 | nothing outside the loop is a filled circle, so the frame's markers are exactly the loop's |
| Drawing.FrameOfCircles | src/App.tsx:142-145 | nothing outside the loop is a stroked circle, so the frame's circles are exactly the loop's, one per vector when shown |
| Drawing.FrameLines | src/App.tsx:129-170 | a frame draws exactly numCircles vector lines, plus the connector when the history is not empty; the first starts at the origin, each starts where the previous one ended and spans its harmonic's displacement; with a non-empty history the last line is the connector from the final point |
| Drawing.FrameMarker | src/App.tsx:132-157 | a frame draws the filled marker exactly once, on the final point, when numCircles ≥ 1, and never otherwise |
| Drawing.FrameCircles | src/App.tsx:132-145 | when circles are shown a frame draws numCircles circles, the i-th centred on vector i's start with radius radius·4/((2i+1)·π) and colour i; otherwise it draws none |
| Drawing.ConnectorMeetsWave | src/App.tsx:164-170 | with a non-empty history the connector runs from the final point to the first point of the trailing wave |
| Animation.TimeStep | src/App.tsx:174 | the step is non-negative when frequency and speed are, positive when both are positive, and zero exactly when one of them is zero |
| Animation.ErrorAfterLoop | src/App.tsx:132-140 | definition of the error state after k loop passes: in custom mode each pass's evaluation (lines 39, 42, 111) overwrites it; stated by rows Animation.ErrorReflectsLastHarmonic, Animation.Visualizer.DrawChain, Animation.Visualizer.Animate |
| Animation.ErrorReflectsLastHarmonic | src/App.tsx:132-140 | after a custom-mode frame with circles, the error state is cleared exactly when the formula evaluates at (2·numCircles − 1)·t, and otherwise holds the message; otherwise it is left as it was |
| Animation.ConnectorIsHorizontal | src/App.tsx:159-170 | after the push the connector ends at the height of the sample just pushed, which is the final point's height, so it is horizontal |
| Animation.DrawWave | src/App.tsx:80-98 | the polyline has the wave colour and one point per sample, point i at x = 200 + 150 + i and at the sample's height below centre |
| Animation.Visualizer.constructor | src/App.tsx:8-26 | the initial state, before the mount effect draws its first frame: default settings and formula, no error, an empty history, time 0, paused |
| Animation.Visualizer.EvaluateFormula | src/App.tsx:36-45 | on success it returns the evaluator's value and clears the error; on failure it returns 0 and sets the message |
| Animation.Visualizer.WaveformValue | src/App.tsx:100-115 | it returns the selected mode's amplitude; only custom mode changes the error state, to that of evaluating at n·t |
| Animation.Visualizer.DrawVector | src/App.tsx:136-156 | one pass moves the running point by vector i's displacement, emits exactly that vector's circle, line and marker, and leaves the error state of i+1 passes |
| Animation.Visualizer.DrawChain | src/App.tsx:129-157 | the loop emits exactly the primitives of the whole chain, in order, and ends at the final point |
| Animation.Visualizer.PushSample | src/App.tsx:159-162 | the in-place unshift and pop leave exactly the pushed buffer |
| Animation.Visualizer.DrawTrace | src/App.tsx:164-172 | after the loop it emits the connector to the newest sample and then the wave of the whole history |
| Animation.Visualizer.AdvanceTime | src/App.tsx:174 | time advances by exactly one step |
| Animation.Visualizer.Animate | src/App.tsx:117-179 | without a canvas or context nothing changes and nothing is drawn. Otherwise: the history gets the final height pushed; time advances by exactly one step; the error state is that of the last evaluation; the frame is clear, then the chain, then the connector and wave of the new history; the next frame is requested exactly when running |
| Animation.Visualizer.ChangeSetting | src/App.tsx:181-195 | a control applies the change handler, and the re-render then draws one frame with the new settings: the history push, the error state of the last evaluation, and a time step even when paused; without a canvas nothing else changes and no frame is requested |
| Animation.Visualizer.SetFormula | src/App.tsx:317 | a formula edit stores the text, and the re-render draws one frame evaluating the new formula; without a canvas nothing else changes and no frame is requested |
| Animation.Visualizer.Toggle | src/App.tsx:197-203 | play/pause flips the running flag, and a frame is requested exactly when it is now running |

## Left out

- Scheduling: `requestAnimationFrame`, `cancelAnimationFrame` and the `useEffect` wiring are event-loop machinery. `Animate` returns whether it would schedule the next frame, and `Toggle` returns whether a frame is requested. Stale closures between renders are not modelled.
- Transcendental functions and the formula parser: `Math.sin`, `Math.cos`, `Math.asin` and mathjs `evaluate` are parameters (`MathLib`). A formula that evaluates to a non-number (a matrix, a unit) is outside `Option<real>`.
- Waveforms.TriangleBounded: holds only under the hypothesis that asin returns a value in its principal range, because asin itself is a parameter.
- Controls.ChangePreservesWellFormed: excludes `SetCircleColors`. No control sets the colour list directly; `SetCircleColors` stands for an untyped call of the handler that would store any list, whatever its length.
- Animation.Visualizer.Animate: does not model the exception `ctx.arc` raises for a negative radius. With `radius < 0` and circles shown, the source throws on the first loop pass, after `clearRect`, so there is no push, no time step and no next frame. The model draws the full frame instead. The radius slider keeps the radius in [10, 100], but `SetRadius` accepts any real.
- Controls.HandleSettingChange: does not model the `RangeError` that `Array.from` raises for a circle count above 2^32 − 1. The number box's maximum of 50 is not enforced on typed input. In that case the source leaves the settings unchanged and draws no frame; the model resizes the colour list to any count (and `Animation.Visualizer.ChangeSetting` then draws a frame).
- Floating point: all arithmetic is on exact reals. Rounding, NaN, infinities and negative zero are not modelled.
- Random colours: the colour a new circle gets is a function `randomColor` passed in, not `Math.random`.
- Numbers from the UI: the `Number()` coercion is not modelled: `numCircles` is an integer, and each settings key is a typed constructor of `Change` rather than a string key with an untyped value.
- Canvas: canvas sizing from `window.innerWidth` and the fixed height 400 are not modelled; the canvas is a `Surface` parameter. The pixels drawn by `arc`, `stroke` and `fill` are also outside the model: a frame is the list of primitives it emits.
- An empty history after the push (width 0) makes the connector's far end `undefined`. This is modelled as a `DanglingLine` primitive, not as NaN geometry.
- Image export (`exportImage`), the predefined-formula buttons (`applyFormula`), the formula-layout toggle, the info panel and the rest of the JSX are UI with no logic in the frame engine.
