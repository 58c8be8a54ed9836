/**
  The component's mutable state and the frame step that updates it: the
  epicycle loop, the history push, the connector, the trailing wave and the
  time advance, behind the guard on a missing canvas or drawing context.
*/
module Animation {
  import opened Wrappers
  import opened MathModel
  import opened Waveforms
  import opened Controls
  import opened Epicycles
  import opened History
  import opened Drawing

  /** The formula the text box starts with. */
  const InitialFormula: string := "sin(x) + 0.5*sin(3*x)"

  /** A canvas element: its size, and whether it hands out a 2D context. */
  datatype Surface = Surface(width: nat, height: nat, hasContext: bool)

  /** A frame is drawn only when the canvas is mounted and has a 2D context. */
  predicate Drawable(canvas: Option<Surface>) {
    canvas.Some? && canvas.value.hasContext
  }

  /** How far one frame advances the angular time. */
  function TimeStep(s: Settings): (dt: real)
    ensures s.frequency >= 0.0 && s.speed >= 0.0 ==> dt >= 0.0
    ensures s.frequency > 0.0 && s.speed > 0.0 ==> dt > 0.0
    ensures dt == 0.0 <==> s.frequency == 0.0 || s.speed == 0.0
  {
    0.01 * s.frequency * s.speed
  }

  /** The error state after the first k loop iterations: only custom mode
      evaluates the formula, and each evaluation overwrites the state. */
  function ErrorAfterLoop(lib: MathLib, s: Settings, formula: string, t: real, k: nat, err0: Option<string>): Option<string> {
    if s.waveform == "custom" && k >= 1 then FormulaError(lib, formula, Phase(Harmonic(k - 1), t)) else err0
  }

  /** After a frame the error state reflects the last harmonic's evaluation
      alone; outside custom mode, or with no circles, it is left as it was. */
  lemma ErrorReflectsLastHarmonic(lib: MathLib, s: Settings, formula: string, t: real, err0: Option<string>)
    ensures var e := ErrorAfterLoop(lib, s, formula, t, HarmonicCount(s), err0);
      && (s.waveform == "custom" && s.numCircles >= 1 ==>
            (e == None <==> lib.evaluate(formula, (2 * s.numCircles - 1) as real * t).Some?)
            && (e != None ==> e == Some(InvalidFormulaMessage)))
      && (s.waveform != "custom" || s.numCircles < 1 ==> e == err0)
  {
    if s.waveform == "custom" && s.numCircles >= 1 {
      assert Phase(Harmonic(HarmonicCount(s) - 1), t) == (2 * s.numCircles - 1) as real * t;
    }
  }

  /** The connector is horizontal: whenever the history is not empty after the
      push, it ends at the height of the sample just pushed, which is the
      height of the final point it starts from. */
  lemma ConnectorIsHorizontal(lib: MathLib, s: Settings, formula: string, t: real, h: seq<real>, width: nat, centerY: real)
    requires Push(h, FinalPoint(lib, s, formula, t).y, width) != []
    ensures var final := FinalPoint(lib, s, formula, t);
      var c := Connector(s, final, Push(h, final.y, width), centerY);
      c.Line? && c.to.y == c.from.y && c.to.y == centerY + final.y
  {
  }

  /** The trailing wave as the polyline drawWave strokes: point i of the samples is
      drawn at x = 200 + 150 + i, at the sample's height below centre. */
  method DrawWave(points: seq<real>, centerY: real, color: string) returns (p: Primitive)
    ensures p.Polyline? && p.color == color && |p.points| == |points|
    ensures forall i :: 0 <= i < |points| ==>
      p.points[i] == Point(CenterX + WaveOffset + i as real, centerY + points[i])
    ensures p == Polyline(WavePoints(points, centerY), color)
  {
    var path: seq<Point> := [];
    var i := 0;
    while i < |points|
      invariant 0 <= i <= |points|
      invariant |path| == i
      invariant forall j :: 0 <= j < i ==> path[j] == Point(CenterX + WaveOffset + j as real, centerY + points[j])
    {
      var x := CenterX + WaveOffset + i as real;
      var y := centerY + points[i];
      path := path + [Point(x, y)];
      i := i + 1;
    }
    p := Polyline(path, color);
  }

  /** The component: its settings and formula, the formula's error state, the
      sample history, the angular time and whether the animation runs. */
  class Visualizer {
    const lib: MathLib
    var settings: Settings
    var formulaInput: string
    var formulaError: Option<string>
    var history: seq<real>
    var time: real
    var isRunning: bool

    /** The initial state, before the mount effect draws its first frame: default settings and formula, no error, no samples, time 0, paused. */
    constructor(lib: MathLib)
      ensures this.lib == lib
      ensures settings == InitialSettings && formulaInput == InitialFormula
      ensures formulaError == None && history == [] && time == 0.0 && !isRunning
    {
      this.lib := lib;
      settings := InitialSettings;
      formulaInput := InitialFormula;
      formulaError := None;
      history := [];
      time := 0.0;
      isRunning := false;
    }

    /** The formula wrapper: the evaluator's value at x, or 0 when it throws;
        the error state is cleared on success and set to the message on failure. */
    method EvaluateFormula(x: real) returns (v: real)
      modifies this`formulaError
      ensures lib.evaluate(formulaInput, x).Some? ==> v == lib.evaluate(formulaInput, x).value && formulaError == None
      ensures lib.evaluate(formulaInput, x).None? ==> v == 0.0 && formulaError == Some(InvalidFormulaMessage)
      ensures v == FormulaValue(lib, formulaInput, x) && formulaError == FormulaError(lib, formulaInput, x)
    {
      match lib.evaluate(formulaInput, x)
      case Some(result) =>
        formulaError := None;
        v := result;
      case None =>
        formulaError := Some(InvalidFormulaMessage);
        v := 0.0;
    }

    /** The amplitude of harmonic n at time t under the current mode; only custom mode touches the error state. */
    method WaveformValue(n: int, t: real) returns (v: real)
      modifies this`formulaError
      ensures v == Value(lib, settings.waveform, formulaInput, n, t)
      ensures settings.waveform == "custom" ==> formulaError == FormulaError(lib, formulaInput, Phase(n, t))
      ensures settings.waveform != "custom" ==> formulaError == old(formulaError)
    {
      var x := n as real * t;
      if settings.waveform == "sine" {
        v := lib.sin(x);
      } else if settings.waveform == "square" {
        v := Sign(lib.sin(x));
      } else if settings.waveform == "triangle" {
        v := lib.asin(lib.sin(x)) * (2.0 / Pi);
      } else if settings.waveform == "sawtooth" {
        v := Sawtooth(n, t);
      } else if settings.waveform == "custom" {
        v := EvaluateFormula(x);
      } else {
        v := lib.sin(x);
      }
    }

    /** One pass of the epicycle loop: vector i is added to the running point,
        and its circle (when circles are shown), its line and, on the last
        vector, the marker are drawn. */
    method DrawVector(i: nat, prevX: real, prevY: real, centerY: real) returns (x: real, y: real, piece: seq<Primitive>)
      modifies this`formulaError
      ensures Point(x, y) == Add(Point(prevX, prevY), Term(lib, settings, formulaInput, time, i))
      ensures piece == SegmentPrimitives(settings,
        Segment(i, Harmonic(i), HarmonicRadius(settings.radius, Harmonic(i)), Point(prevX, prevY), Point(x, y)), centerY)
      ensures formulaError == ErrorAfterLoop(lib, settings, formulaInput, time, i + 1, old(formulaError))
    {
      var n := i * 2 + 1;
      var radius := settings.radius * (4.0 / (n as real * Pi));
      var phase := n as real * time;
      x := prevX + radius * Cos(lib, phase);
      var w := WaveformValue(n, time);
      y := prevY + radius * w;
      TermAt(lib, settings, formulaInput, time, i, n, phase, w);

      var from := Point(CenterX + prevX, centerY + prevY);
      var to := Point(CenterX + x, centerY + y);
      piece := [];
      if settings.showCircles {
        piece := piece + [StrokeCircle(from, radius, CircleColor(settings.circleColors, i))];
      }
      piece := piece + [Line(from, to, settings.lineColor)];
      if i == settings.numCircles - 1 {
        piece := piece + [FillCircle(to, MarkerRadius, settings.lineColor)];
      }
      assert radius == HarmonicRadius(settings.radius, Harmonic(i));
    }

    /** The epicycle loop of one frame: the primitives it draws, in order, and
        the final point it reaches, each vector from the current time. */
    method DrawChain(centerY: real) returns (drawn: seq<Primitive>, x: real, y: real)
      modifies this`formulaError
      ensures drawn == ChainPrimitives(settings, Chain(lib, settings, formulaInput, time, HarmonicCount(settings)), centerY)
      ensures Point(x, y) == FinalPoint(lib, settings, formulaInput, time)
      ensures formulaError == ErrorAfterLoop(lib, settings, formulaInput, time, HarmonicCount(settings), old(formulaError))
    {
      drawn := [];
      x, y := 0.0, 0.0;
      var i := 0;
      ghost var segs: seq<Segment> := [];
      while i < settings.numCircles
        invariant 0 <= i <= HarmonicCount(settings)
        invariant segs == Chain(lib, settings, formulaInput, time, i)
        invariant Point(x, y) == End(segs)
        invariant drawn == ChainPrimitives(settings, segs, centerY)
        invariant formulaError == ErrorAfterLoop(lib, settings, formulaInput, time, i, old(formulaError))
      {
        var nextX, nextY, piece := DrawVector(i, x, y, centerY);
        ghost var seg := Segment(i, Harmonic(i), HarmonicRadius(settings.radius, Harmonic(i)), Point(x, y), Point(nextX, nextY));
        ChainPrimitivesSnoc(settings, segs, seg, centerY);
        drawn := drawn + piece;
        segs := segs + [seg];
        x, y := nextX, nextY;
        i := i + 1;
      }
      assert i == HarmonicCount(settings);
    }

    /** unshift the sample onto the history, then pop from the back once if it is longer than the width. */
    method PushSample(sample: real, width: nat)
      modifies this`history
      ensures history == Push(old(history), sample, width)
    {
      history := [sample] + history;
      if |history| > width {
        history := history[..|history| - 1];
      }
    }

    /** After the loop: the line from the final point (x, y) to the newest
        sample, then the trailing wave of the whole history. */
    method DrawTrace(x: real, y: real, centerY: real) returns (trace: seq<Primitive>)
      ensures trace == TracePrimitives(settings, Point(x, y), history, centerY)
    {
      var link: Primitive;
      if history != [] {
        link := Line(Point(CenterX + x, centerY + y), Point(CenterX + WaveOffset, centerY + history[0]), settings.lineColor);
      } else {
        link := DanglingLine(Point(CenterX + x, centerY + y), CenterX + WaveOffset, settings.lineColor);
      }
      var wave := DrawWave(history, centerY, settings.waveColor);
      trace := [link, wave];
    }

    /** One frame. Without a canvas or context nothing happens. Otherwise the
        frame is cleared, the chain is drawn from the current time, its final
        height is pushed onto the history, the connector and the wave are
        drawn, time advances by one step, and the next frame is requested
        exactly when the animation runs. */
    method Animate(canvas: Option<Surface>) returns (frame: seq<Primitive>, rescheduled: bool)
      modifies this`history, this`time, this`formulaError
      ensures !Drawable(canvas) ==>
        frame == [] && !rescheduled
        && history == old(history) && time == old(time) && formulaError == old(formulaError)
      ensures Drawable(canvas) ==>
        var final := FinalPoint(lib, settings, formulaInput, old(time));
        && history == Push(old(history), final.y, canvas.value.width)
        && time == old(time) + TimeStep(settings)
        && formulaError == ErrorAfterLoop(lib, settings, formulaInput, old(time), HarmonicCount(settings), old(formulaError))
        && frame == FramePrimitives(lib, settings, formulaInput, old(time), canvas.value.width, canvas.value.height, history)
        && rescheduled == isRunning
    {
      if canvas.None? || !canvas.value.hasContext {
        return [], false;
      }
      var width := canvas.value.width;
      var height := canvas.value.height;
      var clear := ClearRect(width as real, height as real);
      var centerY := height as real / 2.0;

      ghost var segs := Chain(lib, settings, formulaInput, time, HarmonicCount(settings));
      var drawn, x, y := DrawChain(centerY);
      PushSample(y, width);
      var trace := DrawTrace(x, y, centerY);
      frame := [clear] + drawn + trace;
      assert frame == FrameOf(settings, segs, width, height, history) by {
        assert Point(x, y) == End(segs);
      }

      AdvanceTime();
      rescheduled := isRunning;
    }

    /** The time step at the end of every frame. */
    method AdvanceTime()
      modifies this`time
      ensures time == old(time) + TimeStep(settings)
    {
      time := time + 0.01 * settings.frequency * settings.speed;
    }

    /** A control changes a setting; the re-render then draws one frame, which
        also advances time whether or not the animation runs. */
    method ChangeSetting(c: Change, randomColor: nat -> string, canvas: Option<Surface>) returns (frame: seq<Primitive>, rescheduled: bool)
      modifies this`settings, this`history, this`time, this`formulaError
      ensures settings == HandleSettingChange(old(settings), c, randomColor)
      ensures !Drawable(canvas) ==>
        frame == [] && !rescheduled
        && history == old(history) && time == old(time) && formulaError == old(formulaError)
      ensures Drawable(canvas) ==>
        && history == Push(old(history), FinalPoint(lib, settings, formulaInput, old(time)).y, canvas.value.width)
        && time == old(time) + TimeStep(settings)
        && formulaError == ErrorAfterLoop(lib, settings, formulaInput, old(time), HarmonicCount(settings), old(formulaError))
        && frame == FramePrimitives(lib, settings, formulaInput, old(time), canvas.value.width, canvas.value.height, history)
        && rescheduled == isRunning
    {
      settings := HandleSettingChange(settings, c, randomColor);
      frame, rescheduled := Animate(canvas);
    }

    /** The formula text box changes; the re-render then draws one frame with the new formula. */
    method SetFormula(text: string, canvas: Option<Surface>) returns (frame: seq<Primitive>, rescheduled: bool)
      modifies this`formulaInput, this`history, this`time, this`formulaError
      ensures formulaInput == text
      ensures !Drawable(canvas) ==>
        frame == [] && !rescheduled
        && history == old(history) && time == old(time) && formulaError == old(formulaError)
      ensures Drawable(canvas) ==>
        && history == Push(old(history), FinalPoint(lib, settings, text, old(time)).y, canvas.value.width)
        && time == old(time) + TimeStep(settings)
        && formulaError == ErrorAfterLoop(lib, settings, text, old(time), HarmonicCount(settings), old(formulaError))
        && frame == FramePrimitives(lib, settings, text, old(time), canvas.value.width, canvas.value.height, history)
        && rescheduled == isRunning
    {
      formulaInput := text;
      frame, rescheduled := Animate(canvas);
    }

    /** The play/pause button: the flag flips, and a frame is requested exactly
        when the animation now runs; samples and time are left alone. */
    method Toggle() returns (scheduled: bool)
      modifies this`isRunning
      ensures isRunning == !old(isRunning)
      ensures scheduled == isRunning
    {
      isRunning := !isRunning;
      scheduled := isRunning;
    }
  }
}
