/**
  The drawing of one frame as the list of canvas primitives it emits, in the
  order the canvas receives them.
*/
module Drawing {
  import opened MathModel
  import opened Controls
  import opened Epicycles

  /** A canvas call. DanglingLine is a line whose far end is not a number: the
      connector drawn when the history is empty and its first sample is undefined. */
  datatype Primitive =
    | ClearRect(width: real, height: real)
    | StrokeCircle(center: Point, radius: real, color: string)
    | FillCircle(center: Point, radius: real, color: string)
    | Line(from: Point, to: Point, color: string)
    | DanglingLine(from: Point, toX: real, color: string)
    | Polyline(points: seq<Point>, color: string)

  /** The horizontal position of the chain's origin on the canvas. */
  const CenterX: real := 200.0
  /** How far right of the chain's origin the trailing wave starts. */
  const WaveOffset: real := 150.0
  /** The radius of the marker drawn on the final point. */
  const MarkerRadius: real := 2.0

  /** A chain point in canvas coordinates. */
  function OnCanvas(p: Point, centerY: real): Point {
    Point(CenterX + p.x, centerY + p.y)
  }

  /** `colors[i] || colors[0]`: an absent or empty entry falls back to the
      first colour; "" stands for undefined. */
  function CircleColor(colors: seq<string>, i: nat): (c: string)
    ensures i < |colors| && colors[i] != "" ==> c == colors[i]
    ensures !(i < |colors| && colors[i] != "") && |colors| > 0 ==> c == colors[0]
  {
    if i < |colors| && colors[i] != "" then colors[i]
    else if |colors| > 0 then colors[0]
    else ""
  }

  /** What one loop iteration draws: its circle if circles are shown, the
      vector's line, and on the last iteration the marker on its end. */
  function SegmentPrimitives(s: Settings, seg: Segment, centerY: real): seq<Primitive> {
    var from := OnCanvas(seg.start, centerY);
    var to := OnCanvas(seg.end, centerY);
    (if s.showCircles then [StrokeCircle(from, seg.radius, CircleColor(s.circleColors, seg.index))] else [])
    + [Line(from, to, s.lineColor)]
    + (if seg.index == s.numCircles - 1 then [FillCircle(to, MarkerRadius, s.lineColor)] else [])
  }

  /** What the whole loop draws, iteration by iteration. */
  function ChainPrimitives(s: Settings, segs: seq<Segment>, centerY: real): seq<Primitive>
    decreases |segs|
  {
    if segs == [] then []
    else ChainPrimitives(s, segs[..|segs| - 1], centerY) + SegmentPrimitives(s, segs[|segs| - 1], centerY)
  }

  /** Drawing one more vector appends that iteration's primitives. */
  lemma ChainPrimitivesSnoc(s: Settings, segs: seq<Segment>, seg: Segment, centerY: real)
    ensures ChainPrimitives(s, segs + [seg], centerY) == ChainPrimitives(s, segs, centerY) + SegmentPrimitives(s, seg, centerY)
  {
    assert (segs + [seg])[..|segs|] == segs;
  }

  /** The trailing wave: history sample i is drawn one pixel further right than sample i − 1. */
  function WavePoints(h: seq<real>, centerY: real): (pts: seq<Point>)
    ensures |pts| == |h|
  {
    seq(|h|, i requires 0 <= i < |h| => Point(CenterX + WaveOffset + i as real, centerY + h[i]))
  }

  /** The wave has one point per sample: it starts 150 pixels right of the
      chain's origin, each point sits at its sample's height and one pixel right
      of the point before. */
  lemma WaveLayout(h: seq<real>, centerY: real)
    ensures var pts := WavePoints(h, centerY);
      && |pts| == |h|
      && (pts != [] ==> pts[0].x == CenterX + WaveOffset)
      && (forall i :: 0 <= i < |h| ==> pts[i].y - centerY == h[i])
      && (forall i :: 0 < i < |h| ==> pts[i].x == pts[i - 1].x + 1.0)
  {
  }

  /** The line from the final point to the newest history sample. */
  function Connector(s: Settings, final: Point, h: seq<real>, centerY: real): (c: Primitive)
    ensures c.Line? <==> h != []
    ensures (c.Line? || c.DanglingLine?) && c.from == OnCanvas(final, centerY)
  {
    if h != [] then Line(OnCanvas(final, centerY), Point(CenterX + WaveOffset, centerY + h[0]), s.lineColor)
    else DanglingLine(OnCanvas(final, centerY), CenterX + WaveOffset, s.lineColor)
  }

  /** Everything a frame draws on a width × height canvas, given the history after the push. */
  function FramePrimitives(lib: MathLib, s: Settings, formula: string, t: real, width: nat, height: nat, h: seq<real>): seq<Primitive> {
    FrameOf(s, Chain(lib, s, formula, t, HarmonicCount(s)), width, height, h)
  }

  /** A frame drawn from the chain segs: clear, the loop's primitives, the trace. */
  function FrameOf(s: Settings, segs: seq<Segment>, width: nat, height: nat, h: seq<real>): seq<Primitive> {
    var centerY := height as real / 2.0;
    [ClearRect(width as real, height as real)]
    + ChainPrimitives(s, segs, centerY)
    + TracePrimitives(s, End(segs), h, centerY)
  }

  /** What a frame draws after the loop: the connector, then the trailing wave. */
  function TracePrimitives(s: Settings, final: Point, h: seq<real>, centerY: real): seq<Primitive> {
    [Connector(s, final, h, centerY), Polyline(WavePoints(h, centerY), s.waveColor)]
  }

  /** The kinds of primitive, to pick out the ones of one kind. */
  datatype Kind = ClearKind | StrokeKind | FillKind | LineKind | DanglingKind | PolylineKind

  function KindOf(p: Primitive): Kind {
    match p
    case ClearRect(_, _) => ClearKind
    case StrokeCircle(_, _, _) => StrokeKind
    case FillCircle(_, _, _) => FillKind
    case Line(_, _, _) => LineKind
    case DanglingLine(_, _, _) => DanglingKind
    case Polyline(_, _) => PolylineKind
  }

  /** The primitives of kind k, in drawing order. */
  function Select(ps: seq<Primitive>, k: Kind): (r: seq<Primitive>)
    decreases |ps|
  {
    if ps == [] then []
    else Select(ps[..|ps| - 1], k) + (if KindOf(ps[|ps| - 1]) == k then [ps[|ps| - 1]] else [])
  }

  lemma {:induction false} SelectAppend(a: seq<Primitive>, b: seq<Primitive>, k: Kind)
    ensures Select(a + b, k) == Select(a, k) + Select(b, k)
    decreases |b|
  {
    if b == [] {
      assert a + b == a;
    } else {
      var b' := b[..|b| - 1];
      assert (a + b)[..|a + b| - 1] == a + b';
      SelectAppend(a, b', k);
    }
  }

  lemma {:induction false} SelectOne(p: Primitive, k: Kind)
    ensures Select([p], k) == if KindOf(p) == k then [p] else []
  {
    assert [p][..0] == [];
  }

  /** Picking from an optional primitive gives it back exactly when it exists and has kind k. */
  lemma {:induction false} SelectOptional(present: bool, p: Primitive, k: Kind)
    ensures Select(if present then [p] else [], k) == if present && KindOf(p) == k then [p] else []
  {
    if present {
      SelectOne(p, k);
    }
  }

  /** Picking from three consecutive parts picks from each in turn. */
  lemma {:induction false} SelectThree(a: seq<Primitive>, b: seq<Primitive>, c: seq<Primitive>, k: Kind)
    ensures Select(a + b + c, k) == Select(a, k) + Select(b, k) + Select(c, k)
  {
    SelectAppend(a + b, c, k);
    SelectAppend(a, b, k);
  }

  /** One iteration's primitives of kind k: from its circle, its line and its marker, in that order. */
  lemma {:induction false} SegmentSelect(s: Settings, seg: Segment, centerY: real, k: Kind)
    ensures var from := OnCanvas(seg.start, centerY);
      var to := OnCanvas(seg.end, centerY);
      Select(SegmentPrimitives(s, seg, centerY), k) ==
        (if s.showCircles && k == StrokeKind then [StrokeCircle(from, seg.radius, CircleColor(s.circleColors, seg.index))] else [])
        + (if k == LineKind then [Line(from, to, s.lineColor)] else [])
        + (if seg.index == s.numCircles - 1 && k == FillKind then [FillCircle(to, MarkerRadius, s.lineColor)] else [])
  {
    var from := OnCanvas(seg.start, centerY);
    var to := OnCanvas(seg.end, centerY);
    var circle := StrokeCircle(from, seg.radius, CircleColor(s.circleColors, seg.index));
    var marker := FillCircle(to, MarkerRadius, s.lineColor);
    var l := Line(from, to, s.lineColor);
    var c: seq<Primitive> := if s.showCircles then [circle] else [];
    var m: seq<Primitive> := if seg.index == s.numCircles - 1 then [marker] else [];
    assert SegmentPrimitives(s, seg, centerY) == c + [l] + m;
    SelectThree(c, [l], m, k);
    SelectOptional(s.showCircles, circle, k);
    SelectOptional(true, l, k);
    SelectOptional(seg.index == s.numCircles - 1, marker, k);
  }

  /** The loop's primitives of kind k: those of the earlier iterations, then the last one's. */
  lemma {:induction false} ChainSelectStep(s: Settings, segs: seq<Segment>, centerY: real, k: Kind)
    requires segs != []
    ensures Select(ChainPrimitives(s, segs, centerY), k) ==
      Select(ChainPrimitives(s, segs[..|segs| - 1], centerY), k) + Select(SegmentPrimitives(s, segs[|segs| - 1], centerY), k)
  {
    SelectAppend(ChainPrimitives(s, segs[..|segs| - 1], centerY), SegmentPrimitives(s, segs[|segs| - 1], centerY), k);
  }

  /** The loop draws one line per vector, the i-th spanning vector i on the canvas. */
  lemma {:induction false} ChainLines(s: Settings, segs: seq<Segment>, centerY: real)
    ensures var ls := Select(ChainPrimitives(s, segs, centerY), LineKind);
      && |ls| == |segs|
      && forall i :: 0 <= i < |segs| ==>
           ls[i] == Line(OnCanvas(segs[i].start, centerY), OnCanvas(segs[i].end, centerY), s.lineColor)
    decreases |segs|
  {
    if segs != [] {
      var prev := segs[..|segs| - 1];
      var last := segs[|segs| - 1];
      var before := Select(ChainPrimitives(s, prev, centerY), LineKind);
      var line := Line(OnCanvas(last.start, centerY), OnCanvas(last.end, centerY), s.lineColor);
      var ls := Select(ChainPrimitives(s, segs, centerY), LineKind);
      assert ls == before + [line] by {
        ChainSelectStep(s, segs, centerY, LineKind);
        SegmentSelect(s, last, centerY, LineKind);
      }
      ChainLines(s, prev, centerY);
      forall i | 0 <= i < |segs|
        ensures ls[i] == Line(OnCanvas(segs[i].start, centerY), OnCanvas(segs[i].end, centerY), s.lineColor)
      {
        if i < |prev| {
          assert ls[i] == before[i] && segs[i] == prev[i];
        }
      }
    }
  }

  /** The loop draws one circle per vector when circles are shown, centred on its start, and none otherwise. */
  lemma {:induction false} ChainCircles(s: Settings, segs: seq<Segment>, centerY: real)
    ensures var cs := Select(ChainPrimitives(s, segs, centerY), StrokeKind);
      && |cs| == (if s.showCircles then |segs| else 0)
      && forall i :: 0 <= i < |cs| ==>
           cs[i] == StrokeCircle(OnCanvas(segs[i].start, centerY), segs[i].radius, CircleColor(s.circleColors, segs[i].index))
    decreases |segs|
  {
    if segs != [] {
      var prev := segs[..|segs| - 1];
      var last := segs[|segs| - 1];
      var before := Select(ChainPrimitives(s, prev, centerY), StrokeKind);
      var mine: seq<Primitive> := if s.showCircles then [StrokeCircle(OnCanvas(last.start, centerY), last.radius, CircleColor(s.circleColors, last.index))] else [];
      var cs := Select(ChainPrimitives(s, segs, centerY), StrokeKind);
      assert cs == before + mine by {
        ChainSelectStep(s, segs, centerY, StrokeKind);
        SegmentSelect(s, last, centerY, StrokeKind);
      }
      ChainCircles(s, prev, centerY);
      forall i | 0 <= i < |cs|
        ensures cs[i] == StrokeCircle(OnCanvas(segs[i].start, centerY), segs[i].radius, CircleColor(s.circleColors, segs[i].index))
      {
        if i < |before| {
          assert cs[i] == before[i] && segs[i] == prev[i];
        }
      }
    }
  }

  /** On a chain numbered 0, 1, … that is not longer than numCircles, the loop
      draws a marker only once it reaches the last vector, and then exactly one, on its end. */
  lemma {:induction false} ChainFills(s: Settings, segs: seq<Segment>, centerY: real)
    requires forall i :: 0 <= i < |segs| ==> segs[i].index == i
    requires |segs| <= HarmonicCount(s)
    ensures Select(ChainPrimitives(s, segs, centerY), FillKind) ==
      if segs != [] && |segs| == s.numCircles then [FillCircle(OnCanvas(End(segs), centerY), MarkerRadius, s.lineColor)] else []
    decreases |segs|
  {
    if segs != [] {
      var prev := segs[..|segs| - 1];
      var last := segs[|segs| - 1];
      var before := Select(ChainPrimitives(s, prev, centerY), FillKind);
      var mine: seq<Primitive> := if last.index == s.numCircles - 1 then [FillCircle(OnCanvas(last.end, centerY), MarkerRadius, s.lineColor)] else [];
      assert Select(ChainPrimitives(s, segs, centerY), FillKind) == before + mine by {
        ChainSelectStep(s, segs, centerY, FillKind);
        SegmentSelect(s, last, centerY, FillKind);
      }
      ChainFills(s, prev, centerY);
    }
  }

  /** After the loop a frame draws no circle and no marker, and one line, the connector, when the history is non-empty. */
  lemma {:induction false} TraceSelect(s: Settings, final: Point, h: seq<real>, centerY: real, k: Kind)
    ensures k == StrokeKind || k == FillKind || k == ClearKind ==> Select(TracePrimitives(s, final, h, centerY), k) == []
    ensures k == LineKind ==> Select(TracePrimitives(s, final, h, centerY), k) == if h != [] then [Connector(s, final, h, centerY)] else []
  {
    var a := Connector(s, final, h, centerY);
    var b := Polyline(WavePoints(h, centerY), s.waveColor);
    assert KindOf(a) == (if h != [] then LineKind else DanglingKind);
    calc {
      Select(TracePrimitives(s, final, h, centerY), k);
      Select([a] + [b], k);
      { SelectAppend([a], [b], k); }
      Select([a], k) + Select([b], k);
      { SelectOne(a, k); SelectOne(b, k); }
      (if KindOf(a) == k then [a] else []) + (if k == PolylineKind then [b] else []);
    }
  }

  /** Parts with nothing of kind k around a middle part leave just the middle's. */
  lemma {:induction false} SelectMiddle(a: seq<Primitive>, b: seq<Primitive>, c: seq<Primitive>, k: Kind)
    requires Select(a, k) == [] && Select(c, k) == []
    ensures Select(a + b + c, k) == Select(b, k)
  {
    SelectThree(a, b, c, k);
  }

  /** Circles and markers are drawn only inside the loop. */
  lemma {:induction false} FrameSelectChainOnly(s: Settings, segs: seq<Segment>, width: nat, height: nat, h: seq<real>, k: Kind)
    requires k == StrokeKind || k == FillKind
    ensures Select(FrameOf(s, segs, width, height, h), k) == Select(ChainPrimitives(s, segs, height as real / 2.0), k)
  {
    var centerY := height as real / 2.0;
    var clear := ClearRect(width as real, height as real);
    var chain := ChainPrimitives(s, segs, centerY);
    var trace := TracePrimitives(s, End(segs), h, centerY);
    calc {
      Select(FrameOf(s, segs, width, height, h), k);
      Select([clear] + chain + trace, k);
      { SelectOne(clear, k); TraceSelect(s, End(segs), h, centerY, k); SelectMiddle([clear], chain, trace, k); }
      Select(chain, k);
    }
  }

  /** Outside the loop a frame draws one line, the connector, after the loop's lines. */
  lemma {:induction false} FrameSelectLines(s: Settings, segs: seq<Segment>, width: nat, height: nat, h: seq<real>)
    ensures Select(FrameOf(s, segs, width, height, h), LineKind) ==
      Select(ChainPrimitives(s, segs, height as real / 2.0), LineKind)
      + (if h != [] then [Connector(s, End(segs), h, height as real / 2.0)] else [])
  {
    var centerY := height as real / 2.0;
    var clear := ClearRect(width as real, height as real);
    var chain := ChainPrimitives(s, segs, centerY);
    var trace := TracePrimitives(s, End(segs), h, centerY);
    calc {
      Select(FrameOf(s, segs, width, height, h), LineKind);
      Select([clear] + chain + trace, LineKind);
      { SelectThree([clear], chain, trace, LineKind); }
      Select([clear], LineKind) + Select(chain, LineKind) + Select(trace, LineKind);
      { SelectOne(clear, LineKind); TraceSelect(s, End(segs), h, centerY, LineKind); }
      [] + Select(chain, LineKind) + (if h != [] then [Connector(s, End(segs), h, centerY)] else []);
      Select(chain, LineKind) + (if h != [] then [Connector(s, End(segs), h, centerY)] else []);
    }
  }

  /** The lines a frame draws from any chain: one per vector, then the
      connector when the history is not empty (when it is, the connector has
      no far end and is not a proper line). */
  lemma {:induction false} FrameOfLines(s: Settings, segs: seq<Segment>, width: nat, height: nat, h: seq<real>)
    ensures var centerY := height as real / 2.0;
      var ls := Select(FrameOf(s, segs, width, height, h), LineKind);
      && |ls| == |segs| + (if h != [] then 1 else 0)
      && (forall i :: 0 <= i < |segs| ==>
            ls[i] == Line(OnCanvas(segs[i].start, centerY), OnCanvas(segs[i].end, centerY), s.lineColor))
      && (h != [] ==> ls[|segs|] == Connector(s, End(segs), h, centerY))
  {
    var centerY := height as real / 2.0;
    var ls := Select(FrameOf(s, segs, width, height, h), LineKind);
    var inLoop := Select(ChainPrimitives(s, segs, centerY), LineKind);
    var after: seq<Primitive> := if h != [] then [Connector(s, End(segs), h, centerY)] else [];
    assert ls == inLoop + after by {
      FrameSelectLines(s, segs, width, height, h);
    }
    ChainLines(s, segs, centerY);
    assert forall i :: 0 <= i < |segs| ==> ls[i] == inLoop[i];
  }

  /** The markers a frame draws from a chain numbered 0, 1, … of length at most numCircles. */
  lemma {:induction false} FrameOfMarker(s: Settings, segs: seq<Segment>, width: nat, height: nat, h: seq<real>)
    requires forall i :: 0 <= i < |segs| ==> segs[i].index == i
    requires |segs| <= HarmonicCount(s)
    ensures Select(FrameOf(s, segs, width, height, h), FillKind) ==
      if segs != [] && |segs| == s.numCircles then [FillCircle(OnCanvas(End(segs), height as real / 2.0), MarkerRadius, s.lineColor)] else []
  {
    var centerY := height as real / 2.0;
    FrameSelectChainOnly(s, segs, width, height, h, FillKind);
    assert Select(ChainPrimitives(s, segs, centerY), FillKind) ==
      if segs != [] && |segs| == s.numCircles then [FillCircle(OnCanvas(End(segs), centerY), MarkerRadius, s.lineColor)] else []
    by {
      ChainFills(s, segs, centerY);
    }
  }

  /** The circles a frame draws from any chain: one per vector when circles are shown. */
  lemma {:induction false} FrameOfCircles(s: Settings, segs: seq<Segment>, width: nat, height: nat, h: seq<real>)
    ensures var centerY := height as real / 2.0;
      var cs := Select(FrameOf(s, segs, width, height, h), StrokeKind);
      && |cs| == (if s.showCircles then |segs| else 0)
      && forall i :: 0 <= i < |cs| ==>
           cs[i] == StrokeCircle(OnCanvas(segs[i].start, centerY), segs[i].radius, CircleColor(s.circleColors, segs[i].index))
  {
    var centerY := height as real / 2.0;
    assert Select(FrameOf(s, segs, width, height, h), StrokeKind) == Select(ChainPrimitives(s, segs, centerY), StrokeKind) by {
      FrameSelectChainOnly(s, segs, width, height, h, StrokeKind);
    }
    ChainCircles(s, segs, centerY);
  }

  /** A frame draws exactly numCircles vector lines, the first from the chain's
      origin, each from where the one before ended and each as long as its
      harmonic's displacement, then, when the history is not empty, the
      connector from the final point. */
  lemma {:induction false} FrameLines(lib: MathLib, s: Settings, formula: string, t: real, width: nat, height: nat, h: seq<real>)
    ensures var centerY := height as real / 2.0;
      var ls := Select(FramePrimitives(lib, s, formula, t, width, height, h), LineKind);
      && |ls| == HarmonicCount(s) + (if h != [] then 1 else 0)
      && (forall i :: 0 <= i < |ls| ==> ls[i].Line?)
      && (HarmonicCount(s) > 0 ==> ls[0].from == OnCanvas(Origin, centerY))
      && (forall i :: 0 < i < HarmonicCount(s) ==> ls[i].from == ls[i - 1].to)
      && (forall i :: 0 <= i < HarmonicCount(s) ==>
            ls[i].to == Add(ls[i].from, Term(lib, s, formula, t, i)))
      && (h != [] ==> ls[HarmonicCount(s)] == Connector(s, FinalPoint(lib, s, formula, t), h, centerY))
  {
    var segs := Chain(lib, s, formula, t, HarmonicCount(s));
    ChainShape(lib, s, formula, t, HarmonicCount(s));
    FrameOfLines(s, segs, width, height, h);
  }

  /** A frame draws the filled marker once, on the final point, when there is
      at least one circle, and never otherwise. */
  lemma {:induction false} FrameMarker(lib: MathLib, s: Settings, formula: string, t: real, width: nat, height: nat, h: seq<real>)
    ensures Select(FramePrimitives(lib, s, formula, t, width, height, h), FillKind) ==
      if s.numCircles >= 1
      then [FillCircle(OnCanvas(FinalPoint(lib, s, formula, t), height as real / 2.0), MarkerRadius, s.lineColor)]
      else []
  {
    var segs := Chain(lib, s, formula, t, HarmonicCount(s));
    ChainShape(lib, s, formula, t, HarmonicCount(s));
    FrameOfMarker(s, segs, width, height, h);
  }

  /** A frame draws one circle per vector when circles are shown, the i-th
      centred where vector i starts with radius radius·4/((2i+1)·π). */
  lemma {:induction false} FrameCircles(lib: MathLib, s: Settings, formula: string, t: real, width: nat, height: nat, h: seq<real>)
    ensures var centerY := height as real / 2.0;
      var segs := Chain(lib, s, formula, t, HarmonicCount(s));
      var cs := Select(FramePrimitives(lib, s, formula, t, width, height, h), StrokeKind);
      && |segs| == HarmonicCount(s)
      && |cs| == (if s.showCircles then HarmonicCount(s) else 0)
      && forall i :: 0 <= i < |cs| ==>
           cs[i] == StrokeCircle(OnCanvas(segs[i].start, centerY), HarmonicRadius(s.radius, Harmonic(i)), CircleColor(s.circleColors, i))
  {
    var segs := Chain(lib, s, formula, t, HarmonicCount(s));
    ChainShape(lib, s, formula, t, HarmonicCount(s));
    FrameOfCircles(s, segs, width, height, h);
  }

  /** With a non-empty history the connector runs from the marker to the first point of the trailing wave. */
  lemma {:induction false} ConnectorMeetsWave(s: Settings, final: Point, h: seq<real>, centerY: real)
    requires h != []
    ensures var c := Connector(s, final, h, centerY);
      c.Line? && c.from == OnCanvas(final, centerY) && c.to == WavePoints(h, centerY)[0]
      && c.to == Point(CenterX + WaveOffset, centerY + h[0])
  {
  }
}
