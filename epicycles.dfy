/**
  The epicycle chain of one frame: `numCircles` rotating vectors, the i-th with
  odd harmonic n = 2i+1 and radius radius·4/(n·π), each starting where the
  previous one ended, the first at the origin.
*/
module Epicycles {
  import opened MathModel
  import opened Waveforms
  import opened Controls

  datatype Point = Point(x: real, y: real)

  const Origin: Point := Point(0.0, 0.0)

  function Add(p: Point, q: Point): Point {
    Point(p.x + q.x, p.y + q.y)
  }

  function Sub(p: Point, q: Point): Point {
    Point(p.x - q.x, p.y - q.y)
  }

  /** One rotating vector: its position in the chain, harmonic, radius and both ends. */
  datatype Segment = Segment(index: nat, n: int, radius: real, start: Point, end: Point)

  /** The harmonic of the i-th vector. */
  function Harmonic(i: nat): (n: int)
    ensures n >= 1 && n % 2 == 1
  {
    i * 2 + 1
  }

  /** The radius of harmonic n. */
  function HarmonicRadius(radius: real, n: int): real
    requires n >= 1
  {
    radius * (4.0 / (n as real * Pi))
  }

  /** How many times the loop runs: numCircles, or none when it is not positive. */
  function HarmonicCount(s: Settings): (k: nat)
    ensures s.numCircles >= 1 ==> k == s.numCircles
    ensures s.numCircles < 1 ==> k == 0
  {
    if s.numCircles > 0 then s.numCircles else 0
  }

  /** The displacement harmonic i contributes: (r·cos(n·t), r·wave(n, t)). */
  function Term(lib: MathLib, s: Settings, formula: string, t: real, i: nat): Point {
    var n := Harmonic(i);
    var r := HarmonicRadius(s.radius, n);
    Point(r * Cos(lib, Phase(n, t)), r * Value(lib, s.waveform, formula, n, t))
  }

  /** Where a chain ends; an empty chain ends at the origin. */
  function End(segs: seq<Segment>): Point {
    if segs == [] then Origin else segs[|segs| - 1].end
  }

  /** The first k vectors of the chain at angular time t. */
  function Chain(lib: MathLib, s: Settings, formula: string, t: real, k: nat): (segs: seq<Segment>)
    ensures |segs| == k
    decreases k
  {
    if k == 0 then []
    else
      var prev := Chain(lib, s, formula, t, k - 1);
      var n := Harmonic(k - 1);
      var start := End(prev);
      prev + [Segment(k - 1, n, HarmonicRadius(s.radius, n), start, Add(start, Term(lib, s, formula, t, k - 1)))]
  }

  /** Harmonic i's displacement as the loop computes it: its radius times the
      cosine of the phase across, and times the mode's amplitude up. */
  lemma TermAt(lib: MathLib, s: Settings, formula: string, t: real, i: nat, n: int, phase: real, w: real)
    requires n == Harmonic(i) && phase == Phase(n, t)
    requires w == Value(lib, s.waveform, formula, n, t)
    ensures Term(lib, s, formula, t, i) == Point(HarmonicRadius(s.radius, n) * Cos(lib, phase), HarmonicRadius(s.radius, n) * w)
  {
  }

  /** The point the whole chain reaches: the frame's sample is its y coordinate. */
  function FinalPoint(lib: MathLib, s: Settings, formula: string, t: real): Point {
    End(Chain(lib, s, formula, t, HarmonicCount(s)))
  }

  /** Every vector's end is its start plus its own displacement. */
  predicate Spans(lib: MathLib, s: Settings, formula: string, t: real, segs: seq<Segment>) {
    forall i :: 0 <= i < |segs| ==>
      && segs[i].index == i
      && segs[i].n == Harmonic(i)
      && segs[i].radius == HarmonicRadius(s.radius, Harmonic(i))
      && segs[i].end == Add(segs[i].start, Term(lib, s, formula, t, i))
  }

  /** The first vector starts at the origin and each later one where the previous ended. */
  predicate Linked(segs: seq<Segment>) {
    && (segs != [] ==> segs[0].start == Origin)
    && (forall i :: 0 < i < |segs| ==> segs[i].start == segs[i - 1].end)
  }

  /** The chain has exactly k vectors, the i-th with harmonic 2i+1 and radius
      radius·4/(n·π), starting at the origin and linked end to start. */
  lemma {:induction false} ChainShape(lib: MathLib, s: Settings, formula: string, t: real, k: nat)
    ensures var segs := Chain(lib, s, formula, t, k);
      |segs| == k && Spans(lib, s, formula, t, segs) && Linked(segs)
  {
    if k > 0 {
      ChainShape(lib, s, formula, t, k - 1);
      var prev := Chain(lib, s, formula, t, k - 1);
      var segs := Chain(lib, s, formula, t, k);
      assert segs[..k - 1] == prev;
      assert segs[k - 1].start == End(prev);
    }
  }

  /** Adding vectors does not move the earlier ones: a longer chain extends a shorter one. */
  lemma {:induction false} ChainExtends(lib: MathLib, s: Settings, formula: string, t: real, j: nat, k: nat)
    requires j <= k
    ensures j <= |Chain(lib, s, formula, t, k)| && Chain(lib, s, formula, t, k)[..j] == Chain(lib, s, formula, t, j)
  {
    ChainShape(lib, s, formula, t, k);
    if j < k {
      ChainExtends(lib, s, formula, t, j, k - 1);
      ChainShape(lib, s, formula, t, k - 1);
      var prev := Chain(lib, s, formula, t, k - 1);
      assert Chain(lib, s, formula, t, k)[..j] == prev[..j];
    }
  }

  /** Σ over i < k of harmonic i's displacement. */
  function SumOfTerms(lib: MathLib, s: Settings, formula: string, t: real, k: nat): Point
    decreases k
  {
    if k == 0 then Origin else Add(SumOfTerms(lib, s, formula, t, k - 1), Term(lib, s, formula, t, k - 1))
  }

  /** The final point is the sum over the harmonics of (rᵢ·cos(nᵢ·t), rᵢ·wave(nᵢ, t)). */
  lemma {:induction false} FinalPointIsSum(lib: MathLib, s: Settings, formula: string, t: real, k: nat)
    ensures End(Chain(lib, s, formula, t, k)) == SumOfTerms(lib, s, formula, t, k)
  {
    if k > 0 {
      FinalPointIsSum(lib, s, formula, t, k - 1);
    }
  }

  /** Σ of the vectors' own extents, end − start. */
  function SumOfSpans(segs: seq<Segment>): Point
    decreases |segs|
  {
    if segs == [] then Origin
    else Add(SumOfSpans(segs[..|segs| - 1]), Sub(segs[|segs| - 1].end, segs[|segs| - 1].start))
  }

  /** For any chain linked end to start from the origin, the vectors' extents add up to its end. */
  lemma {:induction false} SpansTelescope(segs: seq<Segment>)
    requires Linked(segs)
    ensures SumOfSpans(segs) == End(segs)
  {
    if segs != [] {
      var prev := segs[..|segs| - 1];
      assert Linked(prev);
      SpansTelescope(prev);
    }
  }

  /** The frame's chain: numCircles vectors whose extents sum to the final point. */
  lemma FrameChain(lib: MathLib, s: Settings, formula: string, t: real)
    ensures var segs := Chain(lib, s, formula, t, HarmonicCount(s));
      && |segs| == HarmonicCount(s)
      && SumOfSpans(segs) == FinalPoint(lib, s, formula, t)
      && FinalPoint(lib, s, formula, t) == SumOfTerms(lib, s, formula, t, HarmonicCount(s))
  {
    ChainShape(lib, s, formula, t, HarmonicCount(s));
    SpansTelescope(Chain(lib, s, formula, t, HarmonicCount(s)));
    FinalPointIsSum(lib, s, formula, t, HarmonicCount(s));
  }

  /** One sine harmonic of base radius R at time t ends at (R·4/π·cos t, R·4/π·sin t). */
  lemma SingleSineHarmonic(lib: MathLib, s: Settings, formula: string, t: real)
    requires s.numCircles == 1 && s.waveform == "sine"
    ensures FinalPoint(lib, s, formula, t) ==
      Point(s.radius * (4.0 / Pi) * Cos(lib, t), s.radius * (4.0 / Pi) * lib.sin(t))
  {
    var r := HarmonicRadius(s.radius, 1);
    assert r == s.radius * (4.0 / Pi);
    assert Phase(1, t) == t;
    assert Term(lib, s, formula, t, 0) == Point(r * Cos(lib, t), r * lib.sin(t));
    assert Chain(lib, s, formula, t, 1) == [Segment(0, 1, r, Origin, Add(Origin, Term(lib, s, formula, t, 0)))];
  }
}
