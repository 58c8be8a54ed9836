/**
  The rolling buffer of past samples, newest first. Each frame puts the new
  sample at the front and drops at most one sample from the back when the
  buffer is longer than the canvas width.
*/
module History {
  import opened MathModel

  /** The buffer after one frame: unshift the sample, then pop once if too long. */
  function Push(h: seq<real>, sample: real, width: nat): (r: seq<real>)
    ensures |r| == if |h| >= width then |h| else |h| + 1
    ensures r != [] ==> r[0] == sample
    ensures forall i :: 0 < i < |r| ==> r[i] == h[i - 1]
    ensures r == [] <==> h == [] && width == 0
    ensures |h| <= width ==> |r| <= width
  {
    var pushed := [sample] + h;
    if |pushed| > width then pushed[..|pushed| - 1] else pushed
  }

  /** Only the oldest sample can leave: what remains is a prefix of sample :: h. */
  lemma PushDropsOnlyOldest(h: seq<real>, sample: real, width: nat)
    ensures Push(h, sample, width) == ([sample] + h)[..|Push(h, sample, width)|]
    ensures |h| <= |Push(h, sample, width)| <= |h| + 1
  {
  }

  /** The samples, most recent first. */
  function NewestFirst(xs: seq<real>): (r: seq<real>)
    ensures |r| == |xs|
    ensures forall i :: 0 <= i < |xs| ==> r[i] == xs[|xs| - 1 - i]
    decreases |xs|
  {
    if xs == [] then [] else [xs[|xs| - 1]] + NewestFirst(xs[..|xs| - 1])
  }

  /** The buffer after pushing xs[0], xs[1], … in that order, one per frame. */
  function PushAll(h: seq<real>, xs: seq<real>, width: nat): seq<real>
    decreases |xs|
  {
    if xs == [] then h else Push(PushAll(h, xs[..|xs| - 1], width), xs[|xs| - 1], width)
  }

  /** The buffer is always the newest samples followed by the old contents,
      cut to max(|h|, min(|h| + |xs|, width)): a buffer within the width fills up
      to the width and stays there, and one already longer keeps its length. */
  lemma {:induction false} PushAllWindow(h: seq<real>, xs: seq<real>, width: nat)
    ensures var n := Max(|h|, Min(|h| + |xs|, width));
      n <= |NewestFirst(xs) + h| && PushAll(h, xs, width) == (NewestFirst(xs) + h)[..n]
  {
    if xs != [] {
      var x := xs[|xs| - 1];
      var xs' := xs[..|xs| - 1];
      PushAllWindow(h, xs', width);
      var a := NewestFirst(xs') + h;
      var n' := Max(|h|, Min(|h| + |xs'|, width));
      var p := PushAll(h, xs', width);
      assert p == a[..n'];
      assert NewestFirst(xs) + h == [x] + a;
      var r := Push(p, x, width);
      var n := Max(|h|, Min(|h| + |xs|, width));
      assert |r| == n;
      assert [x] + a[..n'] == ([x] + a)[..n' + 1];
      PushDropsOnlyOldest(p, x, width);
      assert r == ([x] + p)[..n];
    }
  }

  /** Starting empty, after k pushes the buffer holds the min(k, width) newest
      samples, the latest one first. */
  lemma FromEmpty(xs: seq<real>, width: nat)
    ensures |PushAll([], xs, width)| == Min(|xs|, width)
    ensures xs != [] && width >= 1 ==> PushAll([], xs, width)[0] == xs[|xs| - 1]
    ensures forall i :: 0 <= i < |PushAll([], xs, width)| ==> PushAll([], xs, width)[i] == NewestFirst(xs)[i]
  {
    PushAllWindow([], xs, width);
    assert NewestFirst(xs) + [] == NewestFirst(xs);
  }

  /** A buffer within the width never grows past it, however many frames run. */
  lemma StaysWithinWidth(h: seq<real>, xs: seq<real>, width: nat)
    requires |h| <= width
    ensures |PushAll(h, xs, width)| <= width
  {
    PushAllWindow(h, xs, width);
  }

  /** A buffer longer than the width (say after the canvas shrank) is never cut
      back: each frame drops one sample and adds one, so its length stays put. */
  lemma LongerThanWidthKeepsLength(h: seq<real>, xs: seq<real>, width: nat)
    requires |h| > width
    ensures |PushAll(h, xs, width)| == |h|
  {
    PushAllWindow(h, xs, width);
  }
}
