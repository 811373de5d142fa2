/** Two-dimensional sample planes as values, and the value view of an `array2`. */
module Planes {

  /** A plane of samples indexed `p[x][y]`: `x` runs along the first dimension
      (the "width" of the convolution routines), `y` along the second. */
  type Plane = seq<seq<real>>

  /** `p` is exactly a `w` by `h` rectangle. */
  predicate IsGrid(p: Plane, w: nat, h: nat) {
    |p| == w && forall x :: 0 <= x < w ==> |p[x]| == h
  }

  /** `p` holds at least the `w` by `h` rectangle anchored at the origin. */
  predicate Covers(p: Plane, w: nat, h: nat) {
    w <= |p| && forall x :: 0 <= x < w ==> h <= |p[x]|
  }

  /** The `w` by `h` plane whose every sample is zero. */
  function Zeros(w: nat, h: nat): (r: Plane)
    ensures IsGrid(r, w, h)
  {
    seq(w, _ => seq(h, _ => 0.0))
  }

  /** The contents of an array, read as a plane. */
  ghost function Grid(a: array2<real>): (g: Plane)
    reads a
    ensures IsGrid(g, a.Length0, a.Length1)
    ensures forall x, y :: 0 <= x < a.Length0 && 0 <= y < a.Length1 ==> g[x][y] == a[x, y]
  {
    seq(a.Length0, x requires 0 <= x < a.Length0 reads a =>
      seq(a.Length1, y requires 0 <= y < a.Length1 reads a => a[x, y]))
  }

  /** Two rectangles of the same size with the same samples are the same plane. */
  lemma {:induction false} GridExtensionality(p: Plane, q: Plane, w: nat, h: nat)
    requires IsGrid(p, w, h) && IsGrid(q, w, h)
    requires forall x, y :: 0 <= x < w && 0 <= y < h ==> p[x][y] == q[x][y]
    ensures p == q
  {
    forall x | 0 <= x < w
      ensures p[x] == q[x]
    {
      assert forall y :: 0 <= y < h ==> p[x][y] == q[x][y];
    }
  }
}
