/** The convolution engine as values: the window sum at one anchor, the "valid"
    plane, the zero-padded plane of the input's size, repeated application and
    the sum of three channel planes. The methods of module EdgeDetection are
    proved against these functions. */
module Correlation {
  import opened Planes

  /** Σ_{j<n} p[x+i][y+j] * k[i][j]: the first `n` terms of row `i` of the
      window anchored at (x, y). */
  function RowSum(p: Plane, x: nat, y: nat, k: Plane, i: nat, n: nat): real
    requires x + i < |p| && y + n <= |p[x + i]|
    requires i < |k| && n <= |k[i]|
  {
    if n == 0 then 0.0
    else RowSum(p, x, y, k, i, n - 1) + p[x + i][y + n - 1] * k[i][n - 1]
  }

  /** Σ_{i<m} Σ_{j<kh} p[x+i][y+j] * k[i][j]: the first `m` rows of the window
      anchored at (x, y). The kernel is not flipped: this is correlation. */
  function WindowSum(p: Plane, x: nat, y: nat, k: Plane, m: nat, kh: nat): real
    requires Covers(p, x + m, y + kh) && Covers(k, m, kh)
  {
    if m == 0 then 0.0
    else WindowSum(p, x, y, k, m - 1, kh) + RowSum(p, x, y, k, m - 1, kh)
  }

  /** Σ_{j<n} k[i][j]. */
  function RowTotal(k: Plane, i: nat, n: nat): real
    requires i < |k| && n <= |k[i]|
  {
    if n == 0 then 0.0 else RowTotal(k, i, n - 1) + k[i][n - 1]
  }

  /** Σ_{i<m} Σ_{j<kh} k[i][j]: the sum of a kernel's weights. */
  function KernelTotal(k: Plane, m: nat, kh: nat): real
    requires Covers(k, m, kh)
  {
    if m == 0 then 0.0 else KernelTotal(k, m - 1, kh) + RowTotal(k, m - 1, kh)
  }

  /** The valid plane: the window sum at every anchor where a `kw` by `kh`
      kernel lies wholly inside the `w` by `h` plane. */
  function ValidPlane(p: Plane, w: nat, h: nat, k: Plane, kw: nat, kh: nat): (r: Plane)
    requires 1 <= kw <= w && 1 <= kh <= h
    requires Covers(p, w, h) && Covers(k, kw, kh)
    ensures IsGrid(r, w - kw + 1, h - kh + 1)
  {
    seq(w - kw + 1, i requires 0 <= i < w - kw + 1 =>
      seq(h - kh + 1, j requires 0 <= j < h - kh + 1 => WindowSum(p, i, j, k, kw, kh)))
  }

  /** Cell (x, y) lies in the rectangle that the padded convolution fills: it
      starts at (kw/2, kh/2) and has the valid plane's size. */
  predicate InCentre(x: int, y: int, w: nat, h: nat, kw: nat, kh: nat) {
    kw / 2 <= x < kw / 2 + (w - kw + 1) && kh / 2 <= y < kh / 2 + (h - kh + 1)
  }

  /** `small` (its top-left `sw` by `sh` part) placed into a `w` by `h` plane
      of zeros with its origin at (left, top). */
  function Pad(small: Plane, sw: nat, sh: nat, w: nat, h: nat, left: nat, top: nat): (r: Plane)
    requires Covers(small, sw, sh) && left + sw <= w && top + sh <= h
    ensures IsGrid(r, w, h)
  {
    seq(w, x requires 0 <= x < w =>
      seq(h, y requires 0 <= y < h =>
        if left <= x < left + sw && top <= y < top + sh then small[x - left][y - top] else 0.0))
  }

  /** The padded plane: `w` by `h`, the valid plane copied in at offset
      (kw/2, kh/2), zero everywhere else. */
  function PaddedPlane(p: Plane, w: nat, h: nat, k: Plane, kw: nat, kh: nat): (r: Plane)
    requires 1 <= kw <= w && 1 <= kh <= h
    requires Covers(p, w, h) && Covers(k, kw, kh)
    ensures IsGrid(r, w, h)
  {
    Pad(ValidPlane(p, w, h, k, kw, kh), w - kw + 1, h - kh + 1, w, h, kw / 2, kh / 2)
  }

  /** `n` padded convolutions with the same kernel, each applied to the
      previous one's output. */
  function Iterated(p: Plane, w: nat, h: nat, k: Plane, kw: nat, kh: nat, n: nat): (r: Plane)
    requires 1 <= kw <= w && 1 <= kh <= h
    requires Covers(p, w, h) && Covers(k, kw, kh)
    ensures Covers(r, w, h)
    ensures n > 0 ==> IsGrid(r, w, h)
    decreases n
  {
    if n == 0 then p
    else PaddedPlane(Iterated(p, w, h, k, kw, kh, n - 1), w, h, k, kw, kh)
  }

  /** The cell-by-cell sum of three channel planes over a `w` by `h` rectangle. */
  function ChannelSum(r: Plane, g: Plane, b: Plane, w: nat, h: nat): (s: Plane)
    requires Covers(r, w, h) && Covers(g, w, h) && Covers(b, w, h)
    ensures IsGrid(s, w, h)
  {
    seq(w, x requires 0 <= x < w =>
      seq(h, y requires 0 <= y < h => r[x][y] + g[x][y] + b[x][y]))
  }

  /** The 3 by 3 vertical gradient kernel that the program applies; its
      weights cancel. */
  function VerticalFilter(): (k: Plane)
    ensures IsGrid(k, 3, 3) && KernelTotal(k, 3, 3) == 0.0
  {
    [[-1.0, 0.0, 1.0], [-1.0, 0.0, 1.0], [-1.0, 0.0, 1.0]]
  }

  // ---------------------------------------------------------------------------
  // The window sum reads only the window

  lemma {:induction false} RowSumLocal(p: Plane, q: Plane, x: nat, y: nat, k: Plane, i: nat, n: nat)
    requires x + i < |p| && y + n <= |p[x + i]| && x + i < |q| && y + n <= |q[x + i]|
    requires i < |k| && n <= |k[i]|
    requires forall u, v :: u == x + i && y <= v < y + n ==> p[u][v] == q[u][v]
    ensures RowSum(p, x, y, k, i, n) == RowSum(q, x, y, k, i, n)
  {
    if n > 0 {
      RowSumLocal(p, q, x, y, k, i, n - 1);
    }
  }

  /** Two planes that agree on the window anchored at (x, y) have the same
      window sum there: the sum reads no cell outside the window. */
  lemma {:induction false} WindowSumLocal(p: Plane, q: Plane, x: nat, y: nat, k: Plane, kw: nat, kh: nat)
    requires Covers(p, x + kw, y + kh) && Covers(q, x + kw, y + kh) && Covers(k, kw, kh)
    requires forall u, v :: x <= u < x + kw && y <= v < y + kh ==> p[u][v] == q[u][v]
    ensures WindowSum(p, x, y, k, kw, kh) == WindowSum(q, x, y, k, kw, kh)
  {
    if kw > 0 {
      WindowSumLocal(p, q, x, y, k, kw - 1, kh);
      RowSumLocal(p, q, x, y, k, kw - 1, kh);
    }
  }

  // ---------------------------------------------------------------------------
  // Linearity in the plane

  lemma {:induction false} RowSumAdd(s: Plane, a: Plane, b: Plane, c: Plane, x: nat, y: nat, k: Plane, i: nat, n: nat)
    requires x + i < |s| && y + n <= |s[x + i]|
    requires x + i < |a| && y + n <= |a[x + i]|
    requires x + i < |b| && y + n <= |b[x + i]|
    requires x + i < |c| && y + n <= |c[x + i]|
    requires i < |k| && n <= |k[i]|
    requires forall u, v :: u == x + i && y <= v < y + n ==> s[u][v] == a[u][v] + b[u][v] + c[u][v]
    ensures RowSum(s, x, y, k, i, n)
         == RowSum(a, x, y, k, i, n) + RowSum(b, x, y, k, i, n) + RowSum(c, x, y, k, i, n)
  {
    if n > 0 {
      RowSumAdd(s, a, b, c, x, y, k, i, n - 1);
      var v, w := y + n - 1, k[i][n - 1];
      assert s[x + i][v] * w == a[x + i][v] * w + b[x + i][v] * w + c[x + i][v] * w;
    }
  }

  /** The window sum of a cell-by-cell sum of three planes is the sum of
      their window sums. */
  lemma {:induction false} WindowSumAdd(s: Plane, a: Plane, b: Plane, c: Plane, x: nat, y: nat, k: Plane, kw: nat, kh: nat)
    requires Covers(s, x + kw, y + kh) && Covers(a, x + kw, y + kh)
    requires Covers(b, x + kw, y + kh) && Covers(c, x + kw, y + kh)
    requires Covers(k, kw, kh)
    requires forall u, v :: x <= u < x + kw && y <= v < y + kh ==> s[u][v] == a[u][v] + b[u][v] + c[u][v]
    ensures WindowSum(s, x, y, k, kw, kh)
         == WindowSum(a, x, y, k, kw, kh) + WindowSum(b, x, y, k, kw, kh) + WindowSum(c, x, y, k, kw, kh)
  {
    if kw > 0 {
      WindowSumAdd(s, a, b, c, x, y, k, kw - 1, kh);
      RowSumAdd(s, a, b, c, x, y, k, kw - 1, kh);
    }
  }

  // ---------------------------------------------------------------------------
  // Constant planes and all-zero kernels

  lemma {:induction false} RowSumOfConstant(p: Plane, x: nat, y: nat, k: Plane, i: nat, n: nat, c: real)
    requires x + i < |p| && y + n <= |p[x + i]|
    requires i < |k| && n <= |k[i]|
    requires forall u, v :: u == x + i && y <= v < y + n ==> p[u][v] == c
    ensures RowSum(p, x, y, k, i, n) == c * RowTotal(k, i, n)
  {
    if n > 0 {
      RowSumOfConstant(p, x, y, k, i, n - 1, c);
    }
  }

  /** On a window whose samples all equal `c`, the window sum is `c` times
      the sum of the kernel's weights. */
  lemma {:induction false} WindowSumOfConstant(p: Plane, x: nat, y: nat, k: Plane, kw: nat, kh: nat, c: real)
    requires Covers(p, x + kw, y + kh) && Covers(k, kw, kh)
    requires forall u, v :: x <= u < x + kw && y <= v < y + kh ==> p[u][v] == c
    ensures WindowSum(p, x, y, k, kw, kh) == c * KernelTotal(k, kw, kh)
  {
    if kw > 0 {
      WindowSumOfConstant(p, x, y, k, kw - 1, kh, c);
      RowSumOfConstant(p, x, y, k, kw - 1, kh, c);
    }
  }

  lemma {:induction false} RowSumZeroKernel(p: Plane, x: nat, y: nat, k: Plane, i: nat, n: nat)
    requires x + i < |p| && y + n <= |p[x + i]|
    requires i < |k| && n <= |k[i]|
    requires forall j :: 0 <= j < n ==> k[i][j] == 0.0
    ensures RowSum(p, x, y, k, i, n) == 0.0
  {
    if n > 0 {
      RowSumZeroKernel(p, x, y, k, i, n - 1);
    }
  }

  /** A kernel whose weights are all zero gives a zero window sum. */
  lemma {:induction false} WindowSumZeroKernel(p: Plane, x: nat, y: nat, k: Plane, kw: nat, kh: nat)
    requires Covers(p, x + kw, y + kh) && Covers(k, kw, kh)
    requires forall i, j :: 0 <= i < kw && 0 <= j < kh ==> k[i][j] == 0.0
    ensures WindowSum(p, x, y, k, kw, kh) == 0.0
  {
    if kw > 0 {
      WindowSumZeroKernel(p, x, y, k, kw - 1, kh);
      RowSumZeroKernel(p, x, y, k, kw - 1, kh);
    }
  }

  // ---------------------------------------------------------------------------
  // Layout of the padded plane

  /** The padded plane has the input's size; its cell (i + kw/2, j + kh/2)
      is the valid plane's cell (i, j), the window sum at (i, j); every cell
      outside that centred rectangle is zero. */
  lemma PaddedPlaneLayout(p: Plane, w: nat, h: nat, k: Plane, kw: nat, kh: nat)
    requires 1 <= kw <= w && 1 <= kh <= h
    requires Covers(p, w, h) && Covers(k, kw, kh)
    ensures IsGrid(PaddedPlane(p, w, h, k, kw, kh), w, h)
    ensures kw / 2 + (w - kw + 1) <= w && kh / 2 + (h - kh + 1) <= h
    ensures forall i, j :: 0 <= i < w - kw + 1 && 0 <= j < h - kh + 1 ==>
      PaddedPlane(p, w, h, k, kw, kh)[i + kw / 2][j + kh / 2] == ValidPlane(p, w, h, k, kw, kh)[i][j]
                                                            == WindowSum(p, i, j, k, kw, kh)
    ensures forall x, y :: 0 <= x < w && 0 <= y < h && !InCentre(x, y, w, h, kw, kh) ==>
      PaddedPlane(p, w, h, k, kw, kh)[x][y] == 0.0
  {
  }

  // ---------------------------------------------------------------------------
  // Behaviour on particular kernels and planes

  /** An all-zero kernel gives an all-zero valid plane and an all-zero padded
      plane of the input's size. */
  lemma ZeroKernelGivesZeroPlane(p: Plane, w: nat, h: nat, k: Plane, kw: nat, kh: nat)
    requires 1 <= kw <= w && 1 <= kh <= h
    requires Covers(p, w, h) && Covers(k, kw, kh)
    requires forall i, j :: 0 <= i < kw && 0 <= j < kh ==> k[i][j] == 0.0
    ensures ValidPlane(p, w, h, k, kw, kh) == Zeros(w - kw + 1, h - kh + 1)
    ensures PaddedPlane(p, w, h, k, kw, kh) == Zeros(w, h)
  {
    var small := ValidPlane(p, w, h, k, kw, kh);
    forall i, j | 0 <= i < w - kw + 1 && 0 <= j < h - kh + 1
      ensures small[i][j] == 0.0
    {
      WindowSumZeroKernel(p, i, j, k, kw, kh);
    }
    GridExtensionality(small, Zeros(w - kw + 1, h - kh + 1), w - kw + 1, h - kh + 1);
    var large := PaddedPlane(p, w, h, k, kw, kh);
    forall x, y | 0 <= x < w && 0 <= y < h
      ensures large[x][y] == 0.0
    {
      if InCentre(x, y, w, h, kw, kh) {
        assert large[x][y] == small[x - kw / 2][y - kh / 2];
      }
    }
    GridExtensionality(large, Zeros(w, h), w, h);
  }

  /** The vertical gradient kernel on a plane of one constant value gives an
      all-zero valid plane and an all-zero padded plane. */
  lemma VerticalFilterOnFlatPlane(p: Plane, w: nat, h: nat, c: real)
    requires 3 <= w && 3 <= h && IsGrid(p, w, h)
    requires forall x, y :: 0 <= x < w && 0 <= y < h ==> p[x][y] == c
    ensures Covers(VerticalFilter(), 3, 3)
    ensures ValidPlane(p, w, h, VerticalFilter(), 3, 3) == Zeros(w - 2, h - 2)
    ensures PaddedPlane(p, w, h, VerticalFilter(), 3, 3) == Zeros(w, h)
  {
    var small := ValidPlane(p, w, h, VerticalFilter(), 3, 3);
    forall i, j | 0 <= i < w - 2 && 0 <= j < h - 2
      ensures small[i][j] == 0.0
    {
      WindowSumOfConstant(p, i, j, VerticalFilter(), 3, 3, c);
    }
    GridExtensionality(small, Zeros(w - 2, h - 2), w - 2, h - 2);
    var large := PaddedPlane(p, w, h, VerticalFilter(), 3, 3);
    forall x, y | 0 <= x < w && 0 <= y < h
      ensures large[x][y] == 0.0
    {
      if InCentre(x, y, w, h, 3, 3) {
        assert large[x][y] == small[x - 1][y - 1];
      }
    }
    GridExtensionality(large, Zeros(w, h), w, h);
  }

  /** A 1 by 1 kernel [[c]] scales every sample by `c`, and padding adds no
      border: the padded plane is the valid plane. */
  lemma OneByOneKernel(p: Plane, w: nat, h: nat, c: real)
    requires 1 <= w && 1 <= h && IsGrid(p, w, h)
    ensures IsGrid(ValidPlane(p, w, h, [[c]], 1, 1), w, h)
    ensures forall x, y :: 0 <= x < w && 0 <= y < h ==> ValidPlane(p, w, h, [[c]], 1, 1)[x][y] == p[x][y] * c
    ensures PaddedPlane(p, w, h, [[c]], 1, 1) == ValidPlane(p, w, h, [[c]], 1, 1)
  {
    var k: Plane := [[c]];
    forall x, y | 0 <= x < w && 0 <= y < h
      ensures ValidPlane(p, w, h, k, 1, 1)[x][y] == p[x][y] * c
    {
      assert WindowSum(p, x, y, k, 1, 1) == WindowSum(p, x, y, k, 0, 1) + RowSum(p, x, y, k, 0, 1);
      assert RowSum(p, x, y, k, 0, 1) == RowSum(p, x, y, k, 0, 0) + p[x][y] * c;
    }
    GridExtensionality(PaddedPlane(p, w, h, [[c]], 1, 1), ValidPlane(p, w, h, [[c]], 1, 1), w, h);
  }

  /** The kernel [[1]] is the identity of both the valid and the padded
      convolution. */
  lemma IdentityKernel(p: Plane, w: nat, h: nat)
    requires 1 <= w && 1 <= h && IsGrid(p, w, h)
    ensures ValidPlane(p, w, h, [[1.0]], 1, 1) == p
    ensures PaddedPlane(p, w, h, [[1.0]], 1, 1) == p
  {
    OneByOneKernel(p, w, h, 1.0);
    GridExtensionality(ValidPlane(p, w, h, [[1.0]], 1, 1), p, w, h);
  }

  // ---------------------------------------------------------------------------
  // Iteration

  /** Zero iterations leave the plane as it is; one is a single padded
      convolution. */
  lemma IteratedZeroAndOne(p: Plane, w: nat, h: nat, k: Plane, kw: nat, kh: nat)
    requires 1 <= kw <= w && 1 <= kh <= h
    requires Covers(p, w, h) && Covers(k, kw, kh)
    ensures Iterated(p, w, h, k, kw, kh, 0) == p
    ensures Iterated(p, w, h, k, kw, kh, 1) == PaddedPlane(p, w, h, k, kw, kh)
  {
  }

  /** `n` iterations after `m` iterations are `m + n` iterations. */
  lemma {:induction false} IteratedCompose(p: Plane, w: nat, h: nat, k: Plane, kw: nat, kh: nat, m: nat, n: nat)
    requires 1 <= kw <= w && 1 <= kh <= h
    requires Covers(p, w, h) && Covers(k, kw, kh)
    ensures Iterated(Iterated(p, w, h, k, kw, kh, m), w, h, k, kw, kh, n) == Iterated(p, w, h, k, kw, kh, m + n)
  {
    if n > 0 {
      IteratedCompose(p, w, h, k, kw, kh, m, n - 1);
    }
  }

  /** The valid convolution distributes over the sum of three channels. */
  lemma ValidChannelSum(a: Plane, b: Plane, c: Plane, w: nat, h: nat, k: Plane, kw: nat, kh: nat)
    requires 1 <= kw <= w && 1 <= kh <= h
    requires Covers(a, w, h) && Covers(b, w, h) && Covers(c, w, h) && Covers(k, kw, kh)
    ensures ValidPlane(ChannelSum(a, b, c, w, h), w, h, k, kw, kh)
         == ChannelSum(ValidPlane(a, w, h, k, kw, kh), ValidPlane(b, w, h, k, kw, kh),
                       ValidPlane(c, w, h, k, kw, kh), w - kw + 1, h - kh + 1)
  {
    var s := ChannelSum(a, b, c, w, h);
    var lhs := ValidPlane(s, w, h, k, kw, kh);
    var rhs := ChannelSum(ValidPlane(a, w, h, k, kw, kh), ValidPlane(b, w, h, k, kw, kh),
                          ValidPlane(c, w, h, k, kw, kh), w - kw + 1, h - kh + 1);
    forall i, j | 0 <= i < w - kw + 1 && 0 <= j < h - kh + 1
      ensures lhs[i][j] == rhs[i][j]
    {
      WindowSumAdd(s, a, b, c, i, j, k, kw, kh);
    }
    GridExtensionality(lhs, rhs, w - kw + 1, h - kh + 1);
  }

  /** Padding distributes over the sum of three planes. */
  lemma PadChannelSum(a: Plane, b: Plane, c: Plane, sw: nat, sh: nat, w: nat, h: nat, left: nat, top: nat)
    requires Covers(a, sw, sh) && Covers(b, sw, sh) && Covers(c, sw, sh)
    requires left + sw <= w && top + sh <= h
    ensures Pad(ChannelSum(a, b, c, sw, sh), sw, sh, w, h, left, top)
         == ChannelSum(Pad(a, sw, sh, w, h, left, top), Pad(b, sw, sh, w, h, left, top),
                       Pad(c, sw, sh, w, h, left, top), w, h)
  {
    var lhs := Pad(ChannelSum(a, b, c, sw, sh), sw, sh, w, h, left, top);
    var rhs := ChannelSum(Pad(a, sw, sh, w, h, left, top), Pad(b, sw, sh, w, h, left, top),
                          Pad(c, sw, sh, w, h, left, top), w, h);
    GridExtensionality(lhs, rhs, w, h);
  }

  /** Padded convolution distributes over the sum of three channels. */
  lemma PaddedChannelSum(a: Plane, b: Plane, c: Plane, w: nat, h: nat, k: Plane, kw: nat, kh: nat)
    requires 1 <= kw <= w && 1 <= kh <= h
    requires Covers(a, w, h) && Covers(b, w, h) && Covers(c, w, h) && Covers(k, kw, kh)
    ensures PaddedPlane(ChannelSum(a, b, c, w, h), w, h, k, kw, kh)
         == ChannelSum(PaddedPlane(a, w, h, k, kw, kh), PaddedPlane(b, w, h, k, kw, kh),
                       PaddedPlane(c, w, h, k, kw, kh), w, h)
  {
    ValidChannelSum(a, b, c, w, h, k, kw, kh);
    PadChannelSum(ValidPlane(a, w, h, k, kw, kh), ValidPlane(b, w, h, k, kw, kh), ValidPlane(c, w, h, k, kw, kh),
                  w - kw + 1, h - kh + 1, w, h, kw / 2, kh / 2);
  }

  /** Iterating the padded convolution on the sum of three channels gives the
      sum of the three iterated channels. */
  lemma {:induction false} IteratedChannelSum(a: Plane, b: Plane, c: Plane, w: nat, h: nat, k: Plane, kw: nat, kh: nat, n: nat)
    requires 1 <= kw <= w && 1 <= kh <= h
    requires Covers(a, w, h) && Covers(b, w, h) && Covers(c, w, h) && Covers(k, kw, kh)
    ensures Iterated(ChannelSum(a, b, c, w, h), w, h, k, kw, kh, n)
         == ChannelSum(Iterated(a, w, h, k, kw, kh, n), Iterated(b, w, h, k, kw, kh, n),
                       Iterated(c, w, h, k, kw, kh, n), w, h)
  {
    if n > 0 {
      IteratedChannelSum(a, b, c, w, h, k, kw, kh, n - 1);
      PaddedChannelSum(Iterated(a, w, h, k, kw, kh, n - 1), Iterated(b, w, h, k, kw, kh, n - 1),
                       Iterated(c, w, h, k, kw, kh, n - 1), w, h, k, kw, kh);
    }
  }
}
