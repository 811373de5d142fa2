/** The edge detector's routines over arrays: clamping a sample to a channel
    value, the window sum at one anchor, the valid and the padded convolution,
    repeated padded convolution, and the program's final steps (summing the
    three convolved channels and turning each sum into a grey pixel). Each
    method is proved against the value-level definitions of module Correlation. */
module EdgeDetection {
  import opened Planes
  import opened Correlation

  /** A pixel's three 8-bit channels. */
  datatype Rgb = Rgb(red: int, green: int, blue: int)

  /** A grey pixel: three equal channels, each a valid 8-bit value. */
  predicate IsGray(c: Rgb) {
    0 <= c.red <= 255 && c.green == c.red && c.blue == c.red
  }

  /** A colour built from three channel values; each must be in [0, 255]. */
  function Color(r: int, g: int, b: int): (c: Rgb)
    requires 0 <= r <= 255 && 0 <= g <= 255 && 0 <= b <= 255
    ensures c.red == r && c.green == g && c.blue == b
    ensures 0 <= c.red <= 255 && 0 <= c.green <= 255 && 0 <= c.blue <= 255
  {
    Rgb(r, g, b)
  }

  datatype Error = InvalidKernelSize | DimensionMismatch

  datatype Result<T> = Ok(value: T) | Err(error: Error)

  /** Saturates a sample to an 8-bit channel value: below 0 gives 0, above 255
      gives 255, and in between the integer part (truncation toward zero,
      which for a non-negative sample is the floor). */
  function Truncate(a: real): (r: int)
    ensures 0 <= r <= 255
    ensures a < 0.0 ==> r == 0
    ensures a > 255.0 ==> r == 255
    ensures 0.0 <= a <= 255.0 ==> r as real <= a < r as real + 1.0
  {
    if a < 0.0 then 0
    else if a > 255.0 then 255
    else a.Floor
  }

  /** Truncation never reverses the order of two samples. */
  lemma TruncateMonotone(a: real, b: real)
    requires a <= b
    ensures Truncate(a) <= Truncate(b)
  {
  }

  /** A sample that already is an 8-bit value is left as it is. */
  lemma TruncateKeepsChannelValues(n: int)
    requires 0 <= n <= 255
    ensures Truncate(n as real) == n
  {
  }

  /** The weighted sum of the kernel-sized window anchored at (x, y). */
  method SinglePixelConvolution(input: array2<real>, x: nat, y: nat, k: array2<real>,
                                kernelWidth: nat, kernelHeight: nat)
    returns (output: real)
    requires x + kernelWidth <= input.Length0 && y + kernelHeight <= input.Length1
    requires kernelWidth <= k.Length0 && kernelHeight <= k.Length1
    ensures output == WindowSum(Grid(input), x, y, Grid(k), kernelWidth, kernelHeight)
  {
    ghost var p, kern := Grid(input), Grid(k);
    output := 0.0;
    for i := 0 to kernelWidth
      invariant output == WindowSum(p, x, y, kern, i, kernelHeight)
    {
      for j := 0 to kernelHeight
        invariant output == WindowSum(p, x, y, kern, i, kernelHeight) + RowSum(p, x, y, kern, i, j)
      {
        output := output + input[x + i, y + j] * k[i, j];
      }
    }
  }

  /** The valid convolution of the top-left `width` by `height` part of
      `input`: a fresh (width - kw + 1) by (height - kh + 1) array whose cell
      (i, j) is the window sum anchored at (i, j). */
  method Convolution2D(input: array2<real>, width: nat, height: nat,
                       kernel: array2<real>, kernelWidth: nat, kernelHeight: nat)
    returns (output: array2<real>)
    requires 1 <= kernelWidth <= width <= input.Length0
    requires 1 <= kernelHeight <= height <= input.Length1
    requires kernelWidth <= kernel.Length0 && kernelHeight <= kernel.Length1
    ensures fresh(output)
    ensures output.Length0 == width - kernelWidth + 1 && output.Length1 == height - kernelHeight + 1
    ensures Grid(output) == ValidPlane(Grid(input), width, height, Grid(kernel), kernelWidth, kernelHeight)
  {
    var smallWidth := width - kernelWidth + 1;
    var smallHeight := height - kernelHeight + 1;
    output := new real[smallWidth, smallHeight];
    ZeroFill(output);
    ghost var p, kern := Grid(input), Grid(kernel);
    for i := 0 to smallWidth
      modifies output
      invariant forall u, v :: 0 <= u < i && 0 <= v < smallHeight ==>
        output[u, v] == WindowSum(p, u, v, kern, kernelWidth, kernelHeight)
    {
      FillLine(input, kernel, kernelWidth, kernelHeight, output, i);
    }
    ValidPlaneFromCells(output, input, width, height, kernel, kernelWidth, kernelHeight);
  }

  /** Sets every cell of `a` to zero. */
  method ZeroFill(a: array2<real>)
    modifies a
    ensures forall x, y :: 0 <= x < a.Length0 && 0 <= y < a.Length1 ==> a[x, y] == 0.0
  {
    for i := 0 to a.Length0
      invariant forall x, y :: 0 <= x < i && 0 <= y < a.Length1 ==> a[x, y] == 0.0
    {
      for j := 0 to a.Length1
        invariant forall x, y :: 0 <= x < i && 0 <= y < a.Length1 ==> a[x, y] == 0.0
        invariant forall y :: 0 <= y < j ==> a[i, y] == 0.0
      {
        a[i, j] := 0.0;
      }
    }
  }

  /** One pass of the valid convolution's outer loop: every cell (i, j) of
      `output` becomes the window sum anchored at (i, j); the other lines of
      `output` keep their values. */
  method FillLine(input: array2<real>, kernel: array2<real>, kernelWidth: nat, kernelHeight: nat,
                  output: array2<real>, i: nat)
    requires output != input && output != kernel
    requires i < output.Length0
    requires i + kernelWidth <= input.Length0 && output.Length1 - 1 + kernelHeight <= input.Length1
    requires kernelWidth <= kernel.Length0 && kernelHeight <= kernel.Length1
    modifies output
    ensures forall u, v :: 0 <= u < output.Length0 && 0 <= v < output.Length1 ==>
      output[u, v] == if u == i then WindowSum(Grid(input), i, v, Grid(kernel), kernelWidth, kernelHeight)
                      else old(output[u, v])
  {
    for j := 0 to output.Length1
      invariant forall u, v :: 0 <= u < output.Length0 && 0 <= v < output.Length1 ==>
        output[u, v] == if u == i && v < j then WindowSum(Grid(input), i, v, Grid(kernel), kernelWidth, kernelHeight)
                        else old(output[u, v])
    {
      output[i, j] := SinglePixelConvolution(input, i, j, kernel, kernelWidth, kernelHeight);
    }
  }

  /** An array holding the window sum at every anchor holds the valid plane. */
  lemma ValidPlaneFromCells(output: array2<real>, input: array2<real>, w: nat, h: nat,
                            kernel: array2<real>, kw: nat, kh: nat)
    requires 1 <= kw <= w <= input.Length0 && 1 <= kh <= h <= input.Length1
    requires kw <= kernel.Length0 && kh <= kernel.Length1
    requires output.Length0 == w - kw + 1 && output.Length1 == h - kh + 1
    requires forall i, j :: 0 <= i < output.Length0 && 0 <= j < output.Length1 ==>
      output[i, j] == WindowSum(Grid(input), i, j, Grid(kernel), kw, kh)
    ensures Grid(output) == ValidPlane(Grid(input), w, h, Grid(kernel), kw, kh)
  {
    GridExtensionality(Grid(output), ValidPlane(Grid(input), w, h, Grid(kernel), kw, kh), w - kw + 1, h - kh + 1);
  }

  /** The padded convolution: a fresh `width` by `height` array holding the
      valid convolution at offset (kw/2, kh/2) and zero everywhere else. */
  method Convolution2DPadded(input: array2<real>, width: nat, height: nat,
                             kernel: array2<real>, kernelWidth: nat, kernelHeight: nat)
    returns (large: array2<real>)
    requires 1 <= kernelWidth <= width <= input.Length0
    requires 1 <= kernelHeight <= height <= input.Length1
    requires kernelWidth <= kernel.Length0 && kernelHeight <= kernel.Length1
    ensures fresh(large)
    ensures large.Length0 == width && large.Length1 == height
    ensures Grid(large) == PaddedPlane(Grid(input), width, height, Grid(kernel), kernelWidth, kernelHeight)
  {
    var top := kernelHeight / 2;
    var left := kernelWidth / 2;
    var small := Convolution2D(input, width, height, kernel, kernelWidth, kernelHeight);
    large := PadAtOffset(small, width, height, left, top);
  }

  /** The padding step: a fresh `width` by `height` array of zeros with
      `small` copied in at offset (left, top). */
  method PadAtOffset(small: array2<real>, width: nat, height: nat, left: nat, top: nat)
    returns (large: array2<real>)
    requires left + small.Length0 <= width && top + small.Length1 <= height
    ensures fresh(large)
    ensures large.Length0 == width && large.Length1 == height
    ensures Grid(large) == Pad(Grid(small), small.Length0, small.Length1, width, height, left, top)
  {
    large := new real[width, height];
    ZeroFill(large);
    CopyAtOffset(small, large, left, top);
    GridExtensionality(Grid(large), Pad(Grid(small), small.Length0, small.Length1, width, height, left, top),
                       width, height);
  }

  /** The copy step of the padded convolution: writes `small` into `large`
      at offset (left, top), column `j` of `small` after column `j - 1`;
      every cell outside the target rectangle keeps its value. */
  method CopyAtOffset(small: array2<real>, large: array2<real>, left: nat, top: nat)
    requires small != large
    requires left + small.Length0 <= large.Length0 && top + small.Length1 <= large.Length1
    modifies large
    ensures forall x, y :: 0 <= x < large.Length0 && 0 <= y < large.Length1 ==>
      large[x, y] == if left <= x < left + small.Length0 && top <= y < top + small.Length1
                     then small[x - left, y - top] else old(large[x, y])
  {
    for j := 0 to small.Length1
      invariant forall x, y :: 0 <= x < large.Length0 && 0 <= y < large.Length1 ==>
        large[x, y] == if left <= x < left + small.Length0 && top <= y < top + j
                       then small[x - left, y - top] else old(large[x, y])
    {
      for i := 0 to small.Length0
        invariant forall x, y :: 0 <= x < large.Length0 && 0 <= y < large.Length1 ==>
          large[x, y] == if (left <= x < left + small.Length0 && top <= y < top + j)
                            || (left <= x < left + i && y == top + j)
                         then small[x - left, y - top] else old(large[x, y])
      {
        large[i + left, j + top] := small[i, j];
      }
    }
  }

  /** A fresh array with the same contents. */
  method Clone(a: array2<real>) returns (b: array2<real>)
    ensures fresh(b)
    ensures b.Length0 == a.Length0 && b.Length1 == a.Length1 && Grid(b) == Grid(a)
  {
    b := new real[a.Length0, a.Length1]((x, y) requires 0 <= x < a.Length0 && 0 <= y < a.Length1 reads a => a[x, y]);
    GridExtensionality(Grid(b), Grid(a), a.Length0, a.Length1);
  }

  /** The padded convolution applied `iterations` times, each output being the
      next input; zero (or a negative count) iterations give a copy of `input`. */
  method ConvolutionType2(input: array2<real>, width: nat, height: nat,
                          kernel: array2<real>, kernelWidth: nat, kernelHeight: nat,
                          iterations: int)
    returns (output: array2<real>)
    requires 1 <= kernelWidth <= width <= input.Length0
    requires 1 <= kernelHeight <= height <= input.Length1
    requires kernelWidth <= kernel.Length0 && kernelHeight <= kernel.Length1
    ensures fresh(output)
    ensures output.Length0 == (if iterations >= 1 then width else input.Length0)
    ensures output.Length1 == (if iterations >= 1 then height else input.Length1)
    ensures Grid(output) == Iterated(Grid(input), width, height, Grid(kernel), kernelWidth, kernelHeight,
                                     if iterations <= 0 then 0 else iterations)
  {
    ghost var p, kern := Grid(input), Grid(kernel);
    var newInput := Clone(input);
    output := Clone(input);
    var i := 0;
    while i < iterations
      invariant 0 <= i && (i == 0 || i <= iterations)
      invariant fresh(output) && fresh(newInput)
      invariant width <= newInput.Length0 && height <= newInput.Length1
      invariant output.Length0 == (if i >= 1 then width else input.Length0)
      invariant output.Length1 == (if i >= 1 then height else input.Length1)
      invariant Grid(output) == Grid(newInput) == Iterated(p, width, height, kern, kernelWidth, kernelHeight, i)
    {
      output := Convolution2DPadded(newInput, width, height, kernel, kernelWidth, kernelHeight);
      newInput := Clone(output);
      i := i + 1;
    }
  }

  /** The cell-by-cell sum of the three convolved channel planes, sized by the
      red plane (row 0 of the red plane is read to learn its length). */
  method CombineChannels(red: array2<real>, green: array2<real>, blue: array2<real>)
    returns (combined: array2<real>)
    requires 1 <= red.Length0
    requires red.Length0 <= green.Length0 && red.Length1 <= green.Length1
    requires red.Length0 <= blue.Length0 && red.Length1 <= blue.Length1
    ensures fresh(combined)
    ensures combined.Length0 == red.Length0 && combined.Length1 == red.Length1
    ensures Grid(combined) == ChannelSum(Grid(red), Grid(green), Grid(blue), red.Length0, red.Length1)
  {
    combined := new real[red.Length0, red.Length1];
    for i := 0 to red.Length0
      invariant forall x, y :: 0 <= x < i && 0 <= y < red.Length1 ==>
        combined[x, y] == red[x, y] + green[x, y] + blue[x, y]
    {
      for j := 0 to red.Length1
        invariant forall x, y :: 0 <= x < i && 0 <= y < red.Length1 ==>
          combined[x, y] == red[x, y] + green[x, y] + blue[x, y]
        invariant forall y :: 0 <= y < j ==> combined[i, y] == red[i, y] + green[i, y] + blue[i, y]
      {
        combined[i, j] := red[i, j] + green[i, j] + blue[i, j];
      }
    }
    GridExtensionality(Grid(combined), ChannelSum(Grid(red), Grid(green), Grid(blue), red.Length0, red.Length1),
                       red.Length0, red.Length1);
  }

  /** One grey pixel per combined sample: all three channels are the
      truncated sample. */
  method ToGrayscale(combined: array2<real>) returns (image: array2<Rgb>)
    ensures fresh(image)
    ensures image.Length0 == combined.Length0 && image.Length1 == combined.Length1
    ensures forall x, y :: 0 <= x < image.Length0 && 0 <= y < image.Length1 ==>
      IsGray(image[x, y]) && image[x, y].red == Truncate(combined[x, y])
  {
    image := new Rgb[combined.Length0, combined.Length1];
    for i := 0 to combined.Length0
      invariant forall x, y :: 0 <= x < i && 0 <= y < combined.Length1 ==>
        IsGray(image[x, y]) && image[x, y].red == Truncate(combined[x, y])
    {
      for j := 0 to combined.Length1
        invariant forall x, y :: 0 <= x < i && 0 <= y < combined.Length1 ==>
          IsGray(image[x, y]) && image[x, y].red == Truncate(combined[x, y])
        invariant forall y :: 0 <= y < j ==> IsGray(image[i, y]) && image[i, y].red == Truncate(combined[i, y])
      {
        image[i, j] := Color(Truncate(combined[i, j]), Truncate(combined[i, j]), Truncate(combined[i, j]));
      }
    }
  }

  /** The edge response of three channel planes: each channel run through
      `n` padded convolutions, and the three results summed cell by cell. */
  ghost function EdgeResponse(r: Plane, g: Plane, b: Plane, w: nat, h: nat,
                              k: Plane, kw: nat, kh: nat, n: nat): (s: Plane)
    requires 1 <= kw <= w && 1 <= kh <= h
    requires Covers(r, w, h) && Covers(g, w, h) && Covers(b, w, h) && Covers(k, kw, kh)
    ensures IsGrid(s, w, h)
  {
    ChannelSum(Iterated(r, w, h, k, kw, kh, n), Iterated(g, w, h, k, kw, kh, n),
               Iterated(b, w, h, k, kw, kh, n), w, h)
  }

  /** The edge response of three channels is the iterated convolution of
      their sum: the summed channel responses do not depend on whether the
      channels are added before or after convolving. */
  lemma EdgeResponseOfSummedChannels(r: Plane, g: Plane, b: Plane, w: nat, h: nat,
                                     k: Plane, kw: nat, kh: nat, n: nat)
    requires 1 <= kw <= w && 1 <= kh <= h
    requires Covers(r, w, h) && Covers(g, w, h) && Covers(b, w, h) && Covers(k, kw, kh)
    ensures EdgeResponse(r, g, b, w, h, k, kw, kh, n) == Iterated(ChannelSum(r, g, b, w, h), w, h, k, kw, kh, n)
  {
    IteratedChannelSum(r, g, b, w, h, k, kw, kh, n);
  }

  /** The program's pipeline: convolve each channel plane `iterations` times
      with the kernel, sum the three results and turn each sum into a grey
      pixel. Kernel sizes outside [1, width] by [1, height] are reported as
      InvalidKernelSize and channel planes of different sizes as
      DimensionMismatch. */
  method DetectEdges(red: array2<real>, green: array2<real>, blue: array2<real>,
                     kernel: array2<real>, kernelWidth: int, kernelHeight: int, iterations: int)
    returns (result: Result<array2<Rgb>>)
    ensures result == Err(InvalidKernelSize) <==>
      !(1 <= kernelWidth <= red.Length0 && 1 <= kernelHeight <= red.Length1
        && kernelWidth <= kernel.Length0 && kernelHeight <= kernel.Length1)
    ensures result == Err(DimensionMismatch) <==>
      (1 <= kernelWidth <= red.Length0 && 1 <= kernelHeight <= red.Length1
       && kernelWidth <= kernel.Length0 && kernelHeight <= kernel.Length1)
      && (green.Length0 != red.Length0 || green.Length1 != red.Length1
          || blue.Length0 != red.Length0 || blue.Length1 != red.Length1)
    ensures result.Ok? ==>
      var image := result.value;
      var w, h := red.Length0, red.Length1;
      && image.Length0 == w && image.Length1 == h
      && 1 <= kernelWidth && 1 <= kernelHeight
      && forall x, y :: 0 <= x < w && 0 <= y < h ==>
        IsGray(image[x, y])
        && image[x, y].red == Truncate(EdgeResponse(Grid(red), Grid(green), Grid(blue), w, h, Grid(kernel),
                                                    kernelWidth, kernelHeight,
                                                    if iterations <= 0 then 0 else iterations)[x][y])
  {
    var width, height := red.Length0, red.Length1;
    if !(1 <= kernelWidth <= width && 1 <= kernelHeight <= height
         && kernelWidth <= kernel.Length0 && kernelHeight <= kernel.Length1) {
      return Err(InvalidKernelSize);
    }
    if green.Length0 != width || green.Length1 != height || blue.Length0 != width || blue.Length1 != height {
      return Err(DimensionMismatch);
    }
    var redConv := ConvolutionType2(red, width, height, kernel, kernelWidth, kernelHeight, iterations);
    var greenConv := ConvolutionType2(green, width, height, kernel, kernelWidth, kernelHeight, iterations);
    var blueConv := ConvolutionType2(blue, width, height, kernel, kernelWidth, kernelHeight, iterations);
    var finalConv := CombineChannels(redConv, greenConv, blueConv);
    var image := ToGrayscale(finalConv);
    ghost var n := if iterations <= 0 then 0 else iterations;
    assert Grid(finalConv) == EdgeResponse(Grid(red), Grid(green), Grid(blue), width, height, Grid(kernel),
                                           kernelWidth, kernelHeight, n);
    return Ok(image);
  }
}
