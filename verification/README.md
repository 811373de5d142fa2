# Edge detection: the convolution engine, modelled in Dafny

The program reads an image, splits it into red, green and blue planes of
samples, runs each plane through a 3 by 3 vertical-gradient kernel, sums the
three responses cell by cell, clamps each sum to an 8-bit value and writes it
back as a grey pixel. This project models the engine behind that pipeline:

- `Truncate`, which saturates a sample to [0, 255] and otherwise drops its
  fractional part;
- `SinglePixelConvolution`, the weighted sum of the kernel-sized window
  anchored at (x, y) (correlation: the kernel is not flipped);
- `Convolution2D`, the "valid" plane of size (width - kw + 1) by
  (height - kh + 1);
- `Convolution2DPadded`, which places the valid plane into a zeroed
  width by height plane at offset (kw/2, kh/2);
- `ConvolutionType2`, which applies the padded convolution `iterations`
  times, each output being the next input;
- the two loops at the end of the program, lifted into `CombineChannels`
  (the cell-by-cell sum of the three convolved planes) and `ToGrayscale`
  (one grey pixel per clamped sum), and the whole pipeline as `DetectEdges`.

Samples and weights are exact `real` numbers. Module `Planes` gives planes
as values (`seq<seq<real>>`, indexed `p[x][y]`) and `Grid`, the value held by
an `array2<real>`. Module `Correlation` defines the engine on values: window
sums, the valid plane, padding, the padded plane, iteration and the channel
sum. It also proves their properties: locality, linearity, the zero border,
composition of iterations, and the behaviour of particular kernels. Module
`EdgeDetection` holds the program's routines as methods over `array2`, with
the source's loops. Each method is proved to compute the corresponding
value-level function.

## Model

| member | source | states |
|---|---|---|
| EdgeDetection.Truncate | src/edge_detection/EdgeDetection.java:16-26 | the result lies in [0, 255]; a negative sample gives 0, a sample above 255 gives 255, and a sample in [0, 255] gives the integer r with r <= a < r + 1 (its integer part) |
| EdgeDetection.Color | src/edge_detection/EdgeDetection.java:201-203 | the grey pixel's colour is built from three channel values, each of which must lie in [0, 255] (the range the colour constructor accepts); the colour carries exactly those channels |
| EdgeDetection.TruncateMonotone | src/edge_detection/EdgeDetection.java:16-26 | clamping preserves the order of two samples |
| EdgeDetection.TruncateKeepsChannelValues | src/edge_detection/EdgeDetection.java:16-26 | a sample that already is an integer in [0, 255] is returned unchanged |
| EdgeDetection.SinglePixelConvolution | src/edge_detection/EdgeDetection.java:28-40 | the result is the window sum of input[x+i][y+j] * k[i][j] over i < kw, j < kh, accumulated row by row as the nested loops do; the window must lie inside the input and the kernel |
| EdgeDetection.Convolution2D | src/edge_detection/EdgeDetection.java:55-75 | returns a fresh (width-kw+1) by (height-kh+1) array whose contents are the valid plane, i.e. cell (i, j) is the window sum anchored at (i, j); the input is not modified |
| EdgeDetection.ZeroFill | src/edge_detection/EdgeDetection.java:63-67 | every cell of the array becomes 0 |
| EdgeDetection.FillLine | src/edge_detection/EdgeDetection.java:68-73 | one pass of the outer fill loop: every cell of line i becomes the window sum anchored there, every other cell is unchanged |
| EdgeDetection.ValidPlaneFromCells | src/edge_detection/EdgeDetection.java:68-73 | an array holding the window sum at every anchor holds exactly the valid plane |
| EdgeDetection.Convolution2DPadded | src/edge_detection/EdgeDetection.java:90-114 | returns a fresh width by height array whose contents are the padded plane of the input |
| EdgeDetection.PadAtOffset | src/edge_detection/EdgeDetection.java:102-112 | returns a fresh width by height array holding `small` at offset (left, top) and zero everywhere else |
| EdgeDetection.CopyAtOffset | src/edge_detection/EdgeDetection.java:108-112 | every cell of the target rectangle receives the corresponding cell of `small`; every other cell keeps its value; all writes are in bounds |
| EdgeDetection.Clone | src/edge_detection/EdgeDetection.java:135-141 | returns a fresh array with the same dimensions and contents |
| EdgeDetection.ConvolutionType2 | src/edge_detection/EdgeDetection.java:130-144 | returns a fresh array holding the input's contents after n padded convolutions, n being `iterations` or 0 when it is not positive; with zero iterations the result is a copy of the input, otherwise it is width by height |
| EdgeDetection.CombineChannels | src/edge_detection/EdgeDetection.java:189-194 | returns a fresh array of the red plane's dimensions whose cell (i, j) is red[i][j] + green[i][j] + blue[i][j] |
| EdgeDetection.ToGrayscale | src/edge_detection/EdgeDetection.java:199-205 | returns a fresh image of the same dimensions whose pixel (x, y) has three equal channels, each the clamped sample at (x, y), hence in [0, 255] |
| EdgeDetection.EdgeResponse | src/edge_detection/EdgeDetection.java:186-194 | the summed channel responses form a width by height plane |
| EdgeDetection.EdgeResponseOfSummedChannels | src/edge_detection/EdgeDetection.java:186-194 | summing the three convolved channels equals convolving the summed channels the same number of times |
| EdgeDetection.DetectEdges | src/edge_detection/EdgeDetection.java:186-205 | InvalidKernelSize exactly when the kernel size is outside [1, width] by [1, height] or larger than the kernel array; DimensionMismatch exactly when the kernel is valid but the three planes differ in size; otherwise an image of the red plane's size whose pixels are grey with value Truncate of the summed channel responses |
| Correlation.RowSum | src/edge_detection/EdgeDetection.java:35-37 | the first n terms input[x+i][y+j] * k[i][j], j < n, of one row of the window, added in the inner loop's order (a definition; its properties are the RowSum lemmas below) |
| Correlation.WindowSum | src/edge_detection/EdgeDetection.java:33-39 | the sum over i < kw, j < kh of input[x+i][y+j] * k[i][j], rows added in the outer loop's order, kernel not flipped (a definition; its properties are the WindowSum lemmas below) |
| Correlation.VerticalFilter | src/edge_detection/EdgeDetection.java:148-152 | the program's kernel is 3 by 3 and its weights sum to 0 |
| Correlation.ValidPlane | src/edge_detection/EdgeDetection.java:55-75 | the valid plane is (w-kw+1) by (h-kh+1) |
| Correlation.Pad | src/edge_detection/EdgeDetection.java:102-112 | a padded plane is w by h |
| Correlation.PaddedPlane | src/edge_detection/EdgeDetection.java:90-114 | the padded plane has the input's size w by h |
| Correlation.Iterated | src/edge_detection/EdgeDetection.java:130-144 | every iterate covers the w by h rectangle, and after at least one step it is exactly w by h |
| Correlation.ChannelSum | src/edge_detection/EdgeDetection.java:189-194 | the channel sum is w by h |
| Correlation.RowSumLocal | src/edge_detection/EdgeDetection.java:35-37 | a row of the window sum depends only on that row of the window |
| Correlation.WindowSumLocal | src/edge_detection/EdgeDetection.java:28-40 | two planes that agree on the window have the same window sum: nothing outside the window is read |
| Correlation.RowSumAdd | src/edge_detection/EdgeDetection.java:35-37 | one row of the window sum is additive in the plane |
| Correlation.WindowSumAdd | src/edge_detection/EdgeDetection.java:28-40 | the window sum of a sum of three planes is the sum of their window sums |
| Correlation.RowSumOfConstant | src/edge_detection/EdgeDetection.java:35-37 | on a constant row the row sum is the constant times the row's weights |
| Correlation.WindowSumOfConstant | src/edge_detection/EdgeDetection.java:28-40 | on a constant window the window sum is the constant times the sum of all kernel weights |
| Correlation.RowSumZeroKernel | src/edge_detection/EdgeDetection.java:35-37 | a row of zero weights contributes nothing |
| Correlation.WindowSumZeroKernel | src/edge_detection/EdgeDetection.java:28-40 | an all-zero kernel gives a zero window sum |
| Correlation.PaddedPlaneLayout | src/edge_detection/EdgeDetection.java:95-113 | the padded plane is w by h, the centred rectangle fits inside it, its cell (i + kw/2, j + kh/2) is the valid plane's cell (i, j), which is the window sum at (i, j), and every cell outside the centred rectangle is 0 |
| Correlation.ZeroKernelGivesZeroPlane | src/edge_detection/EdgeDetection.java:55-114 | an all-zero kernel gives an all-zero valid plane and an all-zero padded plane of the input's size |
| Correlation.VerticalFilterOnFlatPlane | src/edge_detection/EdgeDetection.java:148-152 | the program's vertical kernel finds no edge in a plane of one constant value: valid and padded planes are all zero |
| Correlation.OneByOneKernel | src/edge_detection/EdgeDetection.java:55-114 | a 1 by 1 kernel [[c]] multiplies every sample by c, and the padded plane equals the valid plane (no border) |
| Correlation.IdentityKernel | src/edge_detection/EdgeDetection.java:55-114 | the kernel [[1]] leaves the plane unchanged under both convolutions |
| Correlation.IteratedZeroAndOne | src/edge_detection/EdgeDetection.java:135-143 | zero iterations give the input; one iteration gives the padded plane |
| Correlation.IteratedCompose | src/edge_detection/EdgeDetection.java:138-142 | n iterations applied after m iterations are m + n iterations |
| Correlation.ValidChannelSum | src/edge_detection/EdgeDetection.java:55-75 | the valid convolution of the sum of three planes is the sum of their valid convolutions |
| Correlation.PadChannelSum | src/edge_detection/EdgeDetection.java:102-112 | padding the sum of three planes is the sum of the three padded planes |
| Correlation.PaddedChannelSum | src/edge_detection/EdgeDetection.java:90-114 | the padded convolution of the sum of three planes is the sum of their padded convolutions |
| Correlation.IteratedChannelSum | src/edge_detection/EdgeDetection.java:130-144 | n padded convolutions of the sum of three planes are the sum of the three planes' n-fold convolutions |

## Left out

- Image input and output (`ImageIO.read`/`write`, the decoding `new Color(image.getRGB(j, i))` at line 176, `getRGB`/`setRGB`, the file names, lines 163-181 and 198-210): library I/O. `DetectEdges` takes the three channel planes and returns the grey pixels as an `array2<Rgb>`.
- The fixed 350 by 525 output canvas (line 198) and the `setRGB(j, i)` placement: the model's image has the planes' own size. A fixed canvas that does not follow the image's size is a collaborator concern and is not reproduced.
- IEEE double arithmetic (rounding, NaN, infinities): samples and weights are exact reals, and the `(int)` cast on the in-range branch of `truncate` is the floor, which equals truncation toward zero there.
- Java arrays of arrays, which may be ragged, are modelled as rectangular `array2` values.
- Clone: modelled as a fresh deep copy; the source's `clone()` is shallow and shares rows, but no row is ever written after cloning, so the contents are the same.
- ZeroFill: the padded convolution's zeroing loop visits the plane column by column, and the valid convolution's row by row; both use this one helper, since the order of the writes cannot be observed.
- The commented-out horizontal filter (lines 154-158).
- SinglePixelConvolution: sizes are natural numbers; a negative kernel size, for which the source's loops simply do not run, is not modelled. The requires also excludes a window reaching outside the input or the kernel, where the source throws ArrayIndexOutOfBoundsException.
- Convolution2D: requires 1 <= kernelWidth <= width and 1 <= kernelHeight <= height. The source does not check. With a kernel one wider than the plane it returns an empty array, and with a non-positive size it returns an all-zero plane larger than the input; a larger kernel makes it throw. The model does not cover these sizes; `DetectEdges` reports them as InvalidKernelSize.
- Convolution2DPadded: the same kernel-size precondition as Convolution2D.
- ConvolutionType2: the same kernel-size precondition as Convolution2D, even when `iterations` is not positive and the source never convolves.
- CombineChannels: requires the red plane to have a row (the source reads `redConv[0]` and throws otherwise) and the green and blue planes to be at least as large (the source throws otherwise).
- DetectEdges: the source does not validate the kernel or the planes and would throw or misbehave; the model reports InvalidKernelSize and DimensionMismatch as explicit error results instead; the engine methods keep the kernel-size bounds as preconditions.
