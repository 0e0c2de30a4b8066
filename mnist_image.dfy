/**
 * `MyMNISTImage` (Sources/Modules/MNIST/Module/MyMNISTManager.cs): one labelled digit image,
 * held as a width-by-height grid and as the same pixels flattened row by row
 * (`Data1D[i * height + j] == Data[i, j]`).
 */
module MnistImages {
  import opened MnistBytes

  /** `float.MaxValue`, the scan's initial minimum. */
  const FloatMaxValue: real := 340282346638528859811704183484516925440.0

  /**
   * The value `Normalize` leaves in a pixel, given the scan's minimum and maximum: untouched
   * when both are zero, otherwise moved linearly so that the minimum maps to 0 and the
   * maximum to 1. When they are equal and nonzero single precision divides 0 by 0; the
   * model keeps the pixel there.
   */
  function Rescaled(v: real, min: real, max: real): real {
    if min == 0.0 && max == 0.0 then v
    else if max == min then v
    else (v - min) / (max - min)
  }

  /** Every pixel of a scanned image lands in [0, 1], with the darkest at 0 and the brightest at 1. */
  lemma RescaledInUnitRange(v: real, min: real, max: real)
    requires min <= v <= max && min < max
    ensures 0.0 <= Rescaled(v, min, max) <= 1.0
    ensures v == min ==> Rescaled(v, min, max) == 0.0
    ensures v == max ==> Rescaled(v, min, max) == 1.0
  {
    var r := Rescaled(v, min, max);
    assert r * (max - min) == v - min;
  }

  /** Rescaling keeps the order of pixels. */
  lemma RescaledMonotone(v1: real, v2: real, min: real, max: real)
    requires v1 <= v2
    ensures min <= max ==> Rescaled(v1, min, max) <= Rescaled(v2, min, max)
  {
    if min < max && !(min == 0.0 && max == 0.0) {
      var d := max - min;
      assert Rescaled(v1, min, max) * d == v1 - min;
      assert Rescaled(v2, min, max) * d == v2 - min;
    }
  }

  /** The threshold `ToBinary` applies to one pixel. */
  function Binary(v: real): (b: real)
    ensures b == 0.0 || b == 1.0
    ensures b == 1.0 <==> v >= 0.5
  {
    if v < 0.5 then 0.0 else 1.0
  }

  /** The position of pixel (i, j) of a grid `height` pixels high in its row-by-row flattening. */
  function FlatIndex(i: int, j: int, height: int): int {
    i * height + j
  }

  /** Row `i` of a width-by-height grid occupies positions `i * height` up to `(i + 1) * height`, inside the flattened array. */
  lemma NextRow(i: int, width: int, height: int)
    requires 0 <= i < width && 0 <= height
    ensures (i + 1) * height == i * height + height
    ensures 0 <= i * height && (i + 1) * height <= width * height
  {
  }

  /** The flattening that ends the byte-grid constructor: the grid copied into a new array, row by row. */
  method FlattenRows(grid: array2<real>) returns (flat: array<real>)
    ensures fresh(flat) && flat.Length == grid.Length0 * grid.Length1
    ensures forall i, j | 0 <= i < grid.Length0 && 0 <= j < grid.Length1 ::
      0 <= FlatIndex(i, j, grid.Length1) < flat.Length && flat[FlatIndex(i, j, grid.Length1)] == grid[i, j]
  {
    var width, height := grid.Length0, grid.Length1;
    flat := new real[height * width];
    assert height * width == width * height;
    var idx := 0;
    for j := 0 to width
      invariant idx == j * height
      invariant forall i1, j1 | 0 <= i1 < j && 0 <= j1 < height ::
        0 <= FlatIndex(i1, j1, height) < idx && flat[FlatIndex(i1, j1, height)] == grid[i1, j1]
    {
      ghost var rowStart := idx;
      NextRow(j, width, height);
      for k := 0 to height
        invariant idx == rowStart + k
        invariant forall i1, j1 | 0 <= i1 < j && 0 <= j1 < height ::
          0 <= FlatIndex(i1, j1, height) < rowStart && flat[FlatIndex(i1, j1, height)] == grid[i1, j1]
        invariant forall k1 | 0 <= k1 < k :: flat[rowStart + k1] == grid[j, k1]
      {
        flat[idx] := grid[j, k];
        idx := idx + 1;
      }
      assert forall k1 | 0 <= k1 < height :: FlatIndex(j, k1, height) == rowStart + k1;
    }
  }

  /** The loop of `ToBinary`: the grid thresholded at 0.5 into a new array, row by row. */
  method ThresholdRows(grid: array2<real>) returns (flat: array<real>)
    ensures fresh(flat) && flat.Length == grid.Length0 * grid.Length1
    ensures forall k | 0 <= k < flat.Length :: flat[k] == 0.0 || flat[k] == 1.0
    ensures forall i, j | 0 <= i < grid.Length0 && 0 <= j < grid.Length1 ::
      0 <= FlatIndex(i, j, grid.Length1) < flat.Length && flat[FlatIndex(i, j, grid.Length1)] == Binary(grid[i, j])
  {
    var width, height := grid.Length0, grid.Length1;
    flat := new real[height * width];
    assert height * width == width * height;
    var idx := 0;
    for i := 0 to width
      invariant idx == i * height
      invariant forall k | 0 <= k < idx :: flat[k] == 0.0 || flat[k] == 1.0
      invariant forall i1, j1 | 0 <= i1 < i && 0 <= j1 < height ::
        0 <= FlatIndex(i1, j1, height) < idx && flat[FlatIndex(i1, j1, height)] == Binary(grid[i1, j1])
    {
      ghost var rowStart := idx;
      NextRow(i, width, height);
      for j := 0 to height
        invariant idx == rowStart + j
        invariant forall k | 0 <= k < idx :: flat[k] == 0.0 || flat[k] == 1.0
        invariant forall i1, j1 | 0 <= i1 < i && 0 <= j1 < height ::
          0 <= FlatIndex(i1, j1, height) < rowStart && flat[FlatIndex(i1, j1, height)] == Binary(grid[i1, j1])
        invariant forall j1 | 0 <= j1 < j :: flat[rowStart + j1] == Binary(grid[i, j1])
      {
        if grid[i, j] < 0.5 {
          flat[idx] := 0.0;
        } else {
          flat[idx] := 1.0;
        }
        idx := idx + 1;
      }
      assert forall j1 | 0 <= j1 < height :: FlatIndex(i, j1, height) == rowStart + j1;
    }
  }

  class MnistImage {
    const width: nat
    const height: nat
    const Label: Byte
    const data: array2<real>
    var data1d: array<real>
    var min: real
    var max: real

    /** The grid has the image's dimensions. */
    predicate GridShaped() {
      data.Length0 == width && data.Length1 == height
    }

    /** ... and the flattened array has one entry per pixel. */
    predicate Valid()
      reads this
    {
      GridShaped() && data1d.Length == width * height
    }

    /** The flattened array holds the grid row by row. */
    predicate Flattened()
      reads this, data, data1d
      requires Valid()
    {
      forall i, j | 0 <= i < width && 0 <= j < height ::
        0 <= FlatIndex(i, j, height) < data1d.Length && data1d[FlatIndex(i, j, height)] == data[i, j]
    }

    /**
     * The constructor from a byte grid: copies the first `width` by `height` pixels, applies
     * `Normalize` and flattens the result.
     */
    constructor FromPixels(pixels: array2<Byte>, labelByte: Byte, width: nat, height: nat)
      requires width <= pixels.Length0 && height <= pixels.Length1
      ensures Valid() && fresh(data) && fresh(data1d)
      ensures Label == labelByte && this.width == width && this.height == height
      ensures forall i, j | 0 <= i < width && 0 <= j < height ::
        min <= pixels[i, j] as real <= max
      ensures max == 0.0 || exists i, j | 0 <= i < width && 0 <= j < height :: max == pixels[i, j] as real
      ensures min == FloatMaxValue || exists i, j | 0 <= i < width && 0 <= j < height :: min == pixels[i, j] as real
      ensures forall i, j | 0 <= i < width && 0 <= j < height ::
        data[i, j] == Rescaled(pixels[i, j] as real, min, max)
      ensures Flattened()
    {
      this.width := width;
      this.height := height;
      Label := labelByte;
      var grid := new real[width, height];
      for i := 0 to width
        invariant forall i1, j1 | 0 <= i1 < i && 0 <= j1 < height :: grid[i1, j1] == pixels[i1, j1] as real
      {
        for j := 0 to height
          invariant forall i1, j1 | 0 <= i1 < i && 0 <= j1 < height :: grid[i1, j1] == pixels[i1, j1] as real
          invariant forall j1 | 0 <= j1 < j :: grid[i, j1] == pixels[i, j1] as real
        {
          grid[i, j] := pixels[i, j] as real;
        }
      }
      data := grid;
      data1d := new real[0];  // not yet allocated: null in the original until after Normalize
      new;
      label BeforeNormalize:
      Normalize();
      assert max == 0.0 || exists i, j | 0 <= i < width && 0 <= j < height :: max == pixels[i, j] as real by {
        if max != 0.0 {
          var i, j :| 0 <= i < width && 0 <= j < height && max == old@BeforeNormalize(data[i, j]);
          assert max == pixels[i, j] as real;
        }
      }
      assert min == FloatMaxValue || exists i, j | 0 <= i < width && 0 <= j < height :: min == pixels[i, j] as real by {
        if min != FloatMaxValue {
          var i, j :| 0 <= i < width && 0 <= j < height && min == old@BeforeNormalize(data[i, j]);
          assert min == pixels[i, j] as real;
        }
      }
      data1d := FlattenRows(data);
    }

    /**
     * The scan that opens `Normalize`: the largest pixel (starting from 0) and the smallest
     * (starting from `float.MaxValue`).
     */
    method ScanRange()
      requires GridShaped()
      modifies this`min, this`max
      ensures forall i, j | 0 <= i < width && 0 <= j < height :: min <= data[i, j] <= max
      ensures max == 0.0 || exists i, j | 0 <= i < width && 0 <= j < height :: max == data[i, j]
      ensures min == FloatMaxValue || exists i, j | 0 <= i < width && 0 <= j < height :: min == data[i, j]
    {
      max := 0.0;
      min := FloatMaxValue;
      ghost var maxAt, minAt := (0, 0), (0, 0);
      for i := 0 to width
        invariant forall i1, j1 | 0 <= i1 < i && 0 <= j1 < height :: min <= data[i1, j1] <= max
        invariant max == 0.0 || (0 <= maxAt.0 < width && 0 <= maxAt.1 < height && max == data[maxAt.0, maxAt.1])
        invariant min == FloatMaxValue || (0 <= minAt.0 < width && 0 <= minAt.1 < height && min == data[minAt.0, minAt.1])
      {
        for j := 0 to height
          invariant forall i1, j1 | 0 <= i1 < i && 0 <= j1 < height :: min <= data[i1, j1] <= max
          invariant forall j1 | 0 <= j1 < j :: min <= data[i, j1] <= max
          invariant max == 0.0 || (0 <= maxAt.0 < width && 0 <= maxAt.1 < height && max == data[maxAt.0, maxAt.1])
          invariant min == FloatMaxValue || (0 <= minAt.0 < width && 0 <= minAt.1 < height && min == data[minAt.0, minAt.1])
        {
          if max < data[i, j] { max := data[i, j]; maxAt := (i, j); }
          if min > data[i, j] { min := data[i, j]; minAt := (i, j); }
        }
      }
    }

    /**
     * `Normalize`: after the scan, an all-black image is left as it is and any other one is
     * rescaled so that its darkest pixel becomes 0 and its brightest 1.
     */
    method Normalize()
      requires GridShaped()
      modifies this`min, this`max, data
      ensures forall i, j | 0 <= i < width && 0 <= j < height :: min <= old(data[i, j]) <= max
      ensures max == 0.0 || exists i, j | 0 <= i < width && 0 <= j < height :: max == old(data[i, j])
      ensures min == FloatMaxValue || exists i, j | 0 <= i < width && 0 <= j < height :: min == old(data[i, j])
      ensures forall i, j | 0 <= i < width && 0 <= j < height :: data[i, j] == Rescaled(old(data[i, j]), min, max)
    {
      ScanRange();
      if min == 0.0 && max == 0.0 { return; }
      for i := 0 to width
        modifies data
        invariant forall i1, j1 | 0 <= i1 < i && 0 <= j1 < height :: data[i1, j1] == Rescaled(old(data[i1, j1]), min, max)
        invariant forall i1, j1 | i <= i1 < width && 0 <= j1 < height :: data[i1, j1] == old(data[i1, j1])
      {
        for j := 0 to height
          modifies data
          invariant forall i1, j1 | 0 <= i1 < i && 0 <= j1 < height :: data[i1, j1] == Rescaled(old(data[i1, j1]), min, max)
          invariant forall j1 | 0 <= j1 < j :: data[i, j1] == Rescaled(old(data[i, j1]), min, max)
          invariant forall j1 | j <= j1 < height :: data[i, j1] == old(data[i, j1])
          invariant forall i1, j1 | i < i1 < width && 0 <= j1 < height :: data[i1, j1] == old(data[i1, j1])
        {
          // With max == min (every pixel equal and nonzero) single precision yields NaN here;
          // the model keeps the pixel.
          if max != min {
            data[i, j] := (data[i, j] - min) / (max - min);
          }
        }
      }
    }

    /**
     * The constructor reading straight from the image stream: pixel bytes arrive row by row
     * and are scaled by the fixed range [0, 255]; the label byte follows.
     */
    constructor FromStream(pixels: seq<Byte>, labelByte: Byte, width: nat, height: nat)
      requires width * height <= |pixels|
      ensures Valid() && fresh(data) && fresh(data1d)
      ensures Label == labelByte && this.width == width && this.height == height
      ensures min == 0.0 && max == 255.0
      ensures forall i, j | 0 <= i < width && 0 <= j < height ::
        0 <= FlatIndex(i, j, height) < |pixels| && data[i, j] == pixels[FlatIndex(i, j, height)] as real / 255.0
      ensures Flattened()
    {
      var grid := new real[width, height];
      var flat := new real[width * height];
      var idx := 0;
      for i := 0 to width
        invariant idx == i * height
        invariant forall i1, j1 | 0 <= i1 < i && 0 <= j1 < height ::
          0 <= FlatIndex(i1, j1, height) < idx && grid[i1, j1] == pixels[FlatIndex(i1, j1, height)] as real / 255.0
          && flat[FlatIndex(i1, j1, height)] == grid[i1, j1]
      {
        ghost var rowStart := idx;
        NextRow(i, width, height);
        for j := 0 to height
          invariant idx == rowStart + j
          invariant forall i1, j1 | 0 <= i1 < i && 0 <= j1 < height ::
            0 <= FlatIndex(i1, j1, height) < rowStart && grid[i1, j1] == pixels[FlatIndex(i1, j1, height)] as real / 255.0
            && flat[FlatIndex(i1, j1, height)] == grid[i1, j1]
          invariant forall j1 | 0 <= j1 < j ::
            grid[i, j1] == pixels[rowStart + j1] as real / 255.0 && flat[rowStart + j1] == grid[i, j1]
        {
          var normalizedValue := (pixels[idx] as real - 0.0) / (255.0 - 0.0);
          grid[i, j] := normalizedValue;
          flat[idx] := normalizedValue;
          idx := idx + 1;
        }
        assert forall j1 | 0 <= j1 < height :: FlatIndex(i, j1, height) == rowStart + j1;
      }
      this.width := width;
      this.height := height;
      data := grid;
      data1d := flat;
      min := 0.0;
      max := 255.0;
      Label := labelByte;
    }

    /** `ToBinary`: replaces the flattened array by the grid thresholded at 0.5, row by row. */
    method ToBinary()
      requires Valid()
      modifies this`data1d
      ensures Valid() && fresh(data1d)
      ensures forall k | 0 <= k < data1d.Length :: data1d[k] == 0.0 || data1d[k] == 1.0
      ensures forall i, j | 0 <= i < width && 0 <= j < height ::
        0 <= FlatIndex(i, j, height) < data1d.Length && data1d[FlatIndex(i, j, height)] == Binary(data[i, j])
    {
      data1d := ThresholdRows(data);
    }
  }
}
