/**
  * The pure decisions inside the contour-morphology orchestrator: the grid
  * tolerance test, the physical-to-voxel kernel conversion, the voxel-wise
  * image logic and the five-way operation dispatch.
  */
module MorphologyRules {
  import opened Common

  /** Voxel counts of an image along its three axes. */
  datatype Dimensions = Dimensions(i: int, j: int, k: int)

  function DimensionAlong(d: Dimensions, axis: Axis): int
  {
    match axis
    case X => d.i
    case Y => d.j
    case Z => d.k
  }

  /** A scalar image: its dimensions and its samples in storage order. */
  datatype Image = Image(dims: Dimensions, voxels: seq<real>)

  /** What the tolerance test compares: a volume's origin and spacing and its image's dimensions. */
  datatype Geometry = Geometry(origin: Vec3, spacing: Vec3, dims: Dimensions)

  /** The absolute tolerance of the grid comparison. */
  const Threshold: real := 0.001

  function Abs(x: real): real
  {
    if x < 0.0 then -x else x
  }

  /** One comparison of the tolerance test: the two values are more than the threshold apart. */
  predicate Differs(a: real, b: real)
  {
    Abs(a - b) > Threshold
  }

  /**
    * The nine-way test that rejects a binary operation, in the order the
    * C++ logic evaluates it. Integer dimensions are compared through the same
    * threshold, so grids that pass it have equal dimensions.
    */
  function GeometryMismatch(a: Geometry, b: Geometry): (r: bool)
    ensures a == b ==> !r
    ensures !r ==> a.dims == b.dims
  {
    || Differs(a.origin.x, b.origin.x)
    || Differs(a.origin.y, b.origin.y)
    || Differs(a.origin.z, b.origin.z)
    || Differs(a.spacing.x, b.spacing.x)
    || Differs(a.spacing.y, b.spacing.y)
    || Differs(a.spacing.z, b.spacing.z)
    || Differs(a.dims.i as real, b.dims.i as real)
    || Differs(a.dims.j as real, b.dims.j as real)
    || Differs(a.dims.k as real, b.dims.k as real)
  }

  /** The values lie in the closed band of width twice the threshold around each other. */
  predicate WithinTolerance(a: real, b: real)
  {
    -Threshold <= a - b <= Threshold
  }

  /** Reference definition: two grids agree on every axis in origin, spacing and dimension. */
  predicate Compatible(a: Geometry, b: Geometry)
  {
    forall axis: Axis ::
      && WithinTolerance(Component(a.origin, axis), Component(b.origin, axis))
      && WithinTolerance(Component(a.spacing, axis), Component(b.spacing, axis))
      && WithinTolerance(DimensionAlong(a.dims, axis) as real, DimensionAlong(b.dims, axis) as real)
  }

  /** The nine-way test rejects exactly the grids that are not compatible. */
  lemma MismatchIffIncompatible(a: Geometry, b: Geometry)
    ensures GeometryMismatch(a, b) <==> !Compatible(a, b)
  {
    if !GeometryMismatch(a, b) {
      forall axis: Axis
        ensures && WithinTolerance(Component(a.origin, axis), Component(b.origin, axis))
                && WithinTolerance(Component(a.spacing, axis), Component(b.spacing, axis))
                && WithinTolerance(DimensionAlong(a.dims, axis) as real, DimensionAlong(b.dims, axis) as real)
      {
      }
    } else {
      var axis: Axis :=
        if Differs(a.origin.x, b.origin.x) || Differs(a.spacing.x, b.spacing.x) || Differs(a.dims.i as real, b.dims.i as real) then X
        else if Differs(a.origin.y, b.origin.y) || Differs(a.spacing.y, b.spacing.y) || Differs(a.dims.j as real, b.dims.j as real) then Y
        else Z;
      assert !(&& WithinTolerance(Component(a.origin, axis), Component(b.origin, axis))
               && WithinTolerance(Component(a.spacing, axis), Component(b.spacing, axis))
               && WithinTolerance(DimensionAlong(a.dims, axis) as real, DimensionAlong(b.dims, axis) as real));
    }
  }

  /** For integer dimensions the threshold leaves no slack: compatible grids have equal dimensions. */
  lemma CompatibleHasSameDimensions(a: Geometry, b: Geometry)
    requires Compatible(a, b)
    ensures a.dims == b.dims
  {
    assert WithinTolerance(DimensionAlong(a.dims, X) as real, DimensionAlong(b.dims, X) as real);
    assert WithinTolerance(DimensionAlong(a.dims, Y) as real, DimensionAlong(b.dims, Y) as real);
    assert WithinTolerance(DimensionAlong(a.dims, Z) as real, DimensionAlong(b.dims, Z) as real);
  }

  /** The test does not depend on which grid is the primary one. */
  lemma MismatchSymmetric(a: Geometry, b: Geometry)
    ensures GeometryMismatch(a, b) == GeometryMismatch(b, a)
  {
  }

  /** C++'s conversion of a double to an int: truncation toward zero. */
  function TruncateToInt(x: real): (r: int)
    ensures 0.0 <= x ==> 0 <= r && r as real <= x < r as real + 1.0
    ensures x < 0.0 ==> r <= 0 && r as real - 1.0 < x <= r as real
  {
    if x >= 0.0 then x.Floor else -((-x).Floor)
  }

  /** Truncation never decreases when its argument grows. */
  lemma TruncateMonotone(a: real, b: real)
    requires a <= b
    ensures TruncateToInt(a) <= TruncateToInt(b)
  {
  }

  /** Kernel extent along one axis: the physical size divided by the spacing, truncated. */
  function Extent(size: real, spacing: real): (e: int)
    requires spacing != 0.0
    ensures 0.0 <= size / spacing ==> 0 <= e && e as real <= size / spacing < e as real + 1.0
    ensures size / spacing < 0.0 ==> e <= 0 && e as real - 1.0 < size / spacing <= e as real
  {
    TruncateToInt(size / spacing)
  }

  /** For a positive spacing and a non-negative size, the extent is the number of whole voxels in the size. */
  lemma ExtentCountsWholeVoxels(size: real, spacing: real)
    requires 0.0 <= size && 0.0 < spacing
    ensures 0 <= Extent(size, spacing)
    ensures Extent(size, spacing) as real * spacing <= size < (Extent(size, spacing) + 1) as real * spacing
  {
    var n := Extent(size, spacing) as real;
    var q := size / spacing;
    assert q * spacing == size;
    assert n <= q < n + 1.0;
    MultiplyPreservesOrder(n, q, spacing);
    MultiplyPreservesStrictOrder(q, n + 1.0, spacing);
    assert size < (n + 1.0) * spacing;
    assert (Extent(size, spacing) + 1) as real == n + 1.0;
  }

  lemma MultiplyPreservesOrder(a: real, b: real, c: real)
    requires a <= b && 0.0 < c
    ensures a * c <= b * c
  {
  }

  lemma MultiplyPreservesStrictOrder(a: real, b: real, c: real)
    requires a < b && 0.0 < c
    ensures a * c < b * c
  {
  }

  /** There is no clamp to one voxel: a size below one spacing gives an extent of zero. */
  lemma ExtentBelowOneVoxelIsZero(size: real, spacing: real)
    requires 0.0 <= size < spacing
    ensures Extent(size, spacing) == 0
  {
    var q := size / spacing;
    assert q * spacing == size;
    assert q < 1.0;
  }

  /** For a positive spacing the extent is monotone in the physical size. */
  lemma ExtentMonotone(size1: real, size2: real, spacing: real)
    requires size1 <= size2 && 0.0 < spacing
    ensures Extent(size1, spacing) <= Extent(size2, spacing)
  {
    DivisionPreservesOrder(size1, size2, spacing);
    TruncateMonotone(size1 / spacing, size2 / spacing);
  }

  lemma DivisionPreservesOrder(a: real, b: real, c: real)
    requires a <= b && 0.0 < c
    ensures a / c <= b / c
  {
    assert b / c - a / c == (b - a) / c;
  }

  /** Integer kernel extents handed to the dilate and erode filters. */
  datatype Kernel = Kernel(x: int, y: int, z: int)

  function KernelAlong(k: Kernel, axis: Axis): int
  {
    match axis
    case X => k.x
    case Y => k.y
    case Z => k.z
  }

  predicate NonZeroSpacing(spacing: Vec3)
  {
    spacing.x != 0.0 && spacing.y != 0.0 && spacing.z != 0.0
  }

  /** The kernel for a physical size on a grid of the given spacing, axis by axis. */
  function KernelFor(size: Vec3, spacing: Vec3): (k: Kernel)
    requires NonZeroSpacing(spacing)
    ensures forall axis: Axis :: Component(spacing, axis) != 0.0
              && KernelAlong(k, axis) == Extent(Component(size, axis), Component(spacing, axis))
  {
    Kernel(Extent(size.x, spacing.x), Extent(size.y, spacing.y), Extent(size.z, spacing.z))
  }

  /** On every axis the kernel is the per-axis extent, so growing the size on one axis never shrinks that axis. */
  lemma KernelMonotone(size1: Vec3, size2: Vec3, spacing: Vec3, axis: Axis)
    requires spacing.x > 0.0 && spacing.y > 0.0 && spacing.z > 0.0
    requires Component(size1, axis) <= Component(size2, axis)
    ensures KernelAlong(KernelFor(size1, spacing), axis) <= KernelAlong(KernelFor(size2, spacing), axis)
  {
    ExtentMonotone(Component(size1, axis), Component(size2, axis), Component(spacing, axis));
  }

  // The voxel-wise logic below is the assumed behaviour of the image logic
  // filter of the imaging library: a non-zero sample is true, and an output
  // sample is the configured true value where the operation holds and 0 elsewhere.

  predicate Truth(v: real)
  {
    v != 0.0
  }

  function Mark(b: bool, trueValue: real): real
  {
    if b then trueValue else 0.0
  }

  /** Voxel by voxel: the true value where either input is non-zero, 0 elsewhere. */
  function LogicOr(a: seq<real>, b: seq<real>, trueValue: real): (r: seq<real>)
    requires |a| == |b|
    ensures |r| == |a|
    ensures forall k :: 0 <= k < |a| ==>
      && (r[k] == 0.0 || r[k] == trueValue)
      && (Truth(r[k]) <==> Truth(trueValue) && (Truth(a[k]) || Truth(b[k])))
  {
    seq(|a|, k requires 0 <= k < |a| => Mark(Truth(a[k]) || Truth(b[k]), trueValue))
  }

  /** Voxel by voxel: the true value where both inputs are non-zero, 0 elsewhere. */
  function LogicAnd(a: seq<real>, b: seq<real>, trueValue: real): (r: seq<real>)
    requires |a| == |b|
    ensures |r| == |a|
    ensures forall k :: 0 <= k < |a| ==>
      && (r[k] == 0.0 || r[k] == trueValue)
      && (Truth(r[k]) <==> Truth(trueValue) && Truth(a[k]) && Truth(b[k]))
  {
    seq(|a|, k requires 0 <= k < |a| => Mark(Truth(a[k]) && Truth(b[k]), trueValue))
  }

  /** Voxel by voxel: the true value where the input is zero, 0 elsewhere. */
  function LogicNot(a: seq<real>, trueValue: real): (r: seq<real>)
    ensures |r| == |a|
    ensures forall k :: 0 <= k < |a| ==>
      && (r[k] == 0.0 || r[k] == trueValue)
      && (Truth(r[k]) <==> Truth(trueValue) && !Truth(a[k]))
  {
    seq(|a|, k requires 0 <= k < |a| => Mark(!Truth(a[k]), trueValue))
  }

  /** The morphology operations. `Unrecognized` stands for any other operation code. */
  datatype Operation = Expand | Shrink | Union | Intersect | Subtract | Unrecognized(code: int)
  {
    /** The operations that read a secondary contour and run the tolerance test. */
    predicate IsBinary()
    {
      Union? || Intersect? || Subtract?
    }
  }

  /** The library filters the orchestrator calls but does not define. */
  datatype Filters = Filters(
    dilate: (Image, Kernel) -> Image,
    erode: (Image, Kernel) -> Image,
    histogramMax: Image -> real)

  /**
    * The image the dispatch produces: exactly one filter chain per recognised
    * operation, every logic filter marking its output with `trueValue`; an
    * unrecognised operation produces no image at all.
    */
  function MorphImage(op: Operation, primary: Image, secondary: Option<Image>, kernel: Kernel,
                      trueValue: real, filters: Filters): (r: Option<Image>)
    requires op.IsBinary() ==> secondary.Some? && |secondary.value.voxels| == |primary.voxels|
    ensures r.None? <==> op.Unrecognized?
    ensures op.Expand? ==> r == Some(filters.dilate(primary, kernel))
    ensures op.Shrink? ==> r == Some(filters.erode(primary, kernel))
    ensures op.IsBinary() ==>
      && r.Some? && r.value.dims == primary.dims && |r.value.voxels| == |primary.voxels|
      && forall k :: 0 <= k < |r.value.voxels| ==> r.value.voxels[k] == 0.0 || r.value.voxels[k] == trueValue
  {
    match op
    case Expand => Some(filters.dilate(primary, kernel))
    case Shrink => Some(filters.erode(primary, kernel))
    case Union => Some(Image(primary.dims, LogicOr(primary.voxels, secondary.value.voxels, trueValue)))
    case Intersect => Some(Image(primary.dims, LogicAnd(primary.voxels, secondary.value.voxels, trueValue)))
    case Subtract =>
      var notSecondary := LogicNot(secondary.value.voxels, trueValue);
      Some(Image(primary.dims, LogicAnd(primary.voxels, notSecondary, trueValue)))
    case Unrecognized(_) => None
  }

  /** Reference definition: whether a voxel is foreground in the set-algebra result of a binary operation. */
  predicate InResult(op: Operation, inPrimary: bool, inSecondary: bool)
    requires op.IsBinary()
  {
    match op
    case Union => inPrimary || inSecondary
    case Intersect => inPrimary && inSecondary
    case Subtract => inPrimary && !inSecondary
  }

  /**
    * The binary operations are union, intersection and difference of the
    * foreground voxel sets, provided the true value itself is non-zero.
    */
  lemma BinaryOperationIsSetAlgebra(op: Operation, primary: Image, secondary: Image, kernel: Kernel,
                                    trueValue: real, filters: Filters, k: int)
    requires op.IsBinary() && |secondary.voxels| == |primary.voxels|
    requires 0 <= k < |primary.voxels|
    ensures Truth(MorphImage(op, primary, Some(secondary), kernel, trueValue, filters).value.voxels[k])
            <==> Truth(trueValue) && InResult(op, Truth(primary.voxels[k]), Truth(secondary.voxels[k]))
  {
  }

  /** Union and intersection are symmetric in their two inputs, voxel for voxel. */
  lemma UnionAndIntersectCommute(op: Operation, a: Image, b: Image, kernel: Kernel, trueValue: real, filters: Filters)
    requires op.Union? || op.Intersect?
    requires |a.voxels| == |b.voxels|
    ensures MorphImage(op, a, Some(b), kernel, trueValue, filters).value.voxels
            == MorphImage(op, b, Some(a), kernel, trueValue, filters).value.voxels
  {
  }

  /** Subtraction is not symmetric: a one-voxel foreground minus an empty mask keeps it, the reverse does not. */
  lemma SubtractDoesNotCommute(kernel: Kernel, filters: Filters)
    ensures var a := Image(Dimensions(1, 1, 1), [1.0]);
            var b := Image(Dimensions(1, 1, 1), [0.0]);
            MorphImage(Subtract, a, Some(b), kernel, 1.0, filters)
            != MorphImage(Subtract, b, Some(a), kernel, 1.0, filters)
  {
    var a := Image(Dimensions(1, 1, 1), [1.0]);
    var b := Image(Dimensions(1, 1, 1), [0.0]);
    assert MorphImage(Subtract, a, Some(b), kernel, 1.0, filters).value.voxels[0] == 1.0;
    assert MorphImage(Subtract, b, Some(a), kernel, 1.0, filters).value.voxels[0] == 0.0;
  }

  /** Intersecting masks with no common foreground voxel gives an all-zero image. */
  lemma IntersectDisjointIsEmpty(a: Image, b: Image, kernel: Kernel, trueValue: real, filters: Filters)
    requires |a.voxels| == |b.voxels|
    requires forall k :: 0 <= k < |a.voxels| ==> !(Truth(a.voxels[k]) && Truth(b.voxels[k]))
    ensures forall k :: 0 <= k < |a.voxels| ==> MorphImage(Intersect, a, Some(b), kernel, trueValue, filters).value.voxels[k] == 0.0
  {
  }
}
