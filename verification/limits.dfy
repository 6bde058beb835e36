/**
 * Limit checks on 64-bit counters. Each accepts exactly what the unbounded sum, product or ratio
 * allows, and no intermediate value leaves its machine word.
 */
module Limits {
  import opened Options

  const MAX_INT64 := 0x7FFF_FFFF_FFFF_FFFF
  const MAX_UINT64 := 0xFFFF_FFFF_FFFF_FFFF

  type Int64 = x: int | -MAX_INT64 - 1 <= x <= MAX_INT64
  type Size = x: int | 0 <= x <= MAX_INT64
  type Uint64 = x: int | 0 <= x <= MAX_UINT64

  function Sum(amounts: seq<int>): int {
    if amounts == [] then 0 else Sum(amounts[..|amounts| - 1]) + amounts[|amounts| - 1]
  }

  function AtMostMax(n: int): int {
    if n > MAX_INT64 then MAX_INT64 else n
  }

  lemma {:induction false} PrefixSum(amounts: seq<int>, n: nat)
    requires n <= |amounts| && forall a :: a in amounts ==> a >= 0
    ensures Sum(amounts[..n]) <= Sum(amounts)
    decreases |amounts|
  {
    if n == |amounts| {
      assert amounts[..n] == amounts;
    } else {
      var front := amounts[..|amounts| - 1];
      assert front[..n] == amounts[..n];
      assert forall a :: a in front ==> a in amounts;
      assert amounts[|amounts| - 1] in amounts;
      PrefixSum(front, n);
    }
  }

  method AddExceeds(total: Size, amount: Size, limit: Size) returns (observed: Size, exceeded: bool)
    requires total <= limit
    ensures exceeded <==> total + amount > limit
    ensures observed == AtMostMax(total + amount)
  {
    var room: Int64 := limit - total;
    if amount <= room {
      return total + amount, false;
    }
    var headroom: Int64 := MAX_INT64 - total;
    if amount > headroom {
      return MAX_INT64, true;
    }
    return total + amount, true;
  }

  /** Adding up under a limit fails exactly when the whole sum exceeds it, and reports where it first did. */
  method Accumulate(start: Size, amounts: seq<Size>, limit: Size) returns (total: Size, failure: Option<Size>)
    requires start <= limit
    ensures failure.None? <==> start + Sum(amounts) <= limit
    ensures failure.None? ==> total == start + Sum(amounts)
    ensures failure.Some? ==>
              exists n :: 0 <= n < |amounts| && start + Sum(amounts[..n]) <= limit < start + Sum(amounts[..n + 1])
                          && failure.value == AtMostMax(start + Sum(amounts[..n + 1]))
  {
    total := start;
    for i := 0 to |amounts|
      invariant total == start + Sum(amounts[..i]) <= limit
    {
      assert amounts[..i + 1][..i] == amounts[..i];
      var observed, exceeded := AddExceeds(total, amounts[i], limit);
      if exceeded {
        PrefixSum(amounts, i + 1);
        return total, Some(observed);
      }
      total := total + amounts[i];
    }
    assert amounts[..|amounts|] == amounts;
    return total, None;
  }

  // ----- Archive scanning ---------------------------------------------------------------------

  function AtLeastOne(n: int): int {
    if n == 0 then 1 else n
  }

  lemma QuotientTest(u: int, c: int, r: int)
    requires u >= 0 && c > 0 && r >= 0
    ensures (u / c > r || (u / c == r && u % c != 0)) <==> u > r * c
  {
    var q, m := u / c, u % c;
    assert u == q * c + m && 0 <= m < c;
    if q > r {
      ScaleMonotone(r + 1, q, c);
      assert (r + 1) * c == r * c + c;
    } else if q < r {
      ScaleMonotone(q + 1, r, c);
      assert (q + 1) * c == q * c + c;
    }
  }

  lemma ScaleMonotone(a: int, b: int, c: int)
    requires a <= b && c >= 0
    ensures a * c <= b * c
  {
    assert b * c - a * c == (b - a) * c;
    NonNegativeProduct(b - a, c);
  }

  lemma NonNegativeProduct(a: int, b: int)
    requires a >= 0 && b >= 0
    ensures a * b >= 0
  {
  }

  /** Never multiplies, so it never overflows, and still compares against the full product. */
  method CompressionRatioExceeded(uncompressed: Uint64, compressed: Uint64, maxRatio: Int64) returns (exceeded: bool)
    ensures maxRatio > 0 ==> (exceeded <==> uncompressed > maxRatio * AtLeastOne(compressed))
    ensures maxRatio <= 0 ==> (exceeded <==> uncompressed != 0)
  {
    var divisor: Uint64 := compressed;
    if divisor == 0 {
      divisor := 1;
    }
    if maxRatio <= 0 {
      return uncompressed != 0;
    }
    var quotient: Uint64 := Quotient(uncompressed, divisor);
    QuotientTest(uncompressed, divisor, maxRatio);
    return quotient > maxRatio || (quotient == maxRatio && uncompressed % divisor != 0);
  }

  function Quotient(u: Uint64, c: Uint64): (q: Uint64)
    requires c > 0
    ensures q == u / c
  {
    QuotientInRange(u, c);
    u / c
  }

  lemma QuotientInRange(u: int, c: int)
    requires u >= 0 && c > 0
    ensures 0 <= u / c <= u
  {
    var q := u / c;
    assert u == q * c + u % c;
    if q < 0 {
      ScaleMonotone(q, -1, c);
    } else {
      ScaleMonotone(1, c, q);
    }
  }

  /** The unsigned total of an archive listing. */
  method ScanTotals(sizes: seq<Uint64>, maxEntry: Size, maxTotal: Size) returns (ok: bool)
    ensures ok <==> (forall i :: 0 <= i < |sizes| ==> sizes[i] <= maxEntry) && Sum(sizes) <= maxTotal
  {
    var total: Uint64 := 0;
    for i := 0 to |sizes|
      invariant total == Sum(sizes[..i]) <= maxTotal && forall k :: 0 <= k < i ==> sizes[k] <= maxEntry
    {
      assert sizes[..i + 1][..i] == sizes[..i];
      if sizes[i] > maxEntry {
        return false;
      }
      var room: Uint64 := MAX_UINT64 - sizes[i];
      if total > room {
        return false;
      }
      total := total + sizes[i];
      if total > maxTotal {
        PrefixSum(sizes, i + 1);
        return false;
      }
    }
    assert sizes[..|sizes|] == sizes;
    return true;
  }

  // ----- Compiler input -----------------------------------------------------------------------

  datatype Resource =
    | ProjectSourceFiles | ProjectSourceBytes | PackFiles | PackBytes | Assets | AssetBytes | RasterDimension
    | RasterPixels

  datatype Verdict = Accepted | Exceeded(resource: Resource, limit: Size, observed: Size)

  /** The dimensions are absent when the asset is no raster image of its declared kind. */
  datatype AssetSize = AssetSize(bytes: Size, raster: Option<Raster>)
  datatype Raster = Raster(width: Size, height: Size)
  datatype InstallSize = InstallSize(manifest: Size, files: Size)

  datatype InputSizes = InputSizes(project: seq<Size>, tree: seq<Size>, installs: seq<InstallSize>,
                                   assets: seq<AssetSize>)

  datatype ResourceLimits = ResourceLimits(
    projectFiles: Size, projectBytes: Size, packFiles: Size, packBytes: Size, assets: Size, assetBytes: Size,
    rasterDimension: Size, rasterPixels: Size)

  function Manifests(installs: seq<InstallSize>): seq<Size> {
    seq(|installs|, i requires 0 <= i < |installs| => installs[i].manifest)
  }

  function FileCounts(installs: seq<InstallSize>): seq<Size> {
    seq(|installs|, i requires 0 <= i < |installs| => installs[i].files)
  }

  function AssetSizes(assets: seq<AssetSize>): seq<Size> {
    seq(|assets|, i requires 0 <= i < |assets| => assets[i].bytes)
  }

  predicate RasterFits(raster: Option<Raster>, limits: ResourceLimits) {
    raster.Some? ==>
      var r := raster.value;
      r.width <= limits.rasterDimension && r.height <= limits.rasterDimension &&
        r.width * r.height <= limits.rasterPixels
  }

  /** What the limits mean, over unbounded integers. */
  predicate Fits(input: InputSizes, limits: ResourceLimits) {
    && |input.project| <= limits.projectFiles && Sum(input.project) <= limits.projectBytes
    && |input.tree| <= limits.packFiles && |input.installs| + Sum(FileCounts(input.installs)) <= limits.packFiles
    && Sum(input.tree) + Sum(Manifests(input.installs)) <= limits.packBytes
    && |input.assets| <= limits.assets && Sum(AssetSizes(input.assets)) <= limits.assetBytes
    && forall i :: 0 <= i < |input.assets| ==> RasterFits(input.assets[i].raster, limits)
  }

  lemma ProductTest(w: int, h: int)
    requires w > 0 && h >= 0
    ensures h > MAX_INT64 / w <==> w * h > MAX_INT64
  {
    var q, m := MAX_INT64 / w, MAX_INT64 % w;
    assert MAX_INT64 == q * w + m && 0 <= m < w;
    if h > q {
      ScaleMonotone(q + 1, h, w);
      assert (q + 1) * w == q * w + w;
    } else {
      ScaleMonotone(h, q, w);
    }
  }

  method ValidateRaster(r: Raster, limits: ResourceLimits) returns (verdict: Verdict)
    ensures verdict.Accepted? <==> RasterFits(Some(r), limits)
    ensures verdict.Exceeded? ==> verdict.observed > verdict.limit || verdict.observed == MAX_INT64
  {
    var dimension := if r.width > r.height then r.width else r.height;
    if dimension > limits.rasterDimension {
      return Exceeded(RasterDimension, limits.rasterDimension, dimension);
    }
    if r.width > 0 && r.height > MAX_INT64 / r.width {
      ProductTest(r.width, r.height);
      return Exceeded(RasterPixels, limits.rasterPixels, MAX_INT64);
    }
    if r.width > 0 {
      ProductTest(r.width, r.height);
    }
    NonNegativeProduct(r.width, r.height);
    var pixels: Size := r.width * r.height;
    if pixels > limits.rasterPixels {
      return Exceeded(RasterPixels, limits.rasterPixels, pixels);
    }
    return Accepted;
  }

  method CheckAssets(assets: seq<AssetSize>, limits: ResourceLimits) returns (verdict: Verdict)
    ensures verdict.Accepted? <==>
              && Sum(AssetSizes(assets)) <= limits.assetBytes
              && forall i :: 0 <= i < |assets| ==> RasterFits(assets[i].raster, limits)
  {
    var sizes := AssetSizes(assets);
    var total: Size := 0;
    for i := 0 to |assets|
      invariant total == Sum(sizes[..i]) <= limits.assetBytes
      invariant forall k :: 0 <= k < i ==> RasterFits(assets[k].raster, limits)
    {
      assert sizes[..i + 1][..i] == sizes[..i];
      var observed, exceeded := AddExceeds(total, assets[i].bytes, limits.assetBytes);
      if exceeded {
        PrefixSum(sizes, i + 1);
        return Exceeded(AssetBytes, limits.assetBytes, observed);
      }
      total := total + assets[i].bytes;
      if assets[i].raster.Some? {
        verdict := ValidateRaster(assets[i].raster.value, limits);
        if verdict.Exceeded? {
          return;
        }
      }
    }
    assert sizes[..|assets|] == sizes;
    return Accepted;
  }

  /** Accepts exactly the inputs that fit, whatever order their parts are counted in. */
  method CloneClosedInput(input: InputSizes, limits: ResourceLimits) returns (verdict: Verdict)
    requires |input.project| <= MAX_INT64 && |input.tree| <= MAX_INT64 && |input.installs| <= MAX_INT64 &&
             |input.assets| <= MAX_INT64
    ensures verdict.Accepted? <==> Fits(input, limits)
  {
    if |input.project| > limits.projectFiles {
      return Exceeded(ProjectSourceFiles, limits.projectFiles, |input.project|);
    }
    var total, failure := Accumulate(0, input.project, limits.projectBytes);
    if failure.Some? {
      return Exceeded(ProjectSourceBytes, limits.projectBytes, failure.value);
    }
    if |input.tree| > limits.packFiles {
      return Exceeded(PackFiles, limits.packFiles, |input.tree|);
    }
    CountsAreSizes(FileCounts(input.installs));
    CountsAreSizes(input.tree);
    CountsAreSizes(Manifests(input.installs));
    if |input.installs| > limits.packFiles {
      return Exceeded(PackFiles, limits.packFiles, |input.installs|);
    }
    total, failure := Accumulate(|input.installs|, FileCounts(input.installs), limits.packFiles);
    if failure.Some? {
      return Exceeded(PackFiles, limits.packFiles, failure.value);
    }
    total, failure := Accumulate(0, input.tree, limits.packBytes);
    if failure.Some? {
      return Exceeded(PackBytes, limits.packBytes, failure.value);
    }
    total, failure := Accumulate(total, Manifests(input.installs), limits.packBytes);
    if failure.Some? {
      return Exceeded(PackBytes, limits.packBytes, failure.value);
    }
    if |input.assets| > limits.assets {
      return Exceeded(Assets, limits.assets, |input.assets|);
    }
    verdict := CheckAssets(input.assets, limits);
  }

  lemma CountsAreSizes(amounts: seq<Size>)
    ensures Sum(amounts) >= 0
  {
    PrefixSum(amounts, 0);
    assert amounts[..0] == [];
  }
}
