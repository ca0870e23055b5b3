/**
 * The package classifier: validate four measurements, derive volume and the
 * bulky/heavy predicates, and map the predicate pair onto a category.
 */
module PackageSorter {
  import opened Types

  /** Threshold values of the sorting rules (cm^3, cm and kg). */
  const VolumeThreshold: real := 1000000.0
  const DimensionThreshold: real := 150.0
  const MassThreshold: real := 20.0

  /** Volume in cm^3: positive whenever every dimension is. */
  function Volume(width: real, height: real, length: real): (v: real)
    ensures 0.0 < width && 0.0 < height && 0.0 < length ==> 0.0 < v
  {
    width * height * length
  }

  function Max(a: real, b: real): real {
    if a < b then b else a
  }

  /**
   * Bulky: the volume or any single dimension reaches its threshold, that is,
   * the volume or the largest dimension does. Both thresholds are inclusive.
   */
  function IsBulky(width: real, height: real, length: real): (b: bool)
    ensures b <==>
      Volume(width, height, length) >= VolumeThreshold ||
      Max(Max(width, height), length) >= DimensionThreshold
    ensures (width == DimensionThreshold || height == DimensionThreshold ||
             length == DimensionThreshold || Volume(width, height, length) == VolumeThreshold) ==> b
  {
    Volume(width, height, length) >= VolumeThreshold ||
    width >= DimensionThreshold ||
    height >= DimensionThreshold ||
    length >= DimensionThreshold
  }

  /** Heavy: the mass reaches its threshold. */
  predicate IsHeavy(mass: real) {
    mass >= MassThreshold
  }

  /** Some input fails the positivity guard. */
  predicate AnyAtMostZero(width: Num, height: Num, length: Num, mass: Num) {
    AtMostZero(width) || AtMostZero(height) || AtMostZero(length) || AtMostZero(mass)
  }

  /** Every input passes the finiteness guard. */
  predicate AllFinite(width: Num, height: Num, length: Num, mass: Num) {
    IsFinite(width) && IsFinite(height) && IsFinite(length) && IsFinite(mass)
  }

  /** Every input is a finite, strictly positive number: the domain on which a category is returned. */
  predicate Valid(width: Num, height: Num, length: Num, mass: Num) {
    width.Finite? && height.Finite? && length.Finite? && mass.Finite? &&
    width.val > 0.0 && height.val > 0.0 && length.val > 0.0 && mass.val > 0.0
  }

  /**
   * Classify a package. The positivity guard runs first, then the finiteness
   * guard; a valid package gets REJECTED when bulky and heavy, SPECIAL when
   * exactly one holds and STANDARD when neither does.
   */
  function Sort(width: Num, height: Num, length: Num, mass: Num): (r: Result<SortResult>)
    ensures r == Err(NonPositive) <==> AnyAtMostZero(width, height, length, mass)
    ensures r == Err(NonFinite) <==>
      !AnyAtMostZero(width, height, length, mass) && !AllFinite(width, height, length, mass)
    ensures r.Ok? <==> Valid(width, height, length, mass)
    ensures r.Ok? ==>
      (r.value == Rejected <==> IsBulky(width.val, height.val, length.val) && IsHeavy(mass.val))
    ensures r.Ok? ==>
      (r.value == Special <==> IsBulky(width.val, height.val, length.val) != IsHeavy(mass.val))
    ensures r.Ok? ==>
      (r.value == Standard <==> !IsBulky(width.val, height.val, length.val) && !IsHeavy(mass.val))
  {
    if AnyAtMostZero(width, height, length, mass) then
      Err(NonPositive)
    else if !AllFinite(width, height, length, mass) then
      Err(NonFinite)
    else
      var w, h, l, m := width.val, height.val, length.val, mass.val;
      var bulky := IsBulky(w, h, l);
      var heavy := IsHeavy(m);
      if bulky && heavy then Ok(Rejected)
      else if bulky || heavy then Ok(Special)
      else Ok(Standard)
  }

  /** Sort on four finite measurements, the form the fixtures use. */
  function SortReals(width: real, height: real, length: real, mass: real): Result<SortResult> {
    Sort(Finite(width), Finite(height), Finite(length), Finite(mass))
  }

  // ---------------------------------------------------------------------------
  // Validation order

  /** A non-positive value wins over a non-finite one elsewhere in the input. */
  lemma PositivityCheckedFirst(width: Num, height: Num, length: Num, mass: Num)
    requires AnyAtMostZero(width, height, length, mass)
    requires !AllFinite(width, height, length, mass)
    ensures Sort(width, height, length, mass) == Err(NonPositive)
  {
  }

  /** -Infinity in any position is caught by the positivity guard. */
  lemma NegativeInfinityIsNonPositive(width: Num, height: Num, length: Num, mass: Num)
    requires width == NegInf || height == NegInf || length == NegInf || mass == NegInf
    ensures Sort(width, height, length, mass) == Err(NonPositive)
  {
  }

  /**
   * NaN or +Infinity in any position passes the positivity guard and is
   * caught by the finiteness guard, unless another value is non-positive.
   */
  lemma NaNOrInfinityIsNonFinite(width: Num, height: Num, length: Num, mass: Num)
    requires !AnyAtMostZero(width, height, length, mass)
    requires width in {NaN, PosInf} || height in {NaN, PosInf} ||
      length in {NaN, PosInf} || mass in {NaN, PosInf}
    ensures Sort(width, height, length, mass) == Err(NonFinite)
  {
  }

  // ---------------------------------------------------------------------------
  // Inclusive thresholds

  /**
   * A valid package with one dimension exactly at the dimension threshold is
   * bulky whatever its other dimensions: SPECIAL, or REJECTED when also heavy.
   */
  lemma SortDimensionAtThreshold(width: real, height: real, length: real, mass: real)
    requires 0.0 < width && 0.0 < height && 0.0 < length && 0.0 < mass
    requires width == DimensionThreshold || height == DimensionThreshold || length == DimensionThreshold
    ensures SortReals(width, height, length, mass) ==
      Ok(if mass >= MassThreshold then Rejected else Special)
  {
  }

  /** A valid package whose volume is exactly at the volume threshold is bulky. */
  lemma SortVolumeAtThreshold(width: real, height: real, length: real, mass: real)
    requires 0.0 < width && 0.0 < height && 0.0 < length && 0.0 < mass
    requires Volume(width, height, length) == VolumeThreshold
    ensures SortReals(width, height, length, mass) ==
      Ok(if mass >= MassThreshold then Rejected else Special)
  {
  }

  /** A valid package whose mass is exactly at the mass threshold is heavy. */
  lemma SortMassAtThreshold(width: real, height: real, length: real, mass: real)
    requires 0.0 < width && 0.0 < height && 0.0 < length
    requires mass == MassThreshold
    ensures SortReals(width, height, length, mass) ==
      Ok(if IsBulky(width, height, length) then Rejected else Special)
  {
  }

  /**
   * With every dimension below 100 cm the volume stays below the volume
   * threshold, so such a package is not bulky: the volume rule only adds
   * packages with some dimension of at least 100 cm.
   */
  lemma SmallDimensionsNotBulky(width: real, height: real, length: real)
    requires 0.0 < width < 100.0 && 0.0 < height < 100.0 && 0.0 < length < 100.0
    ensures !IsBulky(width, height, length)
  {
  }

  // ---------------------------------------------------------------------------
  // Monotonicity

  /** Scaling by a non-negative factor keeps an order. */
  lemma ScaleMonotone(a: real, b: real, c: real)
    requires a <= b && 0.0 <= c
    ensures a * c <= b * c
  {
  }

  /** The volume grows with each dimension. */
  lemma VolumeMonotone(w: real, h: real, l: real, w': real, h': real, l': real)
    requires 0.0 < w <= w' && 0.0 < h <= h' && 0.0 < l <= l'
    ensures Volume(w, h, l) <= Volume(w', h', l')
  {
    ScaleMonotone(w, w', h);
    ScaleMonotone(h, h', w');
    assert w * h <= w' * h';
    ScaleMonotone(w * h, w' * h', l);
    ScaleMonotone(l, l', w' * h');
  }

  /** A heavy package stays heavy when its mass grows. */
  lemma HeavyMonotone(m: real, m': real)
    requires m <= m'
    ensures IsHeavy(m) ==> IsHeavy(m')
  {
  }

  /** A bulky package stays bulky when any of its dimensions grows. */
  lemma BulkyMonotone(w: real, h: real, l: real, w': real, h': real, l': real)
    requires 0.0 < w <= w' && 0.0 < h <= h' && 0.0 < l <= l'
    ensures IsBulky(w, h, l) ==> IsBulky(w', h', l')
  {
    VolumeMonotone(w, h, l, w', h', l');
  }

  /**
   * Growing any measurement of a valid package never lowers its category
   * in the order Standard < Special < Rejected.
   */
  lemma SortMonotone(w: real, h: real, l: real, m: real, w': real, h': real, l': real, m': real)
    requires 0.0 < w <= w' && 0.0 < h <= h' && 0.0 < l <= l' && 0.0 < m <= m'
    ensures SortReals(w, h, l, m).Ok? && SortReals(w', h', l', m').Ok?
    ensures Rank(SortReals(w, h, l, m).value) <= Rank(SortReals(w', h', l', m').value)
  {
    BulkyMonotone(w, h, l, w', h', l');
    HeavyMonotone(m, m');
    RankOrder();
  }
}
