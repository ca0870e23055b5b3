/**
 * The fixed table of example packages offered to the form, and the category
 * each one's name announces.
 */
module TestCases {
  import opened Types
  import opened PackageSorter

  datatype Fixture = Fixture(width: real, height: real, length: real, mass: real, name: string)

  /** The six example packages, in table order. */
  const Fixtures: seq<Fixture> := [
    Fixture(50.0, 50.0, 50.0, 10.0, "Small Standard Package"),
    Fixture(DimensionThreshold - 1.0, 10.0, 10.0, MassThreshold - 0.1, "Edge Case Standard"),
    Fixture(DimensionThreshold, 20.0, 20.0, 15.0, "Bulky by Dimension"),
    Fixture(100.0, 100.0, 100.0, 10.0, "Bulky by Volume"),
    Fixture(30.0, 30.0, 30.0, MassThreshold + 5.0, "Heavy Package"),
    Fixture(200.0, 100.0, 50.0, MassThreshold + 10.0, "Rejected Package")
  ]

  /** The category each fixture's name states, position by position. */
  const NamedCategories: seq<SortResult> := [Standard, Standard, Special, Special, Special, Rejected]

  function SortFixture(f: Fixture): Result<SortResult> {
    SortReals(f.width, f.height, f.length, f.mass)
  }

  lemma SmallStandardPackage()
    ensures Fixtures[0].name == "Small Standard Package"
    ensures SortFixture(Fixtures[0]) == Ok(Standard)
  {
  }

  /** Just below both the dimension and the mass threshold. */
  lemma EdgeCaseStandard()
    ensures Fixtures[1].name == "Edge Case Standard"
    ensures Fixtures[1].width < DimensionThreshold && Fixtures[1].mass < MassThreshold
    ensures SortFixture(Fixtures[1]) == Ok(Standard)
  {
  }

  /** Bulky only because the width is exactly at the dimension threshold. */
  lemma BulkyByDimension()
    ensures Fixtures[2].name == "Bulky by Dimension"
    ensures Fixtures[2].width == DimensionThreshold
    ensures Volume(Fixtures[2].width, Fixtures[2].height, Fixtures[2].length) < VolumeThreshold
    ensures SortFixture(Fixtures[2]) == Ok(Special)
  {
  }

  /** Bulky only because the volume is exactly at the volume threshold. */
  lemma BulkyByVolume()
    ensures Fixtures[3].name == "Bulky by Volume"
    ensures Volume(Fixtures[3].width, Fixtures[3].height, Fixtures[3].length) == VolumeThreshold
    ensures Fixtures[3].width < DimensionThreshold && Fixtures[3].height < DimensionThreshold
    ensures Fixtures[3].length < DimensionThreshold
    ensures SortFixture(Fixtures[3]) == Ok(Special)
  {
  }

  /** Heavy but not bulky. */
  lemma HeavyPackage()
    ensures Fixtures[4].name == "Heavy Package"
    ensures IsHeavy(Fixtures[4].mass)
    ensures !IsBulky(Fixtures[4].width, Fixtures[4].height, Fixtures[4].length)
    ensures SortFixture(Fixtures[4]) == Ok(Special)
  {
  }

  /** Bulky and heavy. */
  lemma RejectedPackage()
    ensures Fixtures[5].name == "Rejected Package"
    ensures SortFixture(Fixtures[5]) == Ok(Rejected)
  {
  }

  /** No fixture makes the classifier fail, and each gets the category its name states. */
  lemma AllFixturesAsNamed()
    ensures |Fixtures| == |NamedCategories|
    ensures forall i :: 0 <= i < |Fixtures| ==>
      Fixtures[i].width > 0.0 && Fixtures[i].height > 0.0 &&
      Fixtures[i].length > 0.0 && Fixtures[i].mass > 0.0
    ensures forall i :: 0 <= i < |Fixtures| ==> SortFixture(Fixtures[i]) == Ok(NamedCategories[i])
  {
  }
}
