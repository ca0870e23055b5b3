# Package sorter classifier, modelled in Dafny

The repository classifies a physical package into one of three handling
categories, `STANDARD`, `SPECIAL` or `REJECTED`, from its width, height and
length (cm) and its mass (kg). This project models the classifier `sort`
and the fixed table of example packages, and proves its properties:

- `types.dfy` (module `Types`): the closed `SortResult` enumeration, its severity
  order `Rank`, JavaScript numbers as `Num = Finite(real) | PosInf | NegInf | NaN`
  with the semantics of `x <= 0` (`AtMostZero`: true for -Infinity and finite
  values at most zero, false for NaN and +Infinity) and of `isFinite(x)`
  (`IsFinite`: false exactly for NaN and the two infinities), and the two errors.
- `package_sorter.dfy` (module `PackageSorter`): the thresholds, `Volume`,
  `IsBulky`, `IsHeavy` and `Sort`, and lemmas on validation order, inclusive
  thresholds and monotonicity.
- `test_cases.dfy` (module `TestCases`): the six example packages as a
  constant sequence, and one lemma per fixture that it gets the category its
  name announces.

The thresholds are fixed at 1,000,000 cm³ for volume, 150 cm for any single
dimension and 20 kg for mass; the fixture names agree with these values.
`src/core/constants`, which defines them, is not part of this model.

Validation follows the order of the two guards in `sort`:

- `sort` throws two different errors, the positivity one first
  (src/core/packageSorter.ts:10-21). The model keeps them apart as
  `NonPositive` and `NonFinite`.
- JavaScript's `-Infinity <= 0` is true, so `-Infinity` gets the positivity
  error. `NaN <= 0` and `Infinity <= 0` are false, so `NaN` and `+Infinity`
  pass the first guard and get the finiteness error.

## Model

| member | source | states |
|---|---|---|
| Types.NonFiniteSplitByPositivity | src/core/packageSorter.ts:10-18 | of the non-finite values, JavaScript `x <= 0` holds for -Infinity alone; NaN and +Infinity fail `isFinite` without failing `x <= 0` |
| PackageSorter.Volume | src/core/packageSorter.ts:23 | the volume `width * height * length` is positive whenever all three dimensions are |
| PackageSorter.IsBulky | src/core/packageSorter.ts:24-28 | bulky iff the volume reaches 1,000,000 cm³ or the largest dimension reaches 150 cm; a dimension or a volume exactly at its threshold is bulky |
| PackageSorter.HeavyMonotone | src/core/packageSorter.ts:29 | a heavy package stays heavy when its mass grows |
| PackageSorter.BulkyMonotone | src/core/packageSorter.ts:23-28 | a bulky package stays bulky when any of its positive dimensions grows |
| PackageSorter.Sort | src/core/packageSorter.ts:4-38 | fails with NonPositive iff some input is `<= 0`; fails with NonFinite iff none is `<= 0` and some is not finite; returns a category iff all four are finite and positive; on success the category is REJECTED iff bulky and heavy, SPECIAL iff exactly one holds, STANDARD iff neither holds |
| PackageSorter.PositivityCheckedFirst | src/core/packageSorter.ts:10-21 | an input with a non-positive value and a non-finite value yields the positivity error, not the finiteness error |
| PackageSorter.NegativeInfinityIsNonPositive | src/core/packageSorter.ts:10-12 | -Infinity in any of the four positions yields the positivity error, whatever the other inputs are |
| PackageSorter.NaNOrInfinityIsNonFinite | src/core/packageSorter.ts:10-21 | when no input is `<= 0`, NaN or +Infinity in any of the four positions yields the finiteness error |
| PackageSorter.SortDimensionAtThreshold | src/core/packageSorter.ts:24-37 | a valid package with one dimension exactly at 150 cm is SPECIAL, or REJECTED when its mass reaches 20 kg, whatever its other dimensions |
| PackageSorter.SortVolumeAtThreshold | src/core/packageSorter.ts:23-37 | a valid package with a volume exactly at 1,000,000 cm³ is SPECIAL, or REJECTED when its mass reaches 20 kg |
| PackageSorter.SortMassAtThreshold | src/core/packageSorter.ts:29-37 | a valid package with a mass exactly at 20 kg is SPECIAL, or REJECTED when it is also bulky |
| PackageSorter.SmallDimensionsNotBulky | src/core/packageSorter.ts:23-28 | a package with every dimension below 100 cm is not bulky, so the volume rule only matters once a dimension reaches 100 cm |
| Types.RankOrder | src/core/types.ts:1 | the severities order the categories STANDARD < SPECIAL < REJECTED, the order the monotonicity lemma uses |
| PackageSorter.VolumeMonotone | src/core/packageSorter.ts:23 | for positive dimensions, the volume does not shrink when any dimension grows |
| PackageSorter.SortMonotone | src/core/packageSorter.ts:23-37 | growing any dimension or the mass of a valid package keeps it valid and never lowers its category in the order STANDARD < SPECIAL < REJECTED |
| TestCases.SmallStandardPackage | src/test/testCases.ts:4-10 | 50×50×50 cm, 10 kg is STANDARD |
| TestCases.EdgeCaseStandard | src/test/testCases.ts:11-17 | 149×10×10 cm, 19.9 kg is below the dimension and mass thresholds and is STANDARD |
| TestCases.BulkyByDimension | src/test/testCases.ts:18-24 | 150×20×20 cm, 15 kg has its width exactly at the threshold and a volume below it, and is SPECIAL |
| TestCases.BulkyByVolume | src/test/testCases.ts:25-31 | 100×100×100 cm, 10 kg has its volume exactly at the threshold and every dimension below it, and is SPECIAL |
| TestCases.HeavyPackage | src/test/testCases.ts:32-38 | 30×30×30 cm, 25 kg is heavy, not bulky, and is SPECIAL |
| TestCases.RejectedPackage | src/test/testCases.ts:39-45 | 200×100×50 cm, 30 kg is REJECTED |
| TestCases.AllFixturesAsNamed | src/test/testCases.ts:3-46 | every fixture has positive inputs, none makes the classifier fail, and each gets the category its name states |

## Left out

- IEEE 754 double arithmetic: measurements are exact reals. The rounding of `width * height * length` near the volume threshold, an overflow of that product to Infinity, and the exact double value of `MASS_THRESHOLD - 0.1` are not modelled.
- Error messages: only the two error kinds are told apart, not their text.
- `src/PackageSorterDemo.tsx`: the React form, `parseFloat`/`isNaN` text parsing, colour and icon lookups and rendering are presentation. Its recomputation of volume, bulky and heavy is the same formula as `sort`, so `Volume`, `IsBulky` and `IsHeavy` cover it.
- The interfaces `Package`, `PackageAnalysis` and `TestCase` in `src/core/types.ts` are unused by `sort`. Only `SortResult` is modelled.
- `src/core/constants` is not part of this model. The threshold values are fixed constants here, not read from that module.
- Determinism and idempotence of classification are not stated as lemmas. `Sort` is a Dafny function, so equal inputs give equal results by construction.
