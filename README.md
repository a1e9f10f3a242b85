# Turing's-method Gram-point table, modelled in Dafny

This project models the table builder behind the Turing's-method report of
the Hardy Z program (`CompTuring.c` with the records of `turing.h`).
Starting from the Gram point g(n0) that the locator finds at or below the
`-t` value, the builder does five things in order:

- It records CountGram+1 consecutive Gram points with their indices and
  alternating signs (-1)^n.
- It records the interval and sub-interval lengths.
- It has the external evaluator sample Z at CountZ points per interval,
  and at two boundary points, through three callbacks.
- It marks each Gram point good or bad.
- TuringReport then lists the samples, and ComputeTuringK gives the
  threshold K of Turing's method.

Files:

- `turing.dfy`, module `Turing`: covers `turing.h`.
  - The records `TuringConfig` (struct TURING) and `GramEntry` (struct
    GRAMLIST).
  - The field comments as functions and predicates: `MinusOneToN`,
    `IsGood`, `OddZerosRule`, `LenInterval`, `LenSubInterval`.
  - The lemmas that say what these rules mean.
- `comp_turing.dfy`, module `CompTuring`: covers `CompTuring.c`.
  - The global `gList` is the class `GramTable`, holding an `array<GramEntry>`
    that the methods update in place.
  - The callbacks A/B/C, the evaluator's batch loop `HardyZWithCount` and
    `ComputeTuring` (split into one method per loop) are methods.
  - Each callback and the batch loop is proved against a specification
    function (`Delivered`, `Batch`). `ComputeTuring` is proved against the
    predicate `Tabulated`.
  - The read-only listing `TuringReport` is a function producing rows.
  - `ComputeTuringK` is a function.
- `comp_turing_properties.dfy`, module `CompTuringProperties`: what a built
  table and its listing mean in terms of the evaluator.
  - Goodness against (-1)^n Z(g(n)).
  - `OddZeros` against a sign change of Z.
  - Listing rows are Z samples, in label order, at ascending locations.
  - The growth of K.

The evaluator enters the model as an `Evaluator` value holding three
functions:

- `gramNearT`: the index n0 returned by GramNearT.
- `gramAtN`: g(n), as computed by GramAtN.
- `hardyZ`: Z(t).

MPFR numbers and `double`s are exact `real`s. The natural logarithm in
ComputeTuringK is a function parameter `log`.

`CompTuring.c` uses `HardyZValue[]` and `HardyZBefore`, which the
`turing.h` in this repository (dated January 2026) does not declare. The
record follows `CompTuring.c`, plus the header's `OddZeros` and
`ZerosFound` fields. The table size
HGT_TUR_GRAM_PTS_MAX and the length of `HardyZValue` come from headers that
are not part of this model. They are the constructor parameters `capacity`
and `zCapacity`, and ComputeTuring requires `CountGram <= capacity` and
`CountZ <= zCapacity`. Within those bounds, every index the code uses is
proved in range.

The listing has CountGram*CountZ+2 rows: the before-sample "G( 0) -1"
first, then the row for label G(i) j at row 1 + i*CountZ + j, then the
closing sample "G(CountGram)  0" last. `ReportInListingOrder`, together
with `TuringReport`'s own contract, shows that labels and rows correspond
one to one. The table itself keeps CountZ samples per Gram point, plus a
before-sample on entry 0, as `CompTuring.c` does.

CompTuring.c:96 divides by CountZ without a check. Turing.c:108-113
rejects CountGram < 1 and Turing.c:115-120 rejects CountZ < 1 before
ComputeTuring is called, so ComputeTuring requires both to be at least 1.

## Model

| member | source | states |
|---|---|---|
| Turing.ZeroEntry | CompTuring.c:26 | every field of a static entry starts at zero (false for the flags), with zCapacity zero Z slots |
| Turing.MinusOneToN | turing.h:27 | the sign is always +1 or -1, and +1 exactly for even n |
| Turing.IsGood | turing.h:28 | a point is good exactly when its sign and its Z value are both positive or both negative |
| Turing.OddZerosRule | turing.h:29 | holds exactly when this and the next Gram point are both good or both bad |
| Turing.LenInterval | turing.h:25 | the interval length added to a Gram point gives the next Gram point |
| Turing.LenSubInterval | turing.h:26 | CountZ sub-interval lengths add up to the interval length |
| Turing.GoodAsStored | CompTuring.c:133 | storing `GoodTest > 0 ? 1 : -1` into turing.h's `bool Good` yields true for every input |
| CompTuring.GramTable.constructor | CompTuring.c:26 | the table has HGT_TUR_GRAM_PTS_MAX+1 entries, each zero-initialised (static storage) with its full row of Z slots |
| Turing.MinusOneToNIsPower | turing.h:27 | the stored sign (1 for even n, -1 for odd n) is exactly (-1)^n |
| Turing.MinusOneToNAlternates | CompTuring.c:84-85 | the sign of n+1 is the negation of the sign of n, so flipping a running sign keeps it equal to the parity rule |
| Turing.GoodSignRule | turing.h:28 | with sign +1 a point is good iff Z > 0, with sign -1 iff Z < 0; a zero Z value is never good |
| Turing.GoodAsStoredMisclassifies | CompTuring.c:133 | concrete input (even n, Z = -1) where the stored flag says good but the documented rule says bad |
| Turing.OddZerosIffOppositeSigns | turing.h:29 | for consecutive Gram points with non-zero Z, "both good or both bad" holds iff Z changes sign between them |
| Turing.SubIntervalsTile | turing.h:25-26 | CountZ sub-intervals of length lenInterval/CountZ laid from a Gram point end exactly at the next one, and are positive when Gram points increase |
| CompTuring.Delivered | CompTuring.c:284-303 | one callback writes exactly one slot of entry CallerID (A: HardyZValue[i], B: HardyZBefore, C: HardyZValue[0]) and changes nothing else |
| CompTuring.Batch | CompTuring.c:111 | a batch of callbacks leaves every other entry unchanged and touches only the Z samples of entry CallerID |
| CompTuring.BatchFillsSamples | CompTuring.c:110-113 | a batch through callback A of count points stores Z(start + j*step) in slots j < count and leaves the other slots and HardyZBefore alone |
| CompTuring.GramTable.HardyZCallbackA | CompTuring.c:284-288 | the table after the call is `Delivered(old table, A, Z, i, CallerID)` |
| CompTuring.GramTable.HardyZCallbackB | CompTuring.c:291-295 | the table after the call is `Delivered(old table, B, Z, i, CallerID)` |
| CompTuring.GramTable.HardyZCallbackC | CompTuring.c:299-303 | the table after the call is `Delivered(old table, C, Z, i, CallerID)`, whatever i is |
| CompTuring.GramTable.HardyZWithCount | CompTuring.c:111 | the evaluator's batch loop leaves the table equal to `Batch`: count callbacks at start + k*step, point index k |
| CompTuring.GramTable.ComputeTuring | CompTuring.c:32-136 | the table is `Tabulated` for n0 = GramNearT(t); everything the code never writes keeps its value (`KeepsUntouched`: OddZeros/ZerosFound, entries past CountGram, HardyZBefore of entries 1..CountGram, HardyZValue[j >= CountZ] of entries below CountGram, and the lengths and HardyZValue[1..] of entry CountGram); the report is `TuringReport` of the built table |
| CompTuring.GramTable.BuildTable | CompTuring.c:69-134 | the five loops together leave the table `Tabulated` from n0, and every field they never write unchanged (`KeepsUntouched`) |
| CompTuring.GramTable.LocateGramPoints | CompTuring.c:69-87 | entries 0..CountGram hold n = n0+i, Gram = g(n0+i) and MinusOneToN = (-1)^(n0+i); no other field of any entry changes |
| CompTuring.GramTable.MeasureIntervals | CompTuring.c:94-97 | for i < CountGram, lenInterval = Gram[i+1] - Gram[i] and lenSubInterval = lenInterval / CountZ; only those two fields change |
| CompTuring.GramTable.SampleIntervals | CompTuring.c:110-113 | for i < CountGram and j < CountZ, HardyZValue[j] = Z(Gram[i] + j*lenSubInterval[i]); only those samples change, slots j >= CountZ and entries from CountGram on keep their values |
| CompTuring.GramTable.SampleBoundaries | CompTuring.c:121-124 | HardyZBefore of entry 0 = Z(Gram[0] - lenSubInterval[0]) and HardyZValue[0] of entry CountGram = Z(Gram[CountGram]), by one B and one C callback |
| CompTuring.GramTable.ClassifyGramPoints | CompTuring.c:130-134 | for i <= CountGram, Good = (MinusOneToN * HardyZValue[0] > 0); only the good flags change |
| CompTuring.BeforeRow | CompTuring.c:200-202 | the row "G( 0) -1" lies one sub-interval before Gram[0] (offset -1 in entry 0's sample spacing) and shows HardyZBefore |
| CompTuring.SampleRow | CompTuring.c:209-215 | row "G(i) j" lies at the j-th sub-interval point after Gram[i] and shows HardyZValue[j] |
| CompTuring.ClosingRow | CompTuring.c:222-224 | the row "G(CountGram)  0" is exactly the sample row at offset 0 of entry CountGram |
| CompTuring.GramPointRows | CompTuring.c:209-215 | the inner listing loop yields exactly m rows, row j being G(i) j at Gram + j*lenSubInterval with HardyZValue[j] |
| CompTuring.IntervalRows | CompTuring.c:208-216 | the outer listing loop over k intervals yields k*CountZ rows |
| CompTuring.IntervalRowsAt | CompTuring.c:208-216 | row i*CountZ + j of the outer loop is G(i) j, for all i < k and j < CountZ |
| CompTuring.TuringReport | CompTuring.c:196-224 | exactly CountGram*CountZ+2 rows: "G( 0) -1" at Gram[0]-lenSub[0] with HardyZBefore, then G(i) j at row 1+i*CountZ+j, then "G(CountGram)  0" at Gram[CountGram] |
| CompTuring.TuringBound | CompTuring.c:252-257 | 0.00313 L^2 + 0.1039 L is at least 0.1039 L, and so non-negative, for L >= 0 |
| CompTuring.Ceiling | CompTuring.c:258 | the result k is the least integer not below x: x <= k < x+1 |
| CompTuring.TuringBoundAboveMinusOne | CompTuring.c:254-257 | 0.00313 L^2 + 0.1039 L > -1 for every L, so its ceiling is never negative |
| CompTuring.ComputeTuringK | CompTuring.c:232-262 | K >= 0.00313 L^2 + 0.1039 L with L = log(Gram+100), K-1 is below that bound (the smallest such integer), and K >= 0 |
| CompTuringProperties.SampleZeroIsZAtGramPoint | CompTuring.c:103-107 | in a built table, sample 0 of every entry 0..CountGram is Z at that Gram point g(n0+i) |
| CompTuringProperties.GoodMeansSignAgrees | CompTuring.c:130-134 | in a built table, Gram point i is good iff (-1)^(n0+i) * Z(g(n0+i)) > 0 |
| CompTuringProperties.TabulatedSignsAlternate | CompTuring.c:81-87 | consecutive entries have consecutive n and opposite signs, each sign being +1 or -1 |
| CompTuringProperties.OddZeros | turing.h:29 | OddZeros of entry k holds exactly when entries k and k+1 are both good or both bad |
| CompTuringProperties.OddZerosMeansSignChange | turing.h:29 | with Z non-zero at both ends, OddZeros of interval k (both good or both bad) holds iff Z(g(n0+k)) * Z(g(n0+k+1)) < 0 |
| CompTuringProperties.IntervalRowsAreSamples | CompTuring.c:208-216 | every sample row shows Z at its own location |
| CompTuringProperties.ReportRowsAreSamples | CompTuring.c:196-224 | every row of the listing of a built table, boundary rows included, pairs a location t with Z(t) |
| CompTuringProperties.ListedRowsAreSamples | CompTuring.c:196-224 | the same, from only the sampled parts of the table |
| CompTuringProperties.GramPointRowsInOrder | CompTuring.c:209-215 | the rows of one Gram point carry label i and offsets 0..m-1 in increasing order |
| CompTuringProperties.IntervalRowsInOrder | CompTuring.c:208-216 | the sample rows carry labels (i, j) with i < k and j < CountZ, strictly in lexicographic order |
| CompTuringProperties.ReportInListingOrder | CompTuring.c:196-224 | the listing's labels are strictly increasing ("G( 0) -1" first, "G(CountGram)  0" last), so no label repeats and every label is one of the three kinds |
| CompTuringProperties.SamplePointsInInterval | CompTuring.c:103-107 | sample point j < CountZ of an increasing interval lies in [Gram, next Gram), and later points lie further on |
| CompTuringProperties.GramPointRowsAscending | CompTuring.c:209-215 | the rows of one increasing interval lie inside it at strictly increasing locations |
| CompTuringProperties.IntervalRowsAscending | CompTuring.c:208-216 | with increasing Gram points, the sample rows lie in [Gram[0], Gram[k]) at strictly increasing locations |
| CompTuringProperties.ReportLocationsAscending | CompTuring.c:196-224 | when g(n) increases with n, the listing of a built table visits strictly increasing locations, before-row and closing row included |
| CompTuringProperties.TuringBoundIncreasing | CompTuring.c:236 | the bound 0.00313 L^2 + 0.1039 L grows with L for L >= 0 |
| CompTuringProperties.TuringKGrowsWithHeight | CompTuring.c:232-236 | K never shrinks as log(Gram+100) grows, and K >= 1 ("smallest positive integer") whenever log(Gram+100) > 0 |
| CompTuringProperties.TuringKAtGramZero | CompTuring.c:252-259 | for Gram = 0, with ln 100 between 4.6 and 4.7, K = 1 |

## Left out

- MPFR arithmetic and its rounding (`MPFR_RNDN`, `MPFR_RNDU`), the `Accuracy` constant, and `mpfr_get_d` conversion to `double`: all values are exact reals.
- The MPFR initialisation and clearing loops and the coefficient init/teardown (CompTuring.c:43-56, 138-149): memory management of the number library.
- GramNearT, GramAtN, HardyZ and the natural log: external library functions, taken as uninterpreted parameters. `HardyZWithCount` is modelled only through the callback protocol that CompTuring.c relies on.
- CompTuring.GramTable.LocateGramPoints: takes n0 as a natural number, so the `mpfr_get_uj` conversion to a 64-bit unsigned integer (and its behaviour past 2^64) is not modelled.
- CompTuring.ComputeTuringK: returns an unbounded integer, so the `unsigned int` conversion of the result is not modelled; the proved K >= 0 shows it fits for any non-huge bound.
- The text layout of TuringReport (`printf` widths and decimals, the verbose header lines at CompTuring.c:175-194) and the stderr progress messages: the model keeps only each row's label, location and value.
- Threads and `pthread` counts: only forwarded to the evaluator.
- Turing.c: command-line parsing, usage text, exit codes and timing over validators that are not part of this model.
- ZerosFound and the HARDYINFO flags (rise, zero crossing, toward zero, Lehmer) of turing.h:30-39: no modelled code computes them. ZerosFound and OddZeros are kept as fields that ComputeTuring is proved to leave unchanged; OddZeros is given as a function of the good flags.
- CompTuring.GramTable.ComputeTuring: requires `CountZ <= zCapacity`. The length of HardyZValue is declared in a header that is not part of this model, and the code does not check it.

## Findings

| source | as written | input that shows it | evidently intended | confidence | as-written member | corrected member |
|---|---|---|---|---|---|---|
| CompTuring.c:133 | `Good = GoodTest > 0 ? 1 : -1` stores 1 or -1 into the field that turing.h:28 declares `bool Good`; C converts -1 to true, so every Gram point reads as good (and TuringReport's `Good == 1` test then prints "true" for every point) | even n with Z(g(n)) = -1: GoodTest = -1, the stored flag is true | Good is true exactly when (-1)^n * Z[0] > 0, as turing.h:28 documents | low to medium: the record the code writes (with HardyZValue) is from a different header version than the turing.h in this repository (dated January 2026); not executed | Turing.GoodAsStoredMisclassifies | Turing.GoodSignRule |
