/*
 * The Gram-point table builder of CompTuring.c.
 *
 * ComputeTuring fills the global table gList in place: it locates
 * CountGram+1 consecutive Gram points, records their interval and
 * sub-interval lengths, has the evaluator sample Z through three
 * callbacks, and classifies each Gram point as good or bad.  TuringReport
 * lists the samples; ComputeTuringK gives the threshold of Turing's method.
 *
 * The evaluator (GramNearT, GramAtN, the Z function) is an external
 * library; it enters the model as the function values of an Evaluator.
 */
module CompTuring {
  import opened Turing

  /** The external Gram-point locator and Z evaluator. */
  datatype Evaluator = Evaluator(
    gramNearT: real -> nat,   // largest n with g(n) <= t
    gramAtN: int -> real,     // g(n)
    hardyZ: real -> real)     // Z(t)

  /** The three callbacks handed to HardyZWithCount. */
  datatype Callback = CallbackA | CallbackB | CallbackC

  /** The k-th point of a batch that starts at `start` with spacing `step`;
      also the location of report row G(i) k. */
  function SamplePoint(start: real, step: real, k: int): real
  {
    start + k as real * step
  }

  // ---------------------------------------------------------------
  // The state the builder establishes, entry by entry
  // ---------------------------------------------------------------

  /** The table has the entries and sample slots a run with these counts uses. */
  predicate Shaped(gl: seq<GramEntry>, countGram: int, countZ: int)
  {
    && 1 <= countGram < |gl|
    && 1 <= countZ
    && forall i :: 0 <= i <= countGram ==> countZ <= |gl[i].hardyZValue|
  }

  /** Entries below `upto` hold the Gram points n0, n0+1, ... and their signs. */
  ghost predicate Located(gl: seq<GramEntry>, n0: nat, ev: Evaluator, upto: int)
  {
    && upto <= |gl|
    && forall i :: 0 <= i < upto ==>
         && gl[i].n == n0 + i
         && gl[i].gram == ev.gramAtN(n0 + i)
         && gl[i].minusOneToN == MinusOneToN(n0 + i)
  }

  /** Entries below `upto` hold their interval and sub-interval lengths. */
  ghost predicate Measured(gl: seq<GramEntry>, countZ: int, upto: int)
  {
    && countZ != 0
    && upto < |gl|
    && forall i :: 0 <= i < upto ==>
         && gl[i].lenInterval == LenInterval(gl[i].gram, gl[i + 1].gram)
         && gl[i].lenSubInterval == LenSubInterval(gl[i].lenInterval, countZ)
  }

  /** Entries below `upto` hold Z at each of their countZ sub-interval points. */
  ghost predicate Sampled(gl: seq<GramEntry>, countZ: int, ev: Evaluator, upto: int)
  {
    && upto <= |gl|
    && (forall i :: 0 <= i < upto ==> countZ <= |gl[i].hardyZValue|)
    && forall i, j :: 0 <= i < upto && 0 <= j < countZ ==>
         gl[i].hardyZValue[j] == ev.hardyZ(SamplePoint(gl[i].gram, gl[i].lenSubInterval, j))
  }

  /** The two boundary samples: one sub-interval before the first Gram
      point, and at the closing Gram point. */
  ghost predicate BoundarySampled(gl: seq<GramEntry>, countGram: int, ev: Evaluator)
  {
    && 0 <= countGram < |gl|
    && gl[0].hardyZBefore == ev.hardyZ(gl[0].gram - gl[0].lenSubInterval)
    && 1 <= |gl[countGram].hardyZValue|
    && gl[countGram].hardyZValue[0] == ev.hardyZ(gl[countGram].gram)
  }

  /** Entries below `upto` carry the goodness their sign and Z value give. */
  ghost predicate Classified(gl: seq<GramEntry>, upto: int)
  {
    && upto <= |gl|
    && forall i :: 0 <= i < upto ==>
         && 1 <= |gl[i].hardyZValue|
         && gl[i].good == IsGood(gl[i].minusOneToN, gl[i].hardyZValue[0])
  }

  /** Everything ComputeTuring promises about the table it fills. */
  ghost predicate Tabulated(gl: seq<GramEntry>, tur: TuringConfig, n0: nat, ev: Evaluator)
  {
    && Shaped(gl, tur.countGram, tur.countZ)
    && Located(gl, n0, ev, tur.countGram + 1)
    && Measured(gl, tur.countZ, tur.countGram)
    && Sampled(gl, tur.countZ, ev, tur.countGram)
    && BoundarySampled(gl, tur.countGram, ev)
    && Classified(gl, tur.countGram + 1)
  }

  /** Everything ComputeTuring never writes keeps its value, entry by entry. */
  ghost predicate KeepsUntouched(gl: seq<GramEntry>, gl0: seq<GramEntry>, countGram: int, countZ: int)
  {
    && |gl| == |gl0|
    && 0 <= countGram < |gl|
    && forall k :: 0 <= k < |gl| ==> EntryUntouched(gl[k], gl0[k], k, countGram, countZ)
  }

  /** What ComputeTuring never writes in entry k: its OddZeros and
      ZerosFound fields and the number of its Z slots; all of an entry past
      the closing Gram point; the before-sample of entries 1..countGram;
      the samples from countZ on of entries 0..countGram-1; and the lengths
      and the samples from 1 on of the closing entry. */
  ghost predicate EntryUntouched(e: GramEntry, e0: GramEntry, k: int, countGram: int, countZ: int)
  {
    && e.oddZeros == e0.oddZeros && e.zerosFound == e0.zerosFound
    && |e.hardyZValue| == |e0.hardyZValue|
    && (countGram < k ==> e == e0)
    && (0 < k <= countGram ==> e.hardyZBefore == e0.hardyZBefore)
    && (0 <= k < countGram ==>
          forall j :: 0 <= j < |e0.hardyZValue| && countZ <= j ==> e.hardyZValue[j] == e0.hardyZValue[j])
    && (k == countGram ==>
          && e.lenInterval == e0.lenInterval && e.lenSubInterval == e0.lenSubInterval
          && forall j :: 1 <= j < |e0.hardyZValue| ==> e.hardyZValue[j] == e0.hardyZValue[j])
  }

  /** Two entries agree on everything except the Z samples. */
  predicate SameExceptSamples(e: GramEntry, e0: GramEntry)
  {
    && e.gram == e0.gram
    && e.n == e0.n
    && e.lenInterval == e0.lenInterval
    && e.lenSubInterval == e0.lenSubInterval
    && e.minusOneToN == e0.minusOneToN
    && e.good == e0.good
    && e.oddZeros == e0.oddZeros
    && e.zerosFound == e0.zerosFound
    && |e.hardyZValue| == |e0.hardyZValue|
  }

  // ---------------------------------------------------------------
  // The callback protocol of HardyZWithCount
  // ---------------------------------------------------------------

  /** The slots a batch of `count` callbacks writes exist in the entry. */
  predicate CallbackFits(e: GramEntry, which: Callback, count: nat)
  {
    && (which == CallbackA ==> count <= |e.hardyZValue|)
    && (which == CallbackC && count > 0 ==> 1 <= |e.hardyZValue|)
  }

  /** The table after one callback delivers `hardyZ` for point `i` of
      caller `callerId`: A stores HardyZValue[i], B stores HardyZBefore,
      C stores HardyZValue[0]. */
  function Delivered(gl: seq<GramEntry>, which: Callback, hardyZ: real, i: int, callerId: int): (r: seq<GramEntry>)
    requires 0 <= callerId < |gl|
    requires which == CallbackA ==> 0 <= i < |gl[callerId].hardyZValue|
    requires which == CallbackC ==> 1 <= |gl[callerId].hardyZValue|
    ensures |r| == |gl| && forall k :: 0 <= k < |gl| && k != callerId ==> r[k] == gl[k]
    ensures SameExceptSamples(r[callerId], gl[callerId])
    ensures which == CallbackB ==>
              r[callerId].hardyZBefore == hardyZ && r[callerId].hardyZValue == gl[callerId].hardyZValue
    ensures which != CallbackB ==>
              var slot := if which == CallbackA then i else 0;
              && r[callerId].hardyZBefore == gl[callerId].hardyZBefore
              && r[callerId].hardyZValue[slot] == hardyZ
              && forall j :: 0 <= j < |gl[callerId].hardyZValue| && j != slot ==>
                   r[callerId].hardyZValue[j] == gl[callerId].hardyZValue[j]
  {
    var e := gl[callerId];
    match which
    case CallbackA => gl[callerId := e.(hardyZValue := e.hardyZValue[i := hardyZ])]
    case CallbackB => gl[callerId := e.(hardyZBefore := hardyZ)]
    case CallbackC => gl[callerId := e.(hardyZValue := e.hardyZValue[0 := hardyZ])]
  }

  /** The table after the first `count` callbacks of a batch, the k-th
      delivering Z at SamplePoint(start, step, k) as point k. */
  function Batch(gl: seq<GramEntry>, which: Callback, start: real, step: real, count: nat,
                 callerId: int, hardyZ: real -> real): (r: seq<GramEntry>)
    requires 0 <= callerId < |gl| && CallbackFits(gl[callerId], which, count)
    ensures |r| == |gl|
    ensures forall k :: 0 <= k < |gl| && k != callerId ==> r[k] == gl[k]
    ensures SameExceptSamples(r[callerId], gl[callerId])
    decreases count
  {
    if count == 0 then gl
    else
      var prev := Batch(gl, which, start, step, count - 1, callerId, hardyZ);
      Delivered(prev, which, hardyZ(SamplePoint(start, step, count - 1)), count - 1, callerId)
  }

  // ---------------------------------------------------------------
  // The report rows
  // ---------------------------------------------------------------

  /** One line of the sample listing: the label "G(gramIndex) offset",
      the location t and the Z value printed there. */
  datatype ReportRow = ReportRow(gramIndex: int, offset: int, t: real, hardyZ: real)

  /** Labels in listing order: by Gram index, then by offset. */
  predicate RowBefore(a: ReportRow, b: ReportRow)
  {
    a.gramIndex < b.gramIndex || (a.gramIndex == b.gramIndex && a.offset < b.offset)
  }

  /** The row "G( 0) -1": one sub-interval before the first Gram point. */
  function BeforeRow(gl: seq<GramEntry>): (r: ReportRow)
    requires 1 <= |gl|
    ensures r.gramIndex == 0 && r.offset == -1 && r.hardyZ == gl[0].hardyZBefore
    ensures r.t + gl[0].lenSubInterval == gl[0].gram
    ensures r.t == SamplePoint(gl[0].gram, gl[0].lenSubInterval, r.offset)
  {
    ReportRow(0, -1, gl[0].gram - gl[0].lenSubInterval, gl[0].hardyZBefore)
  }

  /** The row "G(i) j" for sample j of entry e = gList[i]. */
  function SampleRow(e: GramEntry, i: int, j: int): (r: ReportRow)
    requires 0 <= j < |e.hardyZValue|
    ensures r.gramIndex == i && r.offset == j && r.hardyZ == e.hardyZValue[j]
    ensures r.t == SamplePoint(e.gram, e.lenSubInterval, j)
  {
    ReportRow(i, j, SamplePoint(e.gram, e.lenSubInterval, j), e.hardyZValue[j])
  }

  /** The row "G(countGram)  0": the closing Gram point. */
  function ClosingRow(gl: seq<GramEntry>, countGram: int): (r: ReportRow)
    requires 0 <= countGram < |gl| && 1 <= |gl[countGram].hardyZValue|
    ensures r == SampleRow(gl[countGram], countGram, 0)
  {
    ReportRow(countGram, 0, gl[countGram].gram, gl[countGram].hardyZValue[0])
  }

  /** The inner loop of the listing: rows G(i) 0 .. G(i) m-1. */
  function GramPointRows(e: GramEntry, i: int, m: nat): (rows: seq<ReportRow>)
    requires m <= |e.hardyZValue|
    ensures |rows| == m
    ensures forall j :: 0 <= j < m ==> rows[j] == SampleRow(e, i, j)
  {
    if m == 0 then [] else GramPointRows(e, i, m - 1) + [SampleRow(e, i, m - 1)]
  }

  /** Multiplication distributes over a successor. */
  lemma MulSucc(a: int, c: int)
    ensures (a + 1) * c == a * c + c
  {
  }

  /** Block i of countZ rows ends no later than the first k blocks do,
      whenever i < k. */
  lemma {:induction false} BlockInside(i: nat, k: nat, countZ: nat)
    requires i < k
    ensures 0 <= i * countZ && i * countZ + countZ <= k * countZ
    decreases k
  {
    MulSucc(k - 1, countZ);
    if i < k - 1 {
      BlockInside(i, k - 1, countZ);
    }
  }

  /** The outer loop of the listing over the first k Gram intervals:
      the rows of intervals 0..k-1, one block after another. */
  function IntervalRows(gl: seq<GramEntry>, k: nat, countZ: nat): (rows: seq<ReportRow>)
    requires k <= |gl|
    requires forall i :: 0 <= i < k ==> countZ <= |gl[i].hardyZValue|
    ensures |rows| == k * countZ
  {
    if k == 0 then []
    else
      MulSucc(k - 1, countZ);
      IntervalRows(gl, k - 1, countZ) + GramPointRows(gl[k - 1], k - 1, countZ)
  }

  /** The listing is in row-major order: row i*countZ + j of the first k
      blocks is G(i) j. */
  lemma {:induction false} IntervalRowsAt(gl: seq<GramEntry>, k: nat, countZ: nat)
    requires k <= |gl|
    requires forall i :: 0 <= i < k ==> countZ <= |gl[i].hardyZValue|
    ensures forall i :: 0 <= i < k ==> 0 <= i * countZ && i * countZ + countZ <= k * countZ
    ensures forall i, j :: 0 <= i < k && 0 <= j < countZ ==>
              IntervalRows(gl, k, countZ)[i * countZ + j] == SampleRow(gl[i], i, j)
  {
    forall i | 0 <= i < k
      ensures 0 <= i * countZ && i * countZ + countZ <= k * countZ
    {
      BlockInside(i, k, countZ);
    }
    if k > 0 {
      IntervalRowsAt(gl, k - 1, countZ);
      var prev := IntervalRows(gl, k - 1, countZ);
      var last := GramPointRows(gl[k - 1], k - 1, countZ);
      assert IntervalRows(gl, k, countZ) == prev + last;
      forall i, j | 0 <= i < k && 0 <= j < countZ
        ensures (prev + last)[i * countZ + j] == SampleRow(gl[i], i, j)
      {
        RowInBlocks(prev, last, k, countZ, i, j);
        if i < k - 1 {
          assert prev[i * countZ + j] == SampleRow(gl[i], i, j);
        } else {
          assert last[j] == SampleRow(gl[k - 1], k - 1, j);
        }
      }
    }
  }

  /** Where row i*countZ + j of k blocks falls: in the first k-1 blocks, or
      at offset j of the last one. */
  lemma RowInBlocks(prev: seq<ReportRow>, last: seq<ReportRow>, k: nat, countZ: nat, i: nat, j: nat)
    requires 0 < k && |prev| == (k - 1) * countZ && |last| == countZ
    requires i < k && j < countZ
    ensures i < k - 1 ==> i * countZ + j < |prev| && (prev + last)[i * countZ + j] == prev[i * countZ + j]
    ensures i == k - 1 ==> (prev + last)[i * countZ + j] == last[j]
  {
    if i < k - 1 {
      BlockInside(i, k - 1, countZ);
    }
  }

  /** The sample listing of TuringReport: the before-row, then G(i) j for
      every interval i and offset j in lexicographic order (row
      1 + i*countZ + j), then the closing row. */
  function TuringReport(gl: seq<GramEntry>, countGram: nat, countZ: nat): (rows: seq<ReportRow>)
    requires Shaped(gl, countGram, countZ)
    ensures |rows| == countGram * countZ + 2
    ensures rows[0] == BeforeRow(gl)
    ensures forall i :: 0 <= i < countGram ==> 0 <= i * countZ && 1 + i * countZ + countZ < |rows|
    ensures forall i, j :: 0 <= i < countGram && 0 <= j < countZ ==>
              rows[1 + i * countZ + j] == SampleRow(gl[i], i, j)
    ensures rows[|rows| - 1] == ClosingRow(gl, countGram)
  {
    var body := IntervalRows(gl, countGram, countZ);
    ReportRowsAt(gl, countGram, countZ, body);
    [BeforeRow(gl)] + body + [ClosingRow(gl, countGram)]
  }

  /** Sample G(i) j sits at row 1 + i*countZ + j of the framed listing. */
  lemma ReportRowsAt(gl: seq<GramEntry>, countGram: nat, countZ: nat, body: seq<ReportRow>)
    requires Shaped(gl, countGram, countZ)
    requires body == IntervalRows(gl, countGram, countZ)
    ensures forall i :: 0 <= i < countGram ==> 0 <= i * countZ && i * countZ + countZ <= |body|
    ensures forall i, j :: 0 <= i < countGram && 0 <= j < countZ ==>
              ([BeforeRow(gl)] + body + [ClosingRow(gl, countGram)])[1 + i * countZ + j] == SampleRow(gl[i], i, j)
  {
    IntervalRowsAt(gl, countGram, countZ);
    forall i, j | 0 <= i < countGram && 0 <= j < countZ
      ensures ([BeforeRow(gl)] + body + [ClosingRow(gl, countGram)])[1 + i * countZ + j] == SampleRow(gl[i], i, j)
    {
      FramedAt(BeforeRow(gl), body, ClosingRow(gl, countGram), i * countZ + j);
    }
  }

  /** Row m of a block framed by one row on each side is row 1 + m. */
  lemma FramedAt(first: ReportRow, body: seq<ReportRow>, last: ReportRow, m: int)
    requires 0 <= m < |body|
    ensures ([first] + body + [last])[1 + m] == body[m]
  {
  }

  // ---------------------------------------------------------------
  // The threshold K
  // ---------------------------------------------------------------

  /** 0.00313 (log Gp)^2 + 0.1039 log Gp, the bound K must reach. */
  function TuringBound(logGp: real): (bound: real)
    ensures logGp >= 0.0 ==> bound >= 0.1039 * logGp >= 0.0
  {
    0.00313 * logGp * logGp + 0.1039 * logGp
  }

  /** The least integer not below x (mpfr_rint_ceil). */
  function Ceiling(x: real): (k: int)
    ensures x <= k as real < x + 1.0
  {
    if x.Floor as real == x then x.Floor else x.Floor + 1
  }

  /** The bound is never -1 or below (its minimum is about -0.862), so its
      ceiling is never negative. */
  lemma TuringBoundAboveMinusOne(logGp: real)
    ensures TuringBound(logGp) > -1.0
  {
    var c := 5195.0 / 313.0;
    assert TuringBound(logGp) == 0.00313 * (logGp + c) * (logGp + c) - 0.00313 * c * c;
    assert (logGp + c) * (logGp + c) >= 0.0;
  }

  /** K for the Gram segment starting at `gram`: the smallest integer with
      K >= 0.00313 (log Gp)^2 + 0.1039 log Gp, where Gp = gram + 100 and
      `log` is the natural logarithm. */
  function ComputeTuringK(gram: real, log: real -> real): (k: int)
    ensures k as real >= TuringBound(log(gram + 100.0))
    ensures (k - 1) as real < TuringBound(log(gram + 100.0))
    ensures k >= 0
  {
    TuringBoundAboveMinusOne(log(gram + 100.0));
    Ceiling(TuringBound(log(gram + 100.0)))
  }

  // ---------------------------------------------------------------
  // The global table and the code that fills it
  // ---------------------------------------------------------------

  /** The global `gList[HGT_TUR_GRAM_PTS_MAX + 1]`; `capacity` stands for
      HGT_TUR_GRAM_PTS_MAX and `zCapacity` for the length of HardyZValue. */
  class GramTable {
    const capacity: nat
    const zCapacity: nat
    const gList: array<GramEntry>

    ghost predicate Valid()
      reads gList
    {
      && gList.Length == capacity + 1
      && forall i :: 0 <= i < gList.Length ==> |gList[i].hardyZValue| == zCapacity
    }

    /** Static storage: every entry starts zeroed. */
    constructor (capacity: nat, zCapacity: nat)
      ensures Valid() && fresh(gList)
      ensures this.capacity == capacity && this.zCapacity == zCapacity
      ensures forall i :: 0 <= i < gList.Length ==> gList[i] == ZeroEntry(zCapacity)
    {
      this.capacity := capacity;
      this.zCapacity := zCapacity;
      gList := new GramEntry[capacity + 1](_ => ZeroEntry(zCapacity));
    }

    /** Stores Z as sample i of entry CallerID. */
    method HardyZCallbackA(t: real, hardyZ: real, i: int, callerId: int)
      requires Valid() && 0 <= callerId < gList.Length && 0 <= i < zCapacity
      modifies gList
      ensures Valid()
      ensures gList[..] == Delivered(old(gList[..]), CallbackA, hardyZ, i, callerId)
    {
      gList[callerId] := gList[callerId].(hardyZValue := gList[callerId].hardyZValue[i := hardyZ]);
    }

    /** Stores Z as the before-sample of entry CallerID. */
    method HardyZCallbackB(t: real, hardyZ: real, i: int, callerId: int)
      requires Valid() && 0 <= callerId < gList.Length
      modifies gList
      ensures Valid()
      ensures gList[..] == Delivered(old(gList[..]), CallbackB, hardyZ, i, callerId)
    {
      gList[callerId] := gList[callerId].(hardyZBefore := hardyZ);
    }

    /** Stores Z as sample 0 of entry CallerID, whatever i is. */
    method HardyZCallbackC(t: real, hardyZ: real, i: int, callerId: int)
      requires Valid() && 0 <= callerId < gList.Length && 1 <= zCapacity
      modifies gList
      ensures Valid()
      ensures gList[..] == Delivered(old(gList[..]), CallbackC, hardyZ, i, callerId)
    {
      gList[callerId] := gList[callerId].(hardyZValue := gList[callerId].hardyZValue[0 := hardyZ]);
    }

    /** The evaluator's batch: Z at start, start+step, ... (count points),
      each handed to the chosen callback with its point index and CallerID. */
    method HardyZWithCount(start: real, step: real, count: nat, callerId: int, which: Callback,
                           hardyZ: real -> real)
      requires Valid() && 0 <= callerId < gList.Length
      requires CallbackFits(gList[callerId], which, count)
      modifies gList
      ensures Valid()
      ensures gList[..] == Batch(old(gList[..]), which, start, step, count, callerId, hardyZ)
    {
      var k := 0;
      while k < count
        invariant 0 <= k <= count && Valid()
        invariant gList[..] == Batch(old(gList[..]), which, start, step, k, callerId, hardyZ)
      {
        var t := SamplePoint(start, step, k);
        var z := hardyZ(t);
        match which {
          case CallbackA => HardyZCallbackA(t, z, k, callerId);
          case CallbackB => HardyZCallbackB(t, z, k, callerId);
          case CallbackC => HardyZCallbackC(t, z, k, callerId);
        }
        k := k + 1;
      }
    }

    /** Builds the table for the configuration and returns the sample
      listing TuringReport prints from it. */
    method ComputeTuring(tur: TuringConfig, ev: Evaluator) returns (report: seq<ReportRow>)
      requires Valid()
      requires 1 <= tur.countGram <= capacity && 1 <= tur.countZ <= zCapacity
      modifies gList
      ensures Valid()
      ensures Tabulated(gList[..], tur, ev.gramNearT(tur.t), ev)
      ensures KeepsUntouched(gList[..], old(gList[..]), tur.countGram, tur.countZ)
      ensures report == TuringReport(gList[..], tur.countGram, tur.countZ)
    {
      var nOfGram := ev.gramNearT(tur.t);
      BuildTable(nOfGram, tur, ev);
      report := TuringReport(gList[..], tur.countGram, tur.countZ);
    }

    /** The table-building part of ComputeTuring, from the starting index
        n0 the locator returned: its five loops in order. */
    method BuildTable(n0: nat, tur: TuringConfig, ev: Evaluator)
      requires Valid()
      requires 1 <= tur.countGram <= capacity && 1 <= tur.countZ <= zCapacity
      modifies gList
      ensures Valid()
      ensures Tabulated(gList[..], tur, n0, ev)
      ensures KeepsUntouched(gList[..], old(gList[..]), tur.countGram, tur.countZ)
    {
      ghost var gl0 := gList[..];
      LocateGramPoints(n0, tur.countGram, tur.countZ, ev);
      MeasureIntervals(tur.countGram, tur.countZ, n0, ev, gl0);
      SampleIntervals(tur.countGram, tur.countZ, n0, ev, gl0);
      SampleBoundaries(tur.countGram, tur.countZ, n0, ev, gl0);
      ghost var bounded := gList[..];
      ClassifyGramPoints(tur.countGram);
      ClassifyingKeepsTable(gList[..], bounded, gl0, tur, n0, ev);
    }

    /** First loop of ComputeTuring: CountGram+1 consecutive Gram points
        from n0 on, with alternating signs. */
    method LocateGramPoints(n0: nat, countGram: int, ghost countZ: int, ev: Evaluator)
      requires Valid() && 0 <= countGram < gList.Length
      modifies gList
      ensures Valid()
      ensures Located(gList[..], n0, ev, countGram + 1)
      ensures forall k :: 0 <= k < gList.Length ==>
                gList[k] == old(gList[k]).(gram := gList[k].gram, n := gList[k].n,
                                           minusOneToN := gList[k].minusOneToN)
      ensures KeepsUntouched(gList[..], old(gList[..]), countGram, countZ)
    {
      var nOfGram := n0;
      var minusOneToN := if nOfGram % 2 == 0 then 1 else -1;
      var i := 0;
      while i <= countGram
        invariant 0 <= i <= countGram + 1 && Valid()
        invariant nOfGram == n0 + i && minusOneToN == MinusOneToN(n0 + i)
        invariant Located(gList[..], n0, ev, i)
        invariant forall k :: 0 <= k < gList.Length ==>
                    gList[k] == old(gList[k]).(gram := gList[k].gram, n := gList[k].n,
                                               minusOneToN := gList[k].minusOneToN)
        invariant forall k :: i <= k < gList.Length ==> gList[k] == old(gList[k])
      {
        gList[i] := gList[i].(gram := ev.gramAtN(nOfGram), n := nOfGram, minusOneToN := minusOneToN);
        MinusOneToNAlternates(nOfGram);
        minusOneToN := -minusOneToN;
        nOfGram := nOfGram + 1;
        i := i + 1;
      }
      LocatingKeepsTable(gList[..], old(gList[..]), countGram, countZ);
    }

    /** Second loop: the interval and sub-interval lengths of entries
        0..CountGram-1. */
    method MeasureIntervals(countGram: int, countZ: int, ghost n0: nat, ghost ev: Evaluator,
                            ghost gl0: seq<GramEntry>)
      requires Valid() && 0 <= countGram < gList.Length && 1 <= countZ
      requires Located(gList[..], n0, ev, countGram + 1) && KeepsUntouched(gList[..], gl0, countGram, countZ)
      modifies gList
      ensures Valid()
      ensures Measured(gList[..], countZ, countGram)
      ensures Located(gList[..], n0, ev, countGram + 1) && KeepsUntouched(gList[..], gl0, countGram, countZ)
      ensures forall k :: 0 <= k < gList.Length ==>
                gList[k] == old(gList[k]).(lenInterval := gList[k].lenInterval,
                                           lenSubInterval := gList[k].lenSubInterval)
      ensures forall k :: countGram <= k < gList.Length ==> gList[k] == old(gList[k])
    {
      var i := 0;
      while i < countGram
        invariant 0 <= i <= countGram && Valid()
        invariant Measured(gList[..], countZ, i)
        invariant forall k :: 0 <= k < gList.Length ==>
                    gList[k] == old(gList[k]).(lenInterval := gList[k].lenInterval,
                                               lenSubInterval := gList[k].lenSubInterval)
        invariant forall k :: i <= k < gList.Length ==> gList[k] == old(gList[k])
      {
        var lenInterval := LenInterval(gList[i].gram, gList[i + 1].gram);
        gList[i] := gList[i].(lenInterval := lenInterval,
                              lenSubInterval := LenSubInterval(lenInterval, countZ));
        i := i + 1;
      }
      MeasuringKeepsTable(gList[..], old(gList[..]), gl0, countGram, countZ, n0, ev);
    }

    /** Third loop: one batch through callback A per interval, filling the
        CountZ samples of entries 0..CountGram-1. */
    method SampleIntervals(countGram: int, countZ: int, ghost n0: nat, ev: Evaluator,
                           ghost gl0: seq<GramEntry>)
      requires Valid() && 0 <= countGram < gList.Length && 1 <= countZ <= zCapacity
      requires Located(gList[..], n0, ev, countGram + 1) && KeepsUntouched(gList[..], gl0, countGram, countZ)
      requires Measured(gList[..], countZ, countGram)
      modifies gList
      ensures Valid()
      ensures Sampled(gList[..], countZ, ev, countGram)
      ensures Located(gList[..], n0, ev, countGram + 1) && KeepsUntouched(gList[..], gl0, countGram, countZ)
      ensures Measured(gList[..], countZ, countGram)
      ensures forall k :: 0 <= k < gList.Length ==>
                gList[k] == old(gList[k]).(hardyZValue := gList[k].hardyZValue)
      ensures forall k, j :: 0 <= k < countGram && countZ <= j < zCapacity ==>
                gList[k].hardyZValue[j] == old(gList[k]).hardyZValue[j]
      ensures forall k :: countGram <= k < gList.Length ==> gList[k] == old(gList[k])
    {
      var i := 0;
      while i < countGram
        invariant 0 <= i <= countGram && Valid()
        invariant SamplingUpTo(gList[..], old(gList[..]), countZ, ev, i)
      {
        ghost var pre := gList[..];
        HardyZWithCount(gList[i].gram, gList[i].lenSubInterval, countZ, i, CallbackA, ev.hardyZ);
        SamplingStep(pre, old(gList[..]), countZ, ev, i);
        i := i + 1;
      }
      SamplingKeepsTable(gList[..], old(gList[..]), gl0, countGram, countZ, n0, ev);
    }

    /** The two single-point batches: Z one sub-interval before the first
        Gram point (callback B) and at the closing Gram point (callback C). */
    method SampleBoundaries(countGram: int, ghost countZ: int, ghost n0: nat, ev: Evaluator,
                            ghost gl0: seq<GramEntry>)
      requires Valid() && 0 <= countGram < gList.Length && 1 <= zCapacity
      requires Located(gList[..], n0, ev, countGram + 1) && KeepsUntouched(gList[..], gl0, countGram, countZ)
      requires Measured(gList[..], countZ, countGram) && Sampled(gList[..], countZ, ev, countGram)
      modifies gList
      ensures Valid()
      ensures gList[..] ==
              var gl := old(gList[..]);
              Delivered(Delivered(gl, CallbackB, ev.hardyZ(gl[0].gram - gl[0].lenSubInterval), 0, 0),
                        CallbackC, ev.hardyZ(gl[countGram].gram), 0, countGram)
      ensures BoundarySampled(gList[..], countGram, ev)
      ensures Located(gList[..], n0, ev, countGram + 1) && KeepsUntouched(gList[..], gl0, countGram, countZ)
      ensures Measured(gList[..], countZ, countGram) && Sampled(gList[..], countZ, ev, countGram)
    {
      var temp1 := gList[0].gram - gList[0].lenSubInterval;
      HardyZWithCount(temp1, 1.0, 1, 0, CallbackB, ev.hardyZ);
      HardyZWithCount(gList[countGram].gram, 1.0, 1, countGram, CallbackC, ev.hardyZ);
      BoundaryKeepsTable(gList[..], old(gList[..]), gl0, countGram, countZ, n0, ev);
    }

    /** Last loop: marks Gram points 0..CountGram good or bad by the sign
        rule, touching nothing but the flags. */
    method ClassifyGramPoints(countGram: int)
      requires Valid() && 0 <= countGram < gList.Length && 1 <= zCapacity
      modifies gList
      ensures Valid()
      ensures Classified(gList[..], countGram + 1)
      ensures forall k :: 0 <= k < gList.Length ==> gList[k] == old(gList[k]).(good := gList[k].good)
      ensures forall k :: 0 <= k < gList.Length && countGram < k ==> gList[k] == old(gList[k])
    {
      var i := 0;
      while i <= countGram
        invariant 0 <= i <= countGram + 1 && Valid()
        invariant forall k :: 0 <= k < gList.Length ==> gList[k] == old(gList[k]).(good := gList[k].good)
        invariant forall k :: i <= k < gList.Length ==> gList[k] == old(gList[k])
        invariant Classified(gList[..], i)
      {
        var goodTest := gList[i].minusOneToN as real * gList[i].hardyZValue[0];
        gList[i] := gList[i].(good := goodTest > 0.0);
        i := i + 1;
      }
    }
  }

  // ---------------------------------------------------------------
  // What each later phase of ComputeTuring leaves in place
  // ---------------------------------------------------------------

  lemma LocatingKeepsTable(gl: seq<GramEntry>, gl0: seq<GramEntry>, countGram: int, countZ: int)
    requires |gl| == |gl0| && 0 <= countGram < |gl|
    requires forall k :: 0 <= k < |gl| ==>
               gl[k] == gl0[k].(gram := gl[k].gram, n := gl[k].n, minusOneToN := gl[k].minusOneToN)
    requires forall k :: countGram < k < |gl| ==> gl[k] == gl0[k]
    ensures KeepsUntouched(gl, gl0, countGram, countZ)
  {
  }

  lemma MeasuringKeepsTable(gl: seq<GramEntry>, located: seq<GramEntry>, gl0: seq<GramEntry>,
                            countGram: int, countZ: int, n0: nat, ev: Evaluator)
    requires |gl| == |located|
    requires forall k :: 0 <= k < |gl| ==>
               gl[k] == located[k].(lenInterval := gl[k].lenInterval, lenSubInterval := gl[k].lenSubInterval)
    requires 0 <= countGram && forall k :: countGram <= k < |gl| ==> gl[k] == located[k]
    requires Located(located, n0, ev, countGram + 1)
    requires KeepsUntouched(located, gl0, countGram, countZ)
    ensures Located(gl, n0, ev, countGram + 1)
    ensures KeepsUntouched(gl, gl0, countGram, countZ)
  {
  }

  lemma SamplingKeepsTable(gl: seq<GramEntry>, measured: seq<GramEntry>, gl0: seq<GramEntry>,
                           countGram: int, countZ: int, n0: nat, ev: Evaluator)
    requires SamplingUpTo(gl, measured, countZ, ev, countGram)
    requires Located(measured, n0, ev, countGram + 1)
    requires Measured(measured, countZ, countGram)
    requires KeepsUntouched(measured, gl0, countGram, countZ)
    ensures Located(gl, n0, ev, countGram + 1)
    ensures Measured(gl, countZ, countGram)
    ensures KeepsUntouched(gl, gl0, countGram, countZ)
  {
    assert Located(gl, n0, ev, countGram + 1);
  }

  lemma BoundaryKeepsTable(gl: seq<GramEntry>, sampled: seq<GramEntry>, gl0: seq<GramEntry>,
                           countGram: int, countZ: int, n0: nat, ev: Evaluator)
    requires 0 <= countGram < |gl| == |sampled|
    requires 1 <= |sampled[countGram].hardyZValue|
    requires gl == Delivered(Delivered(sampled, CallbackB,
                                       ev.hardyZ(sampled[0].gram - sampled[0].lenSubInterval), 0, 0),
                             CallbackC, ev.hardyZ(sampled[countGram].gram), 0, countGram)
    requires Located(sampled, n0, ev, countGram + 1)
    requires Measured(sampled, countZ, countGram)
    requires Sampled(sampled, countZ, ev, countGram)
    requires KeepsUntouched(sampled, gl0, countGram, countZ)
    ensures Located(gl, n0, ev, countGram + 1)
    ensures Measured(gl, countZ, countGram)
    ensures Sampled(gl, countZ, ev, countGram)
    ensures BoundarySampled(gl, countGram, ev)
    ensures KeepsUntouched(gl, gl0, countGram, countZ)
  {
  }

  lemma ClassifyingKeepsTable(gl: seq<GramEntry>, bounded: seq<GramEntry>, gl0: seq<GramEntry>,
                              tur: TuringConfig, n0: nat, ev: Evaluator)
    requires |gl| == |bounded|
    requires forall k :: 0 <= k < |gl| ==> gl[k] == bounded[k].(good := gl[k].good)
    requires forall k :: 0 <= k < |gl| && tur.countGram < k ==> gl[k] == bounded[k]
    requires Located(bounded, n0, ev, tur.countGram + 1)
    requires Measured(bounded, tur.countZ, tur.countGram)
    requires Sampled(bounded, tur.countZ, ev, tur.countGram)
    requires BoundarySampled(bounded, tur.countGram, ev)
    requires KeepsUntouched(bounded, gl0, tur.countGram, tur.countZ)
    ensures Located(gl, n0, ev, tur.countGram + 1)
    ensures Measured(gl, tur.countZ, tur.countGram)
    ensures Sampled(gl, tur.countZ, ev, tur.countGram)
    ensures BoundarySampled(gl, tur.countGram, ev)
    ensures KeepsUntouched(gl, gl0, tur.countGram, tur.countZ)
  {
    assert Located(gl, n0, ev, tur.countGram + 1);
    assert Measured(gl, tur.countZ, tur.countGram);
    assert forall i :: 0 <= i < tur.countGram ==> tur.countZ <= |gl[i].hardyZValue|;
    forall i, j | 0 <= i < tur.countGram && 0 <= j < tur.countZ
      ensures gl[i].hardyZValue[j] == ev.hardyZ(SamplePoint(gl[i].gram, gl[i].lenSubInterval, j))
    {
      assert gl[i] == bounded[i].(good := gl[i].good);
    }
    assert BoundarySampled(gl, tur.countGram, ev);
  }

  /** The interval-sampling loop after its first `upto` batches: those
      entries hold their samples, only the samples of those entries have
      changed, and only in the slots below countZ. */
  ghost predicate SamplingUpTo(gl: seq<GramEntry>, gl0: seq<GramEntry>, countZ: int, ev: Evaluator, upto: int)
  {
    && |gl| == |gl0| && 0 <= upto <= |gl|
    && Sampled(gl, countZ, ev, upto)
    && (forall k :: 0 <= k < |gl| ==>
          gl[k] == gl0[k].(hardyZValue := gl[k].hardyZValue) && |gl[k].hardyZValue| == |gl0[k].hardyZValue|)
    && (forall k, j :: 0 <= k < upto && 0 <= j < |gl0[k].hardyZValue| && countZ <= j ==>
          gl[k].hardyZValue[j] == gl0[k].hardyZValue[j])
    && (forall k :: upto <= k < |gl| ==> gl[k] == gl0[k])
  }

  /** One more batch of the interval-sampling loop keeps SamplingUpTo. */
  lemma SamplingStep(gl: seq<GramEntry>, gl0: seq<GramEntry>, countZ: nat, ev: Evaluator, i: int)
    requires SamplingUpTo(gl, gl0, countZ, ev, i) && i < |gl| && countZ <= |gl[i].hardyZValue|
    ensures SamplingUpTo(Batch(gl, CallbackA, gl[i].gram, gl[i].lenSubInterval, countZ, i, ev.hardyZ),
                         gl0, countZ, ev, i + 1)
  {
    var r := Batch(gl, CallbackA, gl[i].gram, gl[i].lenSubInterval, countZ, i, ev.hardyZ);
    BatchFillsSamples(gl, gl[i].gram, gl[i].lenSubInterval, countZ, i, ev.hardyZ);
    assert r[i] == gl0[i].(hardyZValue := r[i].hardyZValue);
  }

  /** A batch through callback A fills samples 0..count-1 of the caller's
      entry with Z at the batch points and leaves the rest of it alone. */
  lemma {:induction false} BatchFillsSamples(gl: seq<GramEntry>, start: real, step: real, count: nat,
                                             callerId: int, hardyZ: real -> real)
    requires 0 <= callerId < |gl| && count <= |gl[callerId].hardyZValue|
    ensures var e := Batch(gl, CallbackA, start, step, count, callerId, hardyZ)[callerId];
            && (forall j :: 0 <= j < count ==> e.hardyZValue[j] == hardyZ(SamplePoint(start, step, j)))
            && (forall j :: count <= j < |e.hardyZValue| ==> e.hardyZValue[j] == gl[callerId].hardyZValue[j])
            && e.hardyZBefore == gl[callerId].hardyZBefore
  {
    if count > 0 {
      BatchFillsSamples(gl, start, step, count - 1, callerId, hardyZ);
    }
  }
}
