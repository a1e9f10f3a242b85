/*
 * What the table ComputeTuring builds, and the listing TuringReport
 * prints from it, mean in terms of the evaluator's Gram points g(n) and
 * the Z function: the sign rule of "good" Gram points, the OddZeros rule
 * of turing.h, the shape and order of the listing, and how K grows.
 */
module CompTuringProperties {
  import opened Turing
  import opened CompTuring

  // ---------------------------------------------------------------
  // Gram points, signs and goodness
  // ---------------------------------------------------------------

  /** Sample 0 of every entry 0..CountGram is Z at the Gram point itself:
      for the first CountGram entries it is the first point of their
      batch, for the closing entry it is the callback-C value. */
  lemma {:induction false} SampleZeroIsZAtGramPoint(gl: seq<GramEntry>, tur: TuringConfig, n0: nat, ev: Evaluator)
    requires Tabulated(gl, tur, n0, ev)
    ensures forall i :: 0 <= i <= tur.countGram ==>
              1 <= |gl[i].hardyZValue| && gl[i].hardyZValue[0] == ev.hardyZ(ev.gramAtN(n0 + i))
  {
    forall i | 0 <= i <= tur.countGram
      ensures 1 <= |gl[i].hardyZValue| && gl[i].hardyZValue[0] == ev.hardyZ(ev.gramAtN(n0 + i))
    {
      if i < tur.countGram {
        assert SamplePoint(gl[i].gram, gl[i].lenSubInterval, 0) == gl[i].gram;
      }
    }
  }

  /** Gram point i of a built table is good exactly when
      (-1)^(n0+i) * Z(g(n0+i)) > 0, the rule turing.h states for Good. */
  lemma {:induction false} GoodMeansSignAgrees(gl: seq<GramEntry>, tur: TuringConfig, n0: nat, ev: Evaluator)
    requires Tabulated(gl, tur, n0, ev)
    ensures forall i :: 0 <= i <= tur.countGram ==>
              (gl[i].good <==> Power(-1, n0 + i) as real * ev.hardyZ(ev.gramAtN(n0 + i)) > 0.0)
  {
    SampleZeroIsZAtGramPoint(gl, tur, n0, ev);
    forall i | 0 <= i <= tur.countGram
      ensures gl[i].good <==> Power(-1, n0 + i) as real * ev.hardyZ(ev.gramAtN(n0 + i)) > 0.0
    {
      MinusOneToNIsPower(n0 + i);
    }
  }

  /** Consecutive entries of a built table are consecutive Gram indices
      with opposite signs, each sign being +1 or -1. */
  lemma {:induction false} TabulatedSignsAlternate(gl: seq<GramEntry>, tur: TuringConfig, n0: nat, ev: Evaluator)
    requires Tabulated(gl, tur, n0, ev)
    ensures forall i :: 0 <= i < tur.countGram ==>
              gl[i + 1].n == gl[i].n + 1 && gl[i + 1].minusOneToN == -gl[i].minusOneToN
    ensures forall i :: 0 <= i <= tur.countGram ==>
              gl[i].minusOneToN == 1 || gl[i].minusOneToN == -1
  {
    forall i | 0 <= i <= tur.countGram
      ensures i < tur.countGram ==> gl[i + 1].minusOneToN == -gl[i].minusOneToN
      ensures gl[i].minusOneToN == 1 || gl[i].minusOneToN == -1
    {
      MinusOneToNAlternates(n0 + i);
    }
  }

  /** turing.h's OddZeros of entry k: Gram points k and k+1 are both good
      or both bad. */
  function OddZeros(gl: seq<GramEntry>, k: int): (odd: bool)
    requires 0 <= k && k + 1 < |gl|
    ensures odd <==> (gl[k].good && gl[k + 1].good) || (!gl[k].good && !gl[k + 1].good)
  {
    OddZerosRule(gl[k].good, gl[k + 1].good)
  }

  /** In a built table, with Z non-zero at both ends, OddZeros of interval
      k holds exactly when Z changes sign from g(n0+k) to g(n0+k+1), that
      is when the interval holds an odd number of zeros. */
  lemma OddZerosMeansSignChange(gl: seq<GramEntry>, tur: TuringConfig, n0: nat, ev: Evaluator, k: int)
    requires Tabulated(gl, tur, n0, ev)
    requires 0 <= k < tur.countGram
    requires ev.hardyZ(ev.gramAtN(n0 + k)) != 0.0 && ev.hardyZ(ev.gramAtN(n0 + k + 1)) != 0.0
    ensures OddZeros(gl, k) <==> ev.hardyZ(ev.gramAtN(n0 + k)) * ev.hardyZ(ev.gramAtN(n0 + k + 1)) < 0.0
  {
    SampleZeroIsZAtGramPoint(gl, tur, n0, ev);
    MinusOneToNAlternates(n0 + k);
    OddZerosIffOppositeSigns(gl[k].minusOneToN, gl[k].hardyZValue[0], gl[k + 1].hardyZValue[0]);
  }

  // ---------------------------------------------------------------
  // The listing: values
  // ---------------------------------------------------------------

  /** Every row of the first k blocks shows Z at the row's own location. */
  lemma {:induction false} IntervalRowsAreSamples(gl: seq<GramEntry>, k: nat, countZ: nat, ev: Evaluator)
    requires Sampled(gl, countZ, ev, k)
    ensures forall r :: r in IntervalRows(gl, k, countZ) ==> r.hardyZ == ev.hardyZ(r.t)
  {
    if k > 0 {
      IntervalRowsAreSamples(gl, k - 1, countZ, ev);
      var prev := IntervalRows(gl, k - 1, countZ);
      var last := GramPointRows(gl[k - 1], k - 1, countZ);
      assert IntervalRows(gl, k, countZ) == prev + last;
      forall r | r in last
        ensures r.hardyZ == ev.hardyZ(r.t)
      {
        var j :| 0 <= j < |last| && last[j] == r;
      }
    }
  }

  /** Every row TuringReport prints from a built table pairs a location t
      with Z(t): the before-row, all sample rows and the closing row. */
  lemma ReportRowsAreSamples(gl: seq<GramEntry>, tur: TuringConfig, n0: nat, ev: Evaluator)
    requires Tabulated(gl, tur, n0, ev)
    ensures forall r :: r in TuringReport(gl, tur.countGram, tur.countZ) ==> r.hardyZ == ev.hardyZ(r.t)
  {
    ListedRowsAreSamples(gl, tur.countGram, tur.countZ, ev);
  }

  /** ReportRowsAreSamples, from the parts of Tabulated it needs. */
  lemma ListedRowsAreSamples(gl: seq<GramEntry>, countGram: nat, countZ: nat, ev: Evaluator)
    requires Shaped(gl, countGram, countZ)
    requires Sampled(gl, countZ, ev, countGram) && BoundarySampled(gl, countGram, ev)
    ensures forall r :: r in TuringReport(gl, countGram, countZ) ==> r.hardyZ == ev.hardyZ(r.t)
  {
    var body := IntervalRows(gl, countGram, countZ);
    IntervalRowsAreSamples(gl, countGram, countZ, ev);
    var rows := [BeforeRow(gl)] + body + [ClosingRow(gl, countGram)];
    assert TuringReport(gl, countGram, countZ) == rows;
    forall r | r in rows
      ensures r.hardyZ == ev.hardyZ(r.t)
    {
      if r != BeforeRow(gl) && r != ClosingRow(gl, countGram) {
        assert r in body;
      }
    }
  }

  // ---------------------------------------------------------------
  // The listing: labels in order
  // ---------------------------------------------------------------

  /** Each row's label "G(i) j" comes strictly after the previous one. */
  predicate InListingOrder(rows: seq<ReportRow>)
  {
    forall a, b :: 0 <= a < b < |rows| ==> RowBefore(rows[a], rows[b])
  }

  /** The first k blocks list labels (i, j) with i < k and j < countZ,
      in lexicographic order. */
  lemma {:induction false} IntervalRowsInOrder(gl: seq<GramEntry>, k: nat, countZ: nat)
    requires k <= |gl| && forall i :: 0 <= i < k ==> countZ <= |gl[i].hardyZValue|
    ensures InListingOrder(IntervalRows(gl, k, countZ))
    ensures forall r :: r in IntervalRows(gl, k, countZ) ==>
              0 <= r.gramIndex < k && 0 <= r.offset < countZ
  {
    if k > 0 {
      IntervalRowsInOrder(gl, k - 1, countZ);
      var prev := IntervalRows(gl, k - 1, countZ);
      var last := GramPointRows(gl[k - 1], k - 1, countZ);
      GramPointRowsInOrder(gl[k - 1], k - 1, countZ);
      forall p, q | p in prev && q in last
        ensures RowBefore(p, q)
      {
      }
      ConcatInOrder(prev, last);
      assert IntervalRows(gl, k, countZ) == prev + last;
      forall r: ReportRow | r in prev + last
        ensures 0 <= r.gramIndex < k && 0 <= r.offset < countZ
      {
        assert r in prev || r in last;
      }
    }
  }

  /** The rows of one Gram point are labelled i, offsets 0..m-1 in order. */
  lemma GramPointRowsInOrder(e: GramEntry, i: int, m: nat)
    requires m <= |e.hardyZValue|
    ensures InListingOrder(GramPointRows(e, i, m))
    ensures forall r :: r in GramPointRows(e, i, m) ==> r.gramIndex == i && 0 <= r.offset < m
  {
    var rows := GramPointRows(e, i, m);
    forall r | r in rows
      ensures r.gramIndex == i && 0 <= r.offset < m
    {
      var j :| 0 <= j < |rows| && rows[j] == r;
    }
  }

  /** Two listings in order, the first wholly before the second, join into
      one in order. */
  lemma ConcatInOrder(front: seq<ReportRow>, back: seq<ReportRow>)
    requires InListingOrder(front) && InListingOrder(back)
    requires forall p, q :: p in front && q in back ==> RowBefore(p, q)
    ensures InListingOrder(front + back)
  {
    var rows := front + back;
    forall a, b | 0 <= a < b < |rows|
      ensures RowBefore(rows[a], rows[b])
    {
      if b < |front| {
        assert rows[a] == front[a] && rows[b] == front[b];
      } else if a < |front| {
        assert rows[a] == front[a] && front[a] in front;
        assert rows[b] == back[b - |front|] && back[b - |front|] in back;
      } else {
        assert rows[a] == back[a - |front|] && rows[b] == back[b - |front|];
      }
    }
  }

  /** The listing runs "G( 0) -1", then G(i) j in lexicographic order, then
      "G(CountGram)  0"; so no label is printed twice, and every label is
      one of those three kinds (together with TuringReport's own contract,
      which places G(i) j at row 1 + i*CountZ + j, the labels and the
      rows correspond one to one). */
  lemma ReportInListingOrder(gl: seq<GramEntry>, countGram: nat, countZ: nat)
    requires Shaped(gl, countGram, countZ)
    ensures InListingOrder(TuringReport(gl, countGram, countZ))
    ensures var rows := TuringReport(gl, countGram, countZ);
            forall a, b :: 0 <= a < b < |rows| ==>
              (rows[a].gramIndex, rows[a].offset) != (rows[b].gramIndex, rows[b].offset)
    ensures forall r :: r in TuringReport(gl, countGram, countZ) ==>
              || (r.gramIndex == 0 && r.offset == -1)
              || (0 <= r.gramIndex < countGram && 0 <= r.offset < countZ)
              || (r.gramIndex == countGram && r.offset == 0)
  {
    var body := IntervalRows(gl, countGram, countZ);
    IntervalRowsInOrder(gl, countGram, countZ);
    FramedInOrder(BeforeRow(gl), body, ClosingRow(gl, countGram));
    assert TuringReport(gl, countGram, countZ) == [BeforeRow(gl)] + body + [ClosingRow(gl, countGram)];
  }

  /** A listing in order stays in order between a first row before all of
      it and a last row after all of it. */
  lemma FramedInOrder(first: ReportRow, body: seq<ReportRow>, last: ReportRow)
    requires InListingOrder(body) && RowBefore(first, last)
    requires forall r :: r in body ==> RowBefore(first, r) && RowBefore(r, last)
    ensures InListingOrder([first] + body + [last])
  {
    var rows := [first] + body + [last];
    forall a, b | 0 <= a < b < |rows|
      ensures RowBefore(rows[a], rows[b])
    {
      if 0 < a && b < |rows| - 1 {
        assert rows[a] == body[a - 1] && rows[b] == body[b - 1];
      } else if a == 0 && b < |rows| - 1 {
        assert rows[b] == body[b - 1] && body[b - 1] in body;
      } else if 0 < a {
        assert rows[a] == body[a - 1] && body[a - 1] in body;
      }
    }
  }

  // ---------------------------------------------------------------
  // The listing: locations ascending
  // ---------------------------------------------------------------

  /** Each row's location lies strictly after the previous one's. */
  predicate Ascending(rows: seq<ReportRow>)
  {
    forall a, b :: 0 <= a < b < |rows| ==> rows[a].t < rows[b].t
  }

  /** The first `upto` intervals of the table have increasing ends. */
  predicate Rising(gl: seq<GramEntry>, upto: int)
  {
    && upto < |gl|
    && forall i :: 0 <= i < upto ==> gl[i].gram < gl[i + 1].gram
  }

  /** Sample point j of an increasing interval [g, gNext) lies inside it,
      and later sample points lie further on. */
  lemma SamplePointsInInterval(g: real, gNext: real, countZ: int, j: int, j2: int)
    requires 0 <= j < countZ && g < gNext
    ensures var len := LenSubInterval(LenInterval(g, gNext), countZ);
            && g <= SamplePoint(g, len, j) < gNext
            && (j < j2 ==> SamplePoint(g, len, j) < SamplePoint(g, len, j2))
  {
    var len := LenSubInterval(LenInterval(g, gNext), countZ);
    SubIntervalsTile(g, gNext, countZ);
    assert (countZ - j) as real * len > 0.0;
    assert j < j2 ==> (j2 - j) as real * len > 0.0;
  }

  /** The first k blocks of the listing are ascending and lie in
      [Gram[0], Gram[k]). */
  lemma {:induction false} IntervalRowsAscending(gl: seq<GramEntry>, k: nat, countZ: nat)
    requires Measured(gl, countZ, k) && Rising(gl, k)
    requires 1 <= countZ && forall i :: 0 <= i < k ==> countZ <= |gl[i].hardyZValue|
    ensures Ascending(IntervalRows(gl, k, countZ))
    ensures forall r :: r in IntervalRows(gl, k, countZ) ==> gl[0].gram <= r.t < gl[k].gram
    ensures gl[0].gram <= gl[k].gram
  {
    if k > 0 {
      IntervalRowsAscending(gl, k - 1, countZ);
      var prev := IntervalRows(gl, k - 1, countZ);
      var last := GramPointRows(gl[k - 1], k - 1, countZ);
      GramPointRowsAscending(gl[k - 1], k - 1, countZ, gl[k].gram);
      ConcatAscending(prev, last);
      assert IntervalRows(gl, k, countZ) == prev + last;
    }
  }

  /** The rows of one Gram point of an increasing interval [gram, gNext)
      lie inside it, in ascending order. */
  lemma GramPointRowsAscending(e: GramEntry, i: int, countZ: nat, gNext: real)
    requires 1 <= countZ <= |e.hardyZValue| && e.gram < gNext
    requires e.lenSubInterval == LenSubInterval(LenInterval(e.gram, gNext), countZ)
    ensures Ascending(GramPointRows(e, i, countZ))
    ensures forall r :: r in GramPointRows(e, i, countZ) ==> e.gram <= r.t < gNext
  {
    var rows := GramPointRows(e, i, countZ);
    forall a, b | 0 <= a < b < |rows|
      ensures rows[a].t < rows[b].t
    {
      SamplePointsInInterval(e.gram, gNext, countZ, a, b);
    }
    forall r | r in rows
      ensures e.gram <= r.t < gNext
    {
      var j :| 0 <= j < |rows| && rows[j] == r;
      SamplePointsInInterval(e.gram, gNext, countZ, j, j);
    }
  }

  /** Two ascending listings, the first wholly below the second, join into
      one ascending listing. */
  lemma ConcatAscending(front: seq<ReportRow>, back: seq<ReportRow>)
    requires Ascending(front) && Ascending(back)
    requires forall p, q :: p in front && q in back ==> p.t < q.t
    ensures Ascending(front + back)
  {
    var rows := front + back;
    forall a, b | 0 <= a < b < |rows|
      ensures rows[a].t < rows[b].t
    {
      if b < |front| {
        assert rows[a] == front[a] && rows[b] == front[b];
      } else if a < |front| {
        assert rows[a] == front[a] && front[a] in front;
        assert rows[b] == back[b - |front|] && back[b - |front|] in back;
      } else {
        assert rows[a] == back[a - |front|] && rows[b] == back[b - |front|];
      }
    }
  }

  /** When the evaluator's Gram points increase with n, the listing of a
      built table visits strictly increasing locations: the before-row
      lies below g(n0), block i lies in [g(n0+i), g(n0+i+1)), and the
      closing row sits at g(n0+CountGram). */
  lemma ReportLocationsAscending(gl: seq<GramEntry>, tur: TuringConfig, n0: nat, ev: Evaluator)
    requires Tabulated(gl, tur, n0, ev)
    requires forall m: nat :: ev.gramAtN(m) < ev.gramAtN(m + 1)
    ensures Ascending(TuringReport(gl, tur.countGram, tur.countZ))
  {
    var countGram, countZ := tur.countGram, tur.countZ;
    assert Rising(gl, countGram) by {
      forall i | 0 <= i < countGram
        ensures gl[i].gram < gl[i + 1].gram
      {
        assert ev.gramAtN(n0 + i) < ev.gramAtN(n0 + i + 1);
      }
    }
    IntervalRowsAscending(gl, countGram, countZ);
    SubIntervalsTile(gl[0].gram, gl[1].gram, countZ);
    var body := IntervalRows(gl, countGram, countZ);
    FramedAscending(BeforeRow(gl), body, ClosingRow(gl, countGram));
    assert TuringReport(gl, countGram, countZ) == [BeforeRow(gl)] + body + [ClosingRow(gl, countGram)];
  }

  /** Ascending locations stay ascending between a first row below all of
      them and a last row above all of them. */
  lemma FramedAscending(first: ReportRow, body: seq<ReportRow>, last: ReportRow)
    requires Ascending(body) && first.t < last.t
    requires forall r :: r in body ==> first.t < r.t < last.t
    ensures Ascending([first] + body + [last])
  {
    var rows := [first] + body + [last];
    forall a, b | 0 <= a < b < |rows|
      ensures rows[a].t < rows[b].t
    {
      if 0 < a && b < |rows| - 1 {
        assert rows[a] == body[a - 1] && rows[b] == body[b - 1];
      } else if a == 0 && b < |rows| - 1 {
        assert rows[b] == body[b - 1] && body[b - 1] in body;
      } else if 0 < a {
        assert rows[a] == body[a - 1] && body[a - 1] in body;
      }
    }
  }

  // ---------------------------------------------------------------
  // K
  // ---------------------------------------------------------------

  /** The bound grows with log Gp once log Gp is non-negative. */
  lemma TuringBoundIncreasing(l1: real, l2: real)
    requires 0.0 <= l1 <= l2
    ensures TuringBound(l1) <= TuringBound(l2)
  {
    ScaleMonotone(l1, l1, l2);
    ScaleMonotone(l2, l1, l2);
    assert l2 * l1 == l1 * l2;
    assert l1 * l1 <= l2 * l2;
    assert 0.00313 * (l1 * l1) <= 0.00313 * (l2 * l2);
    assert 0.1039 * l1 <= 0.1039 * l2;
    assert TuringBound(l1) == 0.00313 * (l1 * l1) + 0.1039 * l1;
    assert TuringBound(l2) == 0.00313 * (l2 * l2) + 0.1039 * l2;
  }

  /** Multiplying by a non-negative factor keeps the order. */
  lemma ScaleMonotone(a: real, b: real, c: real)
    requires 0.0 <= a && b <= c
    ensures a * b <= a * c
  {
    assert a * c - a * b == a * (c - b);
  }

  /** Higher in the critical strip (larger log Gp) K never shrinks; and K
      is positive, as the definition "smallest positive integer" expects,
      whenever log Gp > 0. */
  lemma TuringKGrowsWithHeight(gram1: real, gram2: real, log: real -> real)
    requires 0.0 <= log(gram1 + 100.0) <= log(gram2 + 100.0)
    ensures ComputeTuringK(gram1, log) <= ComputeTuringK(gram2, log)
    ensures log(gram1 + 100.0) > 0.0 ==> ComputeTuringK(gram1, log) >= 1
  {
    TuringBoundIncreasing(log(gram1 + 100.0), log(gram2 + 100.0));
    if log(gram1 + 100.0) > 0.0 {
      assert TuringBound(log(gram1 + 100.0)) > 0.0;
    }
  }

  /** At the Gram point 0, Gp = 100 and ln 100 = 4.605..., so the bound is
      about 0.545 and K is 1. */
  lemma TuringKAtGramZero(log: real -> real)
    requires 4.6 < log(100.0) < 4.7
    ensures ComputeTuringK(0.0, log) == 1
  {
    var l := log(0.0 + 100.0);
    TuringBoundIncreasing(4.6, l);
    TuringBoundIncreasing(l, 4.7);
  }
}
