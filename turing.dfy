/*
 * The records of turing.h and the rules its field comments state.
 *
 * struct TURING is the run configuration, struct GRAMLIST one entry of
 * the Gram-point table.  The field comments of GRAMLIST are relations
 * between fields; they are given here as functions and predicates, and
 * the lemmas below say what those relations mean.
 */
module Turing {

  /** struct TURING, restricted to what the table builder reads.
      `t` is the value of the `-t` argument (tBuf) once parsed. */
  datatype TuringConfig = TuringConfig(t: real, countZ: int, countGram: int)

  /** struct GRAMLIST as CompTuring.c uses it, plus the header's OddZeros
      and ZerosFound fields (which no modelled code writes).
      hardyZValue[j] is Z at the j-th sub-interval point after `gram`;
      hardyZBefore is Z one sub-interval before `gram`. */
  datatype GramEntry = GramEntry(
    gram: real,
    n: int,
    lenInterval: real,
    lenSubInterval: real,
    minusOneToN: int,
    good: bool,
    oddZeros: bool,
    zerosFound: int,
    hardyZValue: seq<real>,
    hardyZBefore: real)

  /** The all-zero entry that static storage starts with. */
  function ZeroEntry(zCapacity: nat): (e: GramEntry)
    ensures e.gram == 0.0 && e.n == 0 && e.lenInterval == 0.0 && e.lenSubInterval == 0.0
    ensures e.minusOneToN == 0 && !e.good && !e.oddZeros && e.zerosFound == 0 && e.hardyZBefore == 0.0
    ensures |e.hardyZValue| == zCapacity && forall j :: 0 <= j < zCapacity ==> e.hardyZValue[j] == 0.0
  {
    GramEntry(0.0, 0, 0.0, 0.0, 0, false, false, 0, seq(zCapacity, _ => 0.0), 0.0)
  }

  // ---------------------------------------------------------------
  // MinusOneToN: "1 if n even, -1 if n odd"
  // ---------------------------------------------------------------

  /** 1 for even n, -1 for odd n. */
  function MinusOneToN(n: nat): (sign: int)
    ensures sign == 1 || sign == -1
    ensures sign == 1 <==> n % 2 == 0
  {
    if n % 2 == 0 then 1 else -1
  }

  /** b raised to the power e, the reference definition of (-1)^n. */
  function Power(b: int, e: nat): int
  {
    if e == 0 then 1 else b * Power(b, e - 1)
  }

  /** The parity sign is the power (-1)^n that the field's name promises. */
  lemma {:induction false} MinusOneToNIsPower(n: nat)
    ensures MinusOneToN(n) == Power(-1, n)
  {
    if n > 0 {
      MinusOneToNIsPower(n - 1);
      MinusOneToNAlternates(n - 1);
    }
  }

  /** Consecutive indices carry opposite signs, which is what lets the
      builder flip one running sign instead of recomputing the parity. */
  lemma MinusOneToNAlternates(n: nat)
    ensures MinusOneToN(n + 1) == -MinusOneToN(n)
    ensures MinusOneToN(n) == 1 || MinusOneToN(n) == -1
  {
  }

  // ---------------------------------------------------------------
  // Good: "(-1)^n * HardyZ[0] > 0"
  // ---------------------------------------------------------------

  /** The sign and the Z value agree: both positive or both negative. */
  function IsGood(minusOneToN: int, hardyZ: real): (good: bool)
    ensures good <==> (minusOneToN > 0 && hardyZ > 0.0) || (minusOneToN < 0 && hardyZ < 0.0)
  {
    minusOneToN as real * hardyZ > 0.0
  }

  /** With a sign of +1 a Gram point is good exactly when Z is positive
      there, with -1 exactly when Z is negative; a zero value is bad. */
  lemma GoodSignRule(minusOneToN: int, hardyZ: real)
    requires minusOneToN == 1 || minusOneToN == -1
    ensures IsGood(minusOneToN, hardyZ) <==>
            (if minusOneToN == 1 then hardyZ > 0.0 else hardyZ < 0.0)
    ensures hardyZ == 0.0 ==> !IsGood(minusOneToN, hardyZ)
  {
  }

  /** C's conversion of an int to bool. */
  function CBool(v: int): bool
  {
    v != 0
  }

  /** What `Good = GoodTest > 0 ? 1 : -1` stores into the `bool Good`
      field that turing.h declares: -1 converts to true, so every Gram
      point reads as good. */
  function GoodAsStored(minusOneToN: int, hardyZ: real): (stored: bool)
    ensures stored
  {
    CBool(if minusOneToN as real * hardyZ > 0.0 then 1 else -1)
  }

  /** An even n with a negative Z value: the documented rule says bad,
      the stored flag says good. */
  lemma GoodAsStoredMisclassifies()
    ensures GoodAsStored(1, -1.0) && !IsGood(1, -1.0)
  {
  }

  // ---------------------------------------------------------------
  // OddZeros: "this and next Gram point are both good or both bad"
  // ---------------------------------------------------------------

  function OddZerosRule(goodHere: bool, goodNext: bool): (odd: bool)
    ensures odd <==> (goodHere && goodNext) || (!goodHere && !goodNext)
  {
    goodHere == goodNext
  }

  /** For consecutive Gram points (opposite signs) with non-zero Z values,
      "both good or both bad" holds exactly when Z changes sign between
      them, so the interval holds an odd number of zeros. */
  lemma OddZerosIffOppositeSigns(minusOneToN: int, z: real, zNext: real)
    requires minusOneToN == 1 || minusOneToN == -1
    requires z != 0.0 && zNext != 0.0
    ensures OddZerosRule(IsGood(minusOneToN, z), IsGood(-minusOneToN, zNext))
            <==> z * zNext < 0.0
  {
    if z > 0.0 {
      if zNext > 0.0 { assert z * zNext > 0.0; } else { assert z * zNext < 0.0; }
    } else {
      if zNext > 0.0 { assert z * zNext < 0.0; } else { assert z * zNext > 0.0; }
    }
  }

  // ---------------------------------------------------------------
  // lenInterval: "Gram(next) - Gram";  lenSubInterval: "lenInterval / CountZ"
  // ---------------------------------------------------------------

  /** The length of the interval from a Gram point to the next one. */
  function LenInterval(gram: real, gramNext: real): (len: real)
    ensures gram + len == gramNext
  {
    gramNext - gram
  }

  /** One CountZ-th of an interval. */
  function LenSubInterval(lenInterval: real, countZ: int): (sub: real)
    requires countZ != 0
    ensures sub * countZ as real == lenInterval
  {
    lenInterval / countZ as real
  }

  /** CountZ sub-intervals laid end to end from a Gram point reach the
      next Gram point exactly, and each is positive when the Gram points
      increase. */
  lemma SubIntervalsTile(gram: real, gramNext: real, countZ: int)
    requires countZ >= 1
    ensures gram + countZ as real * LenSubInterval(LenInterval(gram, gramNext), countZ) == gramNext
    ensures gram < gramNext ==> LenSubInterval(LenInterval(gram, gramNext), countZ) > 0.0
  {
  }
}
