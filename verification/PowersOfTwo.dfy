/** Powers of two, and the rounding of a number of threads to one by smearing bits. */
module PowersOfTwo {

  function Pow2(k: nat): (p: nat)
    ensures p >= 1 && (k >= 1 ==> p % 2 == 0)
  {
    if k == 0 then 1 else 2 * Pow2(k - 1)
  }

  const WORD := 32
  const WORD_SIZE := 0x1_0000_0000

  /** The largest power of two that is a signed word. */
  const LARGEST := 0x4000_0000

  /** The low n bits of a number, the lowest one first. */
  function Bits(v: nat, n: nat): (w: seq<bool>)
    ensures |w| == n
  {
    if n == 0 then [] else [v % 2 == 1] + Bits(v / 2, n - 1)
  }

  function Value(w: seq<bool>): nat {
    if w == [] then 0 else (if w[0] then 1 else 0) + 2 * Value(w[1..])
  }

  /** `v |= v >> k`. */
  function OrShift(w: seq<bool>, k: nat): (r: seq<bool>)
    ensures |r| == |w| && forall i: nat | i < |w| :: r[i] == (w[i] || (i + k < |w| && w[i + k]))
  {
    seq(|w|, i requires 0 <= i < |w| => w[i] || (i + k < |w| && w[i + k]))
  }

  function Smear(w: seq<bool>): (r: seq<bool>) {
    OrShift(OrShift(OrShift(OrShift(OrShift(w, 1), 2), 4), 8), 16)
  }

  /** On unsigned words of 32 bits, with the result read as a signed number. */
  function RoundUpPow2(x: nat): int {
    var v := Value(Smear(Bits((x - 1) % WORD_SIZE, WORD)));
    var r := (v + 1) % WORD_SIZE;
    if r < WORD_SIZE / 2 then r else r - WORD_SIZE
  }

  /** Bit p is the highest one, and the m highest from there on are set. */
  ghost predicate SetFrom(w: seq<bool>, p: nat, m: nat) {
    && p < |w| && (forall i | p < i < |w| :: !w[i])
    && (forall i | 0 <= i <= p && i + m > p :: w[i])
  }

  lemma SmearStep(w: seq<bool>, p: nat, m: nat)
    requires SetFrom(w, p, m)
    ensures SetFrom(OrShift(w, m), p, 2 * m)
  {
  }

  lemma {:induction false} HighestBit(v: nat, n: nat) returns (p: nat)
    requires 1 <= v < Pow2(n)
    ensures p < n && SetFrom(Bits(v, n), p, 1) && Pow2(p) <= v < Pow2(p + 1)
  {
    if v == 1 {
      p := 0;
      NoBits(n - 1);
    } else {
      var q := HighestBit(v / 2, n - 1);
      p := q + 1;
    }
  }

  lemma {:induction false} NoBits(n: nat)
    ensures forall i | 0 <= i < n :: !Bits(0, n)[i]
  {
    if n > 0 {
      NoBits(n - 1);
    }
  }

  lemma {:induction false} ValueOfOnes(w: seq<bool>, k: nat)
    requires k <= |w| && forall i: nat | i < |w| :: w[i] == (i < k)
    ensures Value(w) == Pow2(k) - 1
  {
    if w != [] {
      ValueOfOnes(w[1..], if k == 0 then 0 else k - 1);
    }
  }

  lemma SmearFills(w: seq<bool>, p: nat)
    requires |w| == WORD && SetFrom(w, p, 1)
    ensures |Smear(w)| == WORD && forall i: nat | i < WORD :: Smear(w)[i] == (i <= p)
  {
    hide OrShift;
    SmearStep(w, p, 1);
    var w1 := OrShift(w, 1);
    SmearStep(w1, p, 2);
    var w2 := OrShift(w1, 2);
    SmearStep(w2, p, 4);
    var w3 := OrShift(w2, 4);
    SmearStep(w3, p, 8);
    SmearStep(OrShift(w3, 8), p, 16);
  }

  lemma SmearNothing(w: seq<bool>)
    requires |w| == WORD && forall i | 0 <= i < WORD :: !w[i]
    ensures |Smear(w)| == WORD && forall i | 0 <= i < WORD :: !Smear(w)[i]
  {
    var w2 := OrShift(OrShift(w, 1), 2);
    assert forall i | 0 <= i < WORD :: !w2[i];
    var w4 := OrShift(OrShift(w2, 4), 8);
    assert forall i | 0 <= i < WORD :: !w4[i];
  }

  /** Smearing the bits of v gives the largest number with as many bits. */
  lemma Smeared(v: nat, w: seq<bool>) returns (k: nat)
    requires |w| == WORD && v < Pow2(WORD) && w == Bits(v, WORD)
    ensures Value(Smear(w)) == Pow2(k) - 1 && v < Pow2(k) && (k >= 1 ==> Pow2(k - 1) <= v)
  {
    hide Smear, Pow2, Bits;
    if v == 0 {
      k := 0;
      NoBits(WORD);
      SmearNothing(w);
      assert Pow2(0) == 1 by { FirstPower(); }
    } else {
      var p := HighestBit(v, WORD);
      k := p + 1;
      SmearFills(w, p);
    }
    ValueOfOnes(Smear(w), k);
  }

  lemma FirstPower()
    ensures Pow2(0) == 1
  {
  }

  /** The rounding yields the least power of two that is not below its argument. */
  lemma RoundUpIsNextPow2(x: nat) returns (k: nat)
    requires 1 <= x <= LARGEST
    ensures RoundUpPow2(x) == Pow2(k) && x <= Pow2(k) && (k >= 1 ==> Pow2(k - 1) < x)
  {
    hide Smear, Pow2, Bits, Value;
    SomePowers();
    k := Smeared(x - 1, Bits(x - 1, WORD));
    if k >= 1 {
      AtMost(k - 1, 29, x - 1);
    }
    FirstPower();
  }

  lemma SomePowers()
    ensures Pow2(30) == LARGEST && Pow2(WORD) == WORD_SIZE
  {
    assert Pow2(8) == 256 by {
      assert Pow2(4) == 16;
    }
    assert Pow2(16) == 0x1_0000 by {
      assert Pow2(12) == 0x1000;
    }
    assert Pow2(24) == 0x100_0000 by {
      assert Pow2(20) == 0x10_0000;
    }
    assert Pow2(28) == 0x1000_0000;
  }

  /** A number below 2^(n + 1) has no bit above n. */
  lemma {:induction false} AtMost(p: nat, n: nat, v: nat)
    requires Pow2(p) <= v < Pow2(n + 1)
    ensures p <= n && Pow2(p + 1) <= Pow2(n + 1)
  {
    if p > 0 && n > 0 {
      AtMost(p - 1, n - 1, v / 2);
    } else {
      assert Pow2(n + 1) == 2 * Pow2(n);
    }
  }
}
