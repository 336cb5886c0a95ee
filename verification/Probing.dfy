/** Probing with cumulative squares: the n-th probe is at distance 1 + 4 + ... + n^2 from the
    first.  It visits every slot of any table whose size is a power of two. */
module Probing {

  import opened PowersOfTwo

  /** The sum of the first n squares. */
  function Squares(n: nat): nat {
    if n == 0 then 0 else Squares(n - 1) + n * n
  }

  /** The sum over a window of m numbers after i. */
  lemma {:induction false} WindowSum(i: nat, m: nat)
    ensures Squares(i + m) == Squares(i) + m * i * i + i * m * (m + 1) + Squares(m)
  {
    if m == 0 {
    } else {
      WindowSum(i, m - 1);
      calc {
        Squares(i + m);
        Squares(i + (m - 1)) + (i + m) * (i + m);
        Squares(i) + (m - 1) * i * i + i * (m - 1) * m + Squares(m - 1) + (i + m) * (i + m);
        { Expand(i, m); }
        Squares(i) + m * i * i + i * m * (m + 1) + Squares(m - 1) + m * m;
      }
    }
  }

  lemma Expand(i: int, m: int)
    ensures (m - 1) * i * i + i * (m - 1) * m + (i + m) * (i + m) == m * i * i + i * m * (m + 1) + m * m
  {
    assert (i + m) * (i + m) == i * i + 2 * (i * m) + m * m;
    assert (m - 1) * i * i == m * i * i - i * i;
    assert i * (m - 1) * m == i * m * m - i * m;
    assert i * m * (m + 1) == i * m * m + i * m;
  }

  /** The squares up to 2^(k+1) sum up to 2^k modulo 2^(k+1). */
  lemma {:induction false} FullTurn(k: nat) returns (c: int)
    ensures Squares(Pow2(k + 1)) == Pow2(k) + c * Pow2(k + 1)
  {
    if k == 0 {
      c := 2;
      assert Pow2(1) == 2 * Pow2(0) == 2;
      assert Squares(2) == Squares(1) + 4 == 5;
    } else {
      var d := FullTurn(k - 1);
      var h, m := Pow2(k - 1), Pow2(k);
      WindowSum(m, m);
      Doubled(h, m, d, Squares(m));
      c := d + m * m + h;
    }
  }

  lemma Doubled(h: int, m: int, d: int, x: int)
    requires m == 2 * h && x == h + d * m
    ensures x + m * m * m + m * m * (m + 1) + x == m + (d + m * m + h) * (2 * m)
  {
    assert m * m * (m + 1) == m * m * m + m * m;
    assert (d + m * m + h) * (2 * m) == 2 * (d * m) + 2 * (m * m * m) + m * m;
  }

  /** After 2^(k+1) more probes the position has moved by 2^k modulo 2^(k+1). */
  lemma HalfShift(i: nat, k: nat) returns (c: int)
    ensures Squares(i + Pow2(k + 1)) == Squares(i) + Pow2(k) + c * Pow2(k + 1)
  {
    var m := Pow2(k + 1);
    var d := FullTurn(k);
    WindowSum(i, m);
    TakeOut(i, m, d);
    c := i * i + i * (m + 1) + d;
  }

  lemma TakeOut(i: int, m: int, d: int)
    ensures m * i * i + i * m * (m + 1) + d * m == (i * i + i * (m + 1) + d) * m
  {
    assert (i * i + i * (m + 1) + d) * m == i * i * m + i * (m + 1) * m + d * m;
    assert m * i * i == i * i * m && i * m * (m + 1) == i * (m + 1) * m;
  }

  lemma Halves(d: int, h: int)
    ensures d % 2 == 0 ==> d * h == (d / 2) * (2 * h)
    ensures d % 2 == 1 ==> d * h + h == ((d + 1) / 2) * (2 * h)
  {
    var e := d / 2;
    assert d == 2 * e + d % 2;
    assert 2 * e * h == e * (2 * h) && (e + 1) * (2 * h) == e * (2 * h) + 2 * h;
  }

  lemma Distribute(a: int, b: int, m: int)
    ensures (a + b) * m == a * m + b * m
  {
  }

  /** The sums of squares take every value modulo every power of two. */
  lemma {:induction false} SquaresReachAll(k: nat, r: int) returns (i: nat, c: int)
    ensures i < Pow2(k + 1) && Squares(i) == r + c * Pow2(k)
  {
    if k == 0 {
      i, c := 0, -r;
    } else {
      var j, d := SquaresReachAll(k - 1, r);
      var h, m := Pow2(k - 1), Pow2(k);
      Halves(d, h);
      if d % 2 == 0 {
        i, c := j, d / 2;
      } else {
        var e := HalfShift(j, k - 1);
        i, c := j + m, (d + 1) / 2 + e;
        Distribute((d + 1) / 2, e, m);
      }
    }
  }

  /** The slot of the n-th probe that starts at slot start. */
  function Slot(start: nat, n: nat, capacity: nat): (s: nat)
    requires capacity > 0
    ensures s < capacity
  {
    (start + Squares(n)) % capacity
  }

  /** Every slot is reached from every start, within twice the number of slots. */
  lemma ProbesVisitEverySlot(start: nat, target: nat, k: nat) returns (i: nat)
    requires target < Pow2(k)
    ensures i < Pow2(k + 1) && Slot(start, i, Pow2(k)) == target
  {
    var m := Pow2(k);
    var c;
    i, c := SquaresReachAll(k, target - start);
    ModUnique(start + Squares(i), target, c, m);
  }

  lemma ModUnique(a: int, r: nat, c: int, m: nat)
    requires r < m && a == r + c * m
    ensures a % m == r
  {
    var q := a / m;
    assert a == q * m + a % m;
    assert (c - q) * m == a % m - r;
    SmallMultiple(c - q, m, a % m - r);
  }

  lemma SmallMultiple(q: int, m: int, d: int)
    requires q * m == d && 0 - m < d < m
    ensures d == 0
  {
    MultipleBound(q, m);
  }

  lemma MultipleBound(q: int, m: int)
    requires m > 0
    ensures q >= 1 ==> q * m >= m
    ensures q <= -1 ==> q * m <= 0 - m
  {
  }

  lemma FirstSlot(start: nat, capacity: nat)
    requires start < capacity
    ensures Slot(start, 0, capacity) == start
  {
  }

  /** One probe step of the loop, from the slot before to the n-th slot. */
  lemma NextSlot(start: nat, n: nat, ix: nat, capacity: nat)
    requires capacity > 0 && n >= 1 && ix == Slot(start, n - 1, capacity)
    ensures (ix + n * n) % capacity == Slot(start, n, capacity)
  {
    ModAdd(start + Squares(n - 1), n * n, capacity);
  }

  lemma ModAdd(a: nat, b: nat, m: nat)
    requires m > 0
    ensures (a % m + b) % m == (a + b) % m
  {
    var x := a % m + b;
    assert a == (a / m) * m + a % m;
    assert x == (x / m) * m + x % m;
    assert a + b == x % m + (a / m + x / m) * m;
    ModUnique(a + b, x % m, a / m + x / m, m);
  }

  /** An insertion below half load leaves an empty slot exactly if there are at least two slots. */
  lemma RoomAfterInsert(size: nat, k: nat)
    requires 2 * size < Pow2(k)
    ensures size + 1 < Pow2(k) <==> k >= 1
  {
    assert k >= 1 ==> Pow2(k) == 2 * Pow2(k - 1) && Pow2(k - 1) >= 1;
    assert k == 0 ==> Pow2(k) == 1;
  }

  /** With one slot, every probe comes to it: a search for an element that is not there never
      ends once the slot is full. */
  lemma OneSlotIsStuck(start: nat)
    ensures forall n: nat :: Slot(start, n, 1) == 0
  {
    forall n: nat ensures Slot(start, n, 1) == 0 {
      ModUnique(start + Squares(n), 0, start + Squares(n), 1);
    }
  }
}
