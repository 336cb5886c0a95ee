/** A set of addresses kept by linear probing in a table whose size is a power of two; address 0
    stands for an empty cell. */
module PointerSets {
  import opened PowersOfTwo
  import Probing

  const EMPTY := 0
  const SMALLEST_TABLE := 32

  /* --------------------------------------------------------- circular probes */

  /** The e-th cell of the probe sequence that starts at h. */
  function Slot(h: int, e: int, n: nat): (ix: nat)
    requires n > 0
    ensures ix < n
  {
    (h + e) % n
  }

  /** How far slot i is from the start of that sequence. */
  function Distance(h: int, i: int, n: nat): (d: nat)
    requires n > 0
    ensures d < n
  {
    (i - h) % n
  }

  lemma ModShift(a: int, c: int, n: nat)
    requires n > 0
    ensures (a + c * n) % n == a % n
  {
    var q, r := a / n, a % n;
    assert a == q * n + r;
    assert a + c * n == r + (q + c) * n;
    Probing.ModUnique(a + c * n, r, q + c, n);
  }

  lemma SlotAtDistance(h: int, i: nat, n: nat)
    requires i < n
    ensures Slot(h, Distance(h, i, n), n) == i
  {
    var c, d := (i - h) / n, Distance(h, i, n);
    assert i - h == c * n + d;
    assert h + d == i + (-c) * n;
    Probing.ModUnique(h + d, i, -c, n);
  }

  lemma SlotsDiffer(h: int, d: nat, e: nat, n: nat)
    requires d < n && e < n && n > 0 && Slot(h, d, n) == Slot(h, e, n)
    ensures d == e
  {
    var p, q := (h + d) / n, (h + e) / n;
    assert d - e == (p - q) * n;
    Probing.MultipleBound(p - q, n);
  }

  lemma NextSlot(h: int, d: nat, n: nat)
    requires n > 0
    ensures (Slot(h, d, n) + 1) % n == Slot(h, d + 1, n)
  {
    var c := (h + d) / n;
    assert Slot(h, d, n) + 1 == h + d + 1 + (-c) * n;
    ModShift(h + d + 1, -c, n);
  }

  /* ------------------------------------------------------ contents of a table */

  function Cell(s: seq<int>, h: int, e: nat): int
    requires |s| > 0
  {
    s[Slot(h, e, |s|)]
  }

  /** The first d probes for the key meet neither the key nor an empty cell. */
  ghost predicate Passed(s: seq<int>, mix: int -> int, key: int, d: nat)
    requires |s| > 0
  {
    forall e: nat | e < d :: Cell(s, mix(key), e) != EMPTY && Cell(s, mix(key), e) != key
  }

  ghost function HomeDistance(s: seq<int>, mix: int -> int, i: nat): nat
    requires i < |s|
  {
    Distance(mix(s[i]), i, |s|)
  }

  /** Every key is where a search for it ends. */
  ghost predicate Exact(s: seq<int>, mix: int -> int) {
    |s| > 0 && forall i: nat | i < |s| && s[i] != EMPTY :: Passed(s, mix, s[i], HomeDistance(s, mix, i))
  }

  ghost function Keys(s: seq<int>): set<int> {
    set x | x in s && x != EMPTY
  }

  lemma Lookup(s: seq<int>, mix: int -> int, key: int, d: nat)
    requires Exact(s, mix) && key != EMPTY && d < |s| && Passed(s, mix, key, d)
    requires Cell(s, mix(key), d) == EMPTY || Cell(s, mix(key), d) == key
    ensures key in Keys(s) <==> Cell(s, mix(key), d) == key
  {
    if key in Keys(s) {
      var i: nat :| i < |s| && s[i] == key;
      var e := HomeDistance(s, mix, i);
      SlotAtDistance(mix(key), i, |s|);
      assert Cell(s, mix(key), e) == key;
      assert Passed(s, mix, key, e);
    }
  }

  /** No key is stored twice. */
  lemma NoRepeat(s: seq<int>, mix: int -> int, i: nat, j: nat)
    requires Exact(s, mix) && i < |s| && j < |s| && s[i] == s[j] != EMPTY
    ensures i == j
  {
    var h, d, e := mix(s[i]), HomeDistance(s, mix, i), HomeDistance(s, mix, j);
    SlotAtDistance(h, i, |s|);
    SlotAtDistance(h, j, |s|);
    assert Passed(s, mix, s[i], d) && Passed(s, mix, s[i], e);
    assert Cell(s, h, d) == s[i] && Cell(s, h, e) == s[i];
  }

  /** A key that was not there goes into the empty cell at which the search for it ended. */
  lemma Placed(s: seq<int>, mix: int -> int, key: int, d: nat)
    requires Exact(s, mix) && key != EMPTY && d < |s| && Passed(s, mix, key, d) && Cell(s, mix(key), d) == EMPTY
    ensures var ix := Slot(mix(key), d, |s|);
            Exact(s[ix := key], mix) && Keys(s[ix := key]) == Keys(s) + {key} && key !in Keys(s)
  {
    Lookup(s, mix, key, d);
    var ix := Slot(mix(key), d, |s|);
    var t := s[ix := key];
    forall i: nat | i < |t| && t[i] != EMPTY ensures Passed(t, mix, t[i], HomeDistance(t, mix, i)) {
      if i == ix {
        assert HomeDistance(t, mix, ix) == d by {
          SlotAtDistance(mix(key), ix, |s|);
          SlotsDiffer(mix(key), d, HomeDistance(t, mix, ix), |s|);
        }
        StillPassed(s, t, mix, key, d, ix);
      } else {
        StillPassed(s, t, mix, t[i], HomeDistance(s, mix, i), ix);
      }
    }
    forall x | x in Keys(s) + {key} ensures x in Keys(t) {
      if x == key {
        assert t[ix] == key;
      } else {
        var i :| 0 <= i < |s| && s[i] == x;
        assert t[i] == x;
      }
    }
  }

  lemma StillPassed(s: seq<int>, t: seq<int>, mix: int -> int, key: int, d: nat, ix: nat)
    requires |t| == |s| && ix < |s| && s[ix] == EMPTY && t == s[ix := t[ix]] && Passed(s, mix, key, d)
    ensures Passed(t, mix, key, d)
  {
    forall e: nat | e < d ensures Cell(t, mix(key), e) != EMPTY && Cell(t, mix(key), e) != key {
      assert Cell(s, mix(key), e) != EMPTY;
    }
  }

  /** As many keys as cells means that no cell is empty. */
  lemma SomeEmpty(s: seq<int>, mix: int -> int) returns (i: nat)
    requires Exact(s, mix) && |Keys(s)| < |s|
    ensures i < |s| && s[i] == EMPTY
  {
    if forall k: nat | k < |s| :: s[k] != EMPTY {
      forall a: nat, b: nat | a < b < |s| ensures s[a] != s[b] {
        if s[a] == s[b] {
          NoRepeat(s, mix, a, b);
        }
      }
      AllDifferent(s);
    }
    i :| i < |s| && s[i] == EMPTY;
  }

  lemma {:induction false} AllDifferent(s: seq<int>)
    requires forall a: nat, b: nat | a < b < |s| :: s[a] != s[b]
    requires forall k: nat | k < |s| :: s[k] != EMPTY
    ensures |Keys(s)| == |s|
  {
    if s == [] {
      assert Keys(s) == {};
    } else {
      var n := |s| - 1;
      AllDifferent(s[..n]);
      assert Keys(s) == Keys(s[..n]) + {s[n]};
    }
  }

  lemma EmptyTable(s: seq<int>, mix: int -> int)
    requires |s| > 0 && forall k: nat | k < |s| :: s[k] == EMPTY
    ensures Exact(s, mix) && Keys(s) == {}
  {
  }

  /* ------------------------------------------------------------------ the set */

  class PointerSet {
    const mix: int -> int              // the integer finalizer
    const tableSize: nat
    const keys: array<int>
    var size: int
    ghost const k: nat

    ghost predicate Valid()
      reads this, keys
    {
      && tableSize == keys.Length == Pow2(k) && SMALLEST_TABLE <= tableSize
      && Exact(keys[..], mix) && size == |Contents()| && size < tableSize
    }

    ghost function Contents(): set<int>
      reads keys
    {
      Keys(keys[..])
    }

    lemma SizeIs()
      requires Valid()
      ensures size == |Contents()|
    {
    }

    /** Room for twice as many keys as announced. */
    constructor (mix: int -> int, numberOfElements: int)
      ensures Valid() && Contents() == {} && fresh(keys)
      ensures tableSize >= 2 * numberOfElements
      ensures tableSize == SMALLEST_TABLE || tableSize < 4 * numberOfElements
    {
      this.mix := mix;
      var n: nat := SMALLEST_TABLE;
      ghost var e := 5;
      assert Pow2(5) == 2 * Pow2(4) == 4 * Pow2(3) == 8 * Pow2(2) == 16 * Pow2(1) == 32 * Pow2(0);
      while n < numberOfElements * 2
        invariant n == Pow2(e) && n >= SMALLEST_TABLE
        invariant n == SMALLEST_TABLE || n < 4 * numberOfElements
      {
        n := n * 2;
        e := e + 1;
      }
      tableSize := n;
      k := e;
      keys := new int[n];
      size := -1;
      new;
      Clear();
    }

    method Clear()
      requires tableSize == keys.Length == Pow2(k) && SMALLEST_TABLE <= tableSize
      requires size == -1 || Valid()
      modifies this`size, keys
      ensures Valid() && Contents() == {}
    {
      if size != 0 {
        forall i | 0 <= i < tableSize {
          keys[i] := EMPTY;
        }
        size := 0;
        EmptyTable(keys[..], mix);
      }
    }

    /** Linear probing; it ends because some cell is empty. */
    method GetIndex(key: int) returns (ix: nat, ghost d: nat)
      requires Valid()
      ensures ix < tableSize && (keys[ix] == EMPTY || keys[ix] == key)
      ensures d < tableSize && Slot(mix(key), d, tableSize) == ix && Passed(keys[..], mix, key, d)
    {
      ghost var s := keys[..];
      ghost var h := mix(key);
      ghost var z := SomeEmpty(s, mix);
      ghost var dz := Distance(h, z, tableSize);
      SlotAtDistance(h, z, tableSize);
      hide Exact;
      ix := mix(key) % tableSize;
      d := 0;
      while keys[ix] != EMPTY && keys[ix] != key
        invariant ix == Slot(h, d, tableSize) && d <= dz && Passed(s, mix, key, d)
        decreases dz - d
      {
        assert Cell(s, h, d) == keys[ix];
        NextSlot(h, d, tableSize);
        ix := (ix + 1) % tableSize;
        d := d + 1;
      }
    }

    method Get(key: int) returns (r: int)
      requires Valid()
      ensures r == if key in Contents() then key else EMPTY
    {
      var ix, d := GetIndex(key);
      if key != EMPTY {
        Lookup(keys[..], mix, key, d);
      }
      r := keys[ix];
    }

    method Contains(key: int) returns (r: bool)
      requires Valid()
      ensures r <==> key in Contents()
    {
      var g := Get(key);
      r := g != EMPTY;
    }

    method Insert(key: int)
      requires Valid() && key != EMPTY
      requires key in Contents() || size + 1 < tableSize
      modifies this`size, keys
      ensures Valid() && Contents() == old(Contents()) + {key}
    {
      var ix, d := GetIndex(key);
      ghost var s := keys[..];
      Lookup(s, mix, key, d);
      if keys[ix] == EMPTY {
        Placed(s, mix, key, d);
        keys[ix] := key;
        size := size + 1;
        assert keys[..] == s[ix := key];
      }
    }
  }
}
