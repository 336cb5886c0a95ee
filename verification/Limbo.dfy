/** Limbo bags and the object pool as the epoch reclaimers see them.  A bag has a head block
    that is never full, and the objects of the full blocks behind it. */
module Limbo {

  datatype Bag = Bag(head: seq<nat>, full: seq<nat>)

  const EMPTY := Bag([], [])

  /** How many bags a thread of an epoch reclaimer has. */
  const EPOCH_BAGS := 3

  /** How many rotations ago the bag was the current one. */
  function Age(index: nat, bag: nat): nat
    requires index < EPOCH_BAGS && bag < EPOCH_BAGS
  {
    (index + EPOCH_BAGS - bag) % EPOCH_BAGS
  }

  datatype Place = Place(tid: nat, bag: nat)

  /** The bags of every thread, the place of every object in limbo, and the pool. */
  datatype Store = Store(bags: seq<seq<Bag>>, place: map<nat, Place>, pool: set<nat>)

  function Contents(b: Bag): seq<nat> {
    b.head + b.full
  }

  /** `blockbag.add`: a head block that becomes full is followed by a new empty head. */
  function Add(b: Bag, block: nat, p: nat): Bag {
    if |b.head| + 1 == block then Bag([], b.head + [p] + b.full) else Bag(b.head + [p], b.full)
  }

  /** What `addMoveFullBlocks` leaves behind. */
  function Keep(b: Bag): Bag {
    Bag(b.head, [])
  }

  ghost predicate Has(st: Store, t: nat, b: nat) {
    t < |st.bags| && b < |st.bags[t]|
  }

  function SetBag(bags: seq<seq<Bag>>, t: nat, b: nat, bag: Bag): seq<seq<Bag>>
    requires t < |bags| && b < |bags[t]|
  {
    bags[t := bags[t][b := bag]]
  }

  function Retire(st: Store, t: nat, b: nat, block: nat, p: nat): Store
    requires t < |st.bags| && b < |st.bags[t]|
  {
    Store(SetBag(st.bags, t, b, Add(st.bags[t][b], block, p)), st.place[p := Place(t, b)], st.pool)
  }

  /** The objects that leave when the full blocks of a bag are moved. */
  function Freed(st: Store, t: nat, b: nat): set<nat>
    requires t < |st.bags| && b < |st.bags[t]|
  {
    set p | p in st.bags[t][b].full
  }

  function FreeFull(st: Store, t: nat, b: nat): Store
    requires t < |st.bags| && b < |st.bags[t]|
  {
    Store(SetBag(st.bags, t, b, Keep(st.bags[t][b])), st.place - Freed(st, t, b), st.pool + Freed(st, t, b))
  }

  function Reuse(st: Store, p: nat): Store {
    st.(pool := st.pool - {p})
  }

  /* ------------------------------------------------------------- invariant */

  ghost predicate Distinct(s: seq<nat>) {
    forall i, j | 0 <= i < j < |s| :: s[i] != s[j]
  }

  ghost predicate BagOk(st: Store, t: nat, b: nat)
    requires Has(st, t, b)
  {
    && Distinct(Contents(st.bags[t][b]))
    && forall p | p in Contents(st.bags[t][b]) :: p in st.place && st.place[p] == Place(t, b)
  }

  ghost predicate Placed(st: Store, p: nat)
    requires p in st.place
  {
    var w := st.place[p];
    p !in st.pool && Has(st, w.tid, w.bag) && p in Contents(st.bags[w.tid][w.bag])
  }

  /** Every object in limbo is in exactly one bag, once, and not in the pool. */
  ghost predicate StoreOk(st: Store) {
    && (forall t: nat, b: nat | Has(st, t, b) :: BagOk(st, t, b))
    && (forall p | p in st.place :: Placed(st, p))
  }

  lemma AddContents(b: Bag, block: nat, p: nat)
    requires Distinct(Contents(b)) && p !in Contents(b)
    ensures Distinct(Contents(Add(b, block, p)))
    ensures forall q :: q in Contents(Add(b, block, p)) <==> q == p || q in Contents(b)
  {
    var c, c' := Contents(b), Contents(Add(b, block, p));
    var n := |b.head|;
    assert c[..n] == b.head && c[n..] == b.full;
    assert c' == c[..n] + [p] + c[n..];
    assert c == c[..n] + c[n..];
  }

  /** Moving the full blocks splits the contents without loss or duplication. */
  lemma KeepContents(b: Bag)
    requires Distinct(Contents(b))
    ensures Distinct(Contents(Keep(b)))
    ensures forall q :: q in Contents(b) <==> q in Contents(Keep(b)) || q in b.full
    ensures forall q :: !(q in Contents(Keep(b)) && q in b.full)
  {
    var c := Contents(b);
    forall i, j | 0 <= i < |b.head| && 0 <= j < |b.full| ensures b.head[i] != b.full[j] {
      assert c[i] != c[|b.head| + j];
    }
    forall i, j | 0 <= i < j < |b.head| ensures b.head[i] != b.head[j] {
      assert c[i] != c[j];
    }
  }

  lemma RetireOk(st: Store, t: nat, b: nat, block: nat, p: nat)
    requires StoreOk(st) && Has(st, t, b) && p !in st.place && p !in st.pool
    ensures StoreOk(Retire(st, t, b, block, p))
  {
    var st' := Retire(st, t, b, block, p);
    assert BagOk(st, t, b);
    AddContents(st.bags[t][b], block, p);
    forall u: nat, c: nat | Has(st', u, c) ensures BagOk(st', u, c) {
      assert Has(st, u, c);
      assert BagOk(st, u, c);
    }
    forall q | q in st'.place ensures Placed(st', q) {
      if q != p {
        assert Placed(st, q);
      }
    }
  }

  /** Everything freed was in that bag, and nothing is lost or doubled. */
  lemma FreeFullOk(st: Store, t: nat, b: nat)
    requires StoreOk(st) && Has(st, t, b)
    ensures StoreOk(FreeFull(st, t, b))
    ensures forall p | p in Freed(st, t, b) :: p in st.place && st.place[p] == Place(t, b)
  {
    hide Contents;
    var st' := FreeFull(st, t, b);
    assert BagOk(st, t, b);
    KeepContents(st.bags[t][b]);
    forall p | p in Freed(st, t, b) ensures p in st.place && st.place[p] == Place(t, b) {
      assert p in Contents(st.bags[t][b]);
    }
    forall u: nat, c: nat | Has(st', u, c) ensures BagOk(st', u, c) {
      assert Has(st, u, c);
      assert BagOk(st, u, c);
    }
    forall q | q in st'.place ensures Placed(st', q) {
      assert Placed(st, q);
    }
  }

  lemma ReuseOk(st: Store, p: nat)
    requires StoreOk(st)
    ensures StoreOk(Reuse(st, p))
  {
    var st' := Reuse(st, p);
    forall u: nat, c: nat | Has(st', u, c) ensures BagOk(st', u, c) {
      assert Has(st, u, c);
      assert BagOk(st, u, c);
    }
    forall q | q in st'.place ensures Placed(st', q) {
      assert Placed(st, q);
    }
  }
}
