/** The limbo bags of the epoch reclaimers are block bags: a bag is the head block of the view,
    and the objects of the full blocks behind it. */
module LimboRefinement {
  import opened BlockBags
  import Limbo

  type Blocks = seq<seq<nat>>

  function Flat(v: Blocks): seq<nat> {
    if v == [] then [] else v[0] + Flat(v[1..])
  }

  function AsLimbo(v: Blocks): Limbo.Bag
    requires |v| > 0
  {
    Limbo.Bag(v[0], Flat(v[1..]))
  }

  lemma {:induction false} InFlat(v: Blocks, x: nat)
    ensures x in Flat(v) <==> Count(v, x) > 0
  {
    if v != [] {
      InFlat(v[1..], x);
      CountConcat([v[0]], v[1..], x);
      CountOne(v[0], x);
      assert v == [v[0]] + v[1..];
    }
  }

  /** `add` on the blocks is Add on the limbo bag. */
  lemma AddRefines(v: Blocks, block: nat, p: nat)
    requires ViewOk(v, block)
    ensures var w: Blocks := AddView(v, block, p); |w| > 0 && AsLimbo(w) == Limbo.Add(AsLimbo(v), block, p)
  {
    var u: Blocks := v[0 := v[0] + [p]];
    assert u[1..] == v[1..];
    assert ([[]] + u)[1..] == u;
    assert Flat(u) == (v[0] + [p]) + Flat(v[1..]);
  }

  /** Moving the blocks behind the head to the pool leaves what Keep leaves, and the pool gets
      exactly the objects that Freed names. */
  lemma MoveRefines(v: Blocks, pool: Blocks, x: nat)
    requires |v| > 0
    ensures AsLimbo(v[..1]) == Limbo.Keep(AsLimbo(v))
    ensures Count(pool + v[1..], x) > 0 <==> Count(pool, x) > 0 || x in AsLimbo(v).full
    ensures x in Limbo.Contents(AsLimbo(v)) <==> Count(v, x) > 0
  {
    CountConcat(pool, v[1..], x);
    InFlat(v[1..], x);
    InFlat(v, x);
    assert v[..1][1..] == [];
  }
}
