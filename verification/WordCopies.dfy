/** Copies of descriptors that are made word by word, as memcpy does. */
module WordCopies {

  ghost predicate Complete<T>(m: map<nat, T>, n: nat) {
    forall i: nat :: i in m <==> i < n
  }

  /** The copy that a complete memcpy produced. */
  function Assemble<T>(got: map<nat, T>, n: nat): (b: seq<T>)
    requires forall i: nat | i < n :: i in got
    ensures |b| == n && forall i: nat | i < n :: b[i] == got[i]
  {
    seq(n, i requires 0 <= i < n => got[i])
  }
}
