/** Sums over the processes of a system. */
module Sums {

  ghost function SumOver<P(!new)>(m: map<nat, P>, f: P -> int): int
    decreases |m|
  {
    if m == map[] then 0
    else
      var p :| p in m;
      f(m[p]) + SumOver(m - {p}, f)
  }

  lemma {:induction false} SumWithout<P(!new)>(m: map<nat, P>, f: P -> int, p: nat)
    requires p in m
    ensures SumOver(m, f) == f(m[p]) + SumOver(m - {p}, f)
    decreases |m|
  {
    var q :| q in m && SumOver(m, f) == f(m[q]) + SumOver(m - {q}, f);
    if p != q {
      SumWithout(m - {q}, f, p);
      SumWithout(m - {p}, f, q);
      assert m - {q} - {p} == m - {p} - {q};
    }
  }

  /** Moving one process changes the sum by that process's share. */
  lemma SumUpdate<P(!new)>(m: map<nat, P>, f: P -> int, p: nat, v: P)
    requires p in m
    ensures SumOver(m[p := v], f) == SumOver(m, f) - f(m[p]) + f(v)
  {
    SumWithout(m, f, p);
    SumWithout(m[p := v], f, p);
    assert m[p := v] - {p} == m - {p};
  }

  lemma {:induction false} SumAtLeast<P(!new)>(m: map<nat, P>, f: P -> int)
    requires forall p :: p in m ==> f(m[p]) >= 0
    ensures SumOver(m, f) >= 0
    decreases |m|
  {
    if m != map[] {
      var p :| p in m;
      SumWithout(m, f, p);
      SumAtLeast(m - {p}, f);
    }
  }

  lemma {:induction false} SumZero<P(!new)>(m: map<nat, P>, f: P -> int)
    requires forall p :: p in m ==> f(m[p]) == 0
    ensures SumOver(m, f) == 0
    decreases |m|
  {
    if m != map[] {
      var p :| p in m;
      SumWithout(m, f, p);
      SumZero(m - {p}, f);
    }
  }
}
