/** How many entries of a table have a property, and how one update changes that number. */
module Counting {

  function One(b: bool): int { if b then 1 else 0 }

  function Where<V>(m: map<nat, V>, f: V -> bool): set<nat>
  {
    set k | k in m && f(m[k])
  }

  lemma RemoveSize(a: set<nat>, k: nat)
    ensures |a| == |a - {k}| + One(k in a)
  {
    if k in a {
      assert a == (a - {k}) + {k};
    } else {
      assert a == a - {k};
    }
  }

  lemma WhereAt<V>(m: map<nat, V>, k: nat, f: V -> bool)
    ensures k in Where(m, f) <==> k in m && f(m[k])
  {
  }

  lemma WhereElse<V>(m: map<nat, V>, k: nat, v: V, f: V -> bool)
    ensures Where(m, f) - {k} == Where(m[k := v], f) - {k}
  {
    var n := m[k := v];
    forall x: nat ensures x in Where(m, f) - {k} <==> x in Where(n, f) - {k} {
      assert x != k ==> (x in m <==> x in n);
    }
  }

  lemma WhereUpdate<V>(m: map<nat, V>, k: nat, v: V, f: V -> bool)
    ensures |Where(m[k := v], f)| == |Where(m, f)| - One(k in m && f(m[k])) + One(f(v))
  {
    WhereElse(m, k, v, f);
    RemoveSize(Where(m, f), k);
    RemoveSize(Where(m[k := v], f), k);
    WhereAt(m, k, f);
    WhereAt(m[k := v], k, f);
  }

  lemma {:induction false} SubsetSize(a: set<nat>, b: set<nat>)
    requires a <= b
    ensures |a| <= |b|
  {
    if a != {} {
      var x :| x in a;
      SubsetSize(a - {x}, b - {x});
    }
  }

  lemma WhereImplies<V>(m: map<nat, V>, f: V -> bool, g: V -> bool)
    requires forall k :: k in m && f(m[k]) ==> g(m[k])
    ensures |Where(m, f)| <= |Where(m, g)|
  {
    SubsetSize(Where(m, f), Where(m, g));
  }

  lemma WhereNone<V>(m: map<nat, V>, f: V -> bool)
    requires forall k :: k in m ==> !f(m[k])
    ensures |Where(m, f)| == 0
  {
    assert Where(m, f) == {};
  }

  lemma WhereSame<V>(m: map<nat, V>, f: V -> bool, g: V -> bool)
    requires forall k :: k in m ==> f(m[k]) == g(m[k])
    ensures Where(m, f) == Where(m, g)
  {
  }

  lemma WhereSplit<V>(m: map<nat, V>, f: V -> bool, g: V -> bool, h: V -> bool)
    requires forall k :: k in m ==> f(m[k]) == (g(m[k]) || h(m[k])) && !(g(m[k]) && h(m[k]))
    ensures |Where(m, f)| == |Where(m, g)| + |Where(m, h)|
  {
    assert Where(m, f) == Where(m, g) + Where(m, h);
    assert Where(m, g) !! Where(m, h);
  }

  /** n extends m, and no entry changes side. */
  lemma WhereFrame<V>(m: map<nat, V>, n: map<nat, V>, f: V -> bool)
    requires m.Keys <= n.Keys
    requires forall k :: k in n ==> f(n[k]) == (k in m && f(m[k]))
    ensures Where(n, f) == Where(m, f)
  {
  }
}
