/** Counting the keys of a finite map whose value satisfies a predicate. */
module Tally {

  function Matching<T(!new)>(m: map<nat, T>, p: T -> bool): set<nat> {
    set k | k in m && p(m[k])
  }

  function Count<T(!new)>(m: map<nat, T>, p: T -> bool): nat {
    |Matching(m, p)|
  }

  /** One for a key that is counted, zero otherwise. */
  function Weight<T(!new)>(m: map<nat, T>, p: T -> bool, k: nat): nat {
    if k in m && p(m[k]) then 1 else 0
  }

  lemma CountUpdate<T(!new)>(m: map<nat, T>, p: T -> bool, k: nat, v: T)
    ensures Count(m[k := v], p) == Count(m, p) - Weight(m, p, k) + (if p(v) then 1 else 0)
  {
    var rest := Matching(m, p) - {k};
    assert Matching(m[k := v], p) == if p(v) then rest + {k} else rest;
    assert Matching(m, p) == if k in m && p(m[k]) then rest + {k} else rest;
  }

  lemma CountRemove<T(!new)>(m: map<nat, T>, p: T -> bool, k: nat)
    ensures Count(m - {k}, p) == Count(m, p) - Weight(m, p, k)
  {
    var rest := Matching(m, p) - {k};
    assert Matching(m - {k}, p) == rest;
    assert Matching(m, p) == if k in m && p(m[k]) then rest + {k} else rest;
  }

  lemma CountZero<T(!new)>(m: map<nat, T>, p: T -> bool)
    ensures Count(m, p) == 0 <==> forall k :: k in m ==> !p(m[k])
  {
    if Count(m, p) == 0 {
      forall k | k in m ensures !p(m[k]) {
        assert k !in Matching(m, p);
      }
    } else {
      var k :| k in Matching(m, p);
    }
  }

  lemma CountSplit<T(!new)>(m: map<nat, T>, p: T -> bool, q: T -> bool, both: T -> bool)
    requires forall v: T :: both(v) <==> p(v) || q(v)
    requires forall v: T :: !(p(v) && q(v))
    ensures Count(m, both) == Count(m, p) + Count(m, q)
  {
    assert Matching(m, both) == Matching(m, p) + Matching(m, q);
    assert Matching(m, p) !! Matching(m, q);
  }

  lemma SubsetSize<T>(a: set<T>, b: set<T>)
    requires a <= b
    ensures |a| <= |b|
  {
    assert b == a + (b - a);
  }

  /** Two finite sets related by a bijection have the same size. */
  lemma {:induction false} SameSize(a: set<nat>, b: set<nat>, f: nat -> nat)
    requires forall x :: x in a ==> f(x) in b
    requires forall x, y :: x in a && y in a && f(x) == f(y) ==> x == y
    requires forall y :: y in b ==> exists x :: x in a && f(x) == y
    ensures |a| == |b|
  {
    if a == {} {
      assert b == {};
    } else {
      var x :| x in a;
      SameSize(a - {x}, b - {f(x)}, f);
    }
  }

  /** The numbers below n. */
  function Below(n: nat): (r: set<nat>)
    ensures |r| == n
    ensures forall j: nat :: j in r <==> j < n
  {
    if n == 0 then {} else Below(n - 1) + {n - 1}
  }
}
