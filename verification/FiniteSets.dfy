/** Sizes and extremes of finite sets. */
module FiniteSets {
  lemma {:induction false} SubsetSize<A>(a: set<A>, b: set<A>)
    requires a <= b
    ensures |a| <= |b|
    ensures a != b ==> |a| < |b|
  {
    if a != {} {
      var x :| x in a;
      SubsetSize(a - {x}, b - {x});
    }
  }

  ghost predicate IsLeast(m: nat, s: set<nat>) {
    m in s && forall x | x in s :: m <= x
  }

  ghost predicate IsGreatest(m: nat, s: set<nat>) {
    m in s && forall x | x in s :: x <= m
  }

  lemma {:induction false} LeastExists(s: set<nat>)
    requires s != {}
    ensures exists m :: IsLeast(m, s)
  {
    var x :| x in s;
    assert s == s - {x} + {x};
    if s == {x} {
      assert IsLeast(x, s);
    } else {
      LeastExists(s - {x});
      var m :| IsLeast(m, s - {x});
      assert IsLeast(if x < m then x else m, s);
    }
  }

  lemma {:induction false} GreatestExists(s: set<nat>)
    requires s != {}
    ensures exists m :: IsGreatest(m, s)
  {
    var x :| x in s;
    assert s == s - {x} + {x};
    if s == {x} {
      assert IsGreatest(x, s);
    } else {
      GreatestExists(s - {x});
      var m :| IsGreatest(m, s - {x});
      assert IsGreatest(if x > m then x else m, s);
    }
  }
}
