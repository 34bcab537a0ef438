/** Where the container's objects come from: every constructed object has its own name, so a
    singleton factory constructs at most once. */
module ServiceContainerNames {
  import opened Options
  import opened ServiceContainer

  ghost predicate Pending(s: State, t: TypeId) {
    t in s.services && s.services[t].Singleton? && s.services[t].instance == Null && s.services[t].maker.Some?
  }

  ghost function RegOf(s: State, t: TypeId): nat
    requires Pending(s, t)
  {
    s.services[t].maker.value.reg
  }

  /** The name lies at or below one of the argument positions lo..hi of parent. */
  ghost predicate IsPart(name: Name, parent: Name, lo: nat, hi: nat) {
    && name.root == parent.root
    && |name.path| > |parent.path|
    && name.path[..|parent.path|] == parent.path
    && lo <= name.path[|parent.path|].k < hi
  }

  ghost predicate Clean(names: seq<Name>, reg: nat) {
    forall a | 0 <= a < |names| :: names[a].root != Once(reg)
  }

  ghost predicate Injective(names: seq<Name>) {
    forall a, b | 0 <= a < b < |names| :: names[a] != names[b]
  }

  ghost predicate NoPart(names: seq<Name>, parent: Name, lo: nat, hi: nat) {
    forall a | 0 <= a < |names| :: !IsPart(names[a], parent, lo, hi)
  }

  /** Nothing below the bound that is still to be built has left a trace yet. */
  ghost predicate Untouched(s: State, rank: Rank, bound: nat, root: Root) {
    && (forall t | Pending(s, t) && rank(t) < bound :: Clean(s.names, RegOf(s, t)) && root != Once(RegOf(s, t)))
    && (forall t, u | Pending(s, t) && Pending(s, u) && RegOf(s, t) == RegOf(s, u) :: t == u)
  }

  ghost predicate Grows(s: State, s': State, rank: Rank, bound: nat) {
    && s.names <= s'.names
    && s.heap <= s'.heap
    && s'.services.Keys == s.services.Keys
    && forall t | t in s.services ::
         || s'.services[t] == s.services[t]
         || (Pending(s, t) && rank(t) < bound && !Pending(s', t) && s'.services[t].Singleton?
             && s'.services[t].maker == s.services[t].maker)
  }

  /** The name was made for a singleton that was pending in s and is not in s'. */
  ghost predicate BuiltNow(s: State, s': State, rank: Rank, bound: nat, name: Name) {
    exists t :: Pending(s, t) && !Pending(s', t) && rank(t) < bound && name.root == Once(RegOf(s, t))
  }

  ghost predicate NewNames(s: State, s': State, rank: Rank, bound: nat, parent: Name, lo: nat, hi: nat) {
    forall a | |s.names| <= a < |s'.names| ::
      IsPart(s'.names[a], parent, lo, hi) || BuiltNow(s, s', rank, bound, s'.names[a])
  }

  ghost predicate Sound(s: State) {
    |s.names| == |s.heap| && Injective(s.names)
  }

  lemma GrowsTrans(s: State, s1: State, s2: State, rank: Rank, bound1: nat, bound: nat)
    requires Grows(s, s1, rank, bound1) && Grows(s1, s2, rank, bound) && bound1 <= bound
    ensures Grows(s, s2, rank, bound)
  {
  }

  lemma NewNamesTrans(s: State, s1: State, s2: State, rank: Rank, bound1: nat, bound: nat, parent: Name, lo: nat,
                      mid: nat, hi: nat)
    requires Grows(s, s1, rank, bound1) && Grows(s1, s2, rank, bound) && bound1 <= bound && lo <= mid <= hi
    requires NewNames(s, s1, rank, bound1, parent, lo, mid) && NewNames(s1, s2, rank, bound, parent, mid, hi)
    ensures NewNames(s, s2, rank, bound, parent, lo, hi)
  {
    forall a | |s.names| <= a < |s2.names|
      ensures IsPart(s2.names[a], parent, lo, hi) || BuiltNow(s, s2, rank, bound, s2.names[a])
    {
      if a < |s1.names| {
        assert s2.names[a] == s1.names[a];
        BuiltStays(s, s1, s2, rank, bound1, bound, s1.names[a]);
      } else {
        BuiltEarlier(s, s1, s2, rank, bound1, bound, s2.names[a]);
      }
    }
  }

  lemma BuiltStays(s: State, s1: State, s2: State, rank: Rank, bound1: nat, bound: nat, name: Name)
    requires Grows(s, s1, rank, bound1) && Grows(s1, s2, rank, bound) && bound1 <= bound
    ensures BuiltNow(s, s1, rank, bound1, name) ==> BuiltNow(s, s2, rank, bound, name)
  {
    if BuiltNow(s, s1, rank, bound1, name) {
      var t :| Pending(s, t) && !Pending(s1, t) && rank(t) < bound1 && name.root == Once(RegOf(s, t));
      assert s2.services[t] == s1.services[t];
    }
  }

  lemma BuiltEarlier(s: State, s1: State, s2: State, rank: Rank, bound1: nat, bound: nat, name: Name)
    requires Grows(s, s1, rank, bound1) && Grows(s1, s2, rank, bound) && bound1 <= bound
    ensures BuiltNow(s1, s2, rank, bound, name) ==> BuiltNow(s, s2, rank, bound, name)
  {
    if BuiltNow(s1, s2, rank, bound, name) {
      var t :| Pending(s1, t) && !Pending(s2, t) && rank(t) < bound && name.root == Once(RegOf(s1, t));
      assert s1.services[t] == s.services[t];
    }
  }

  /** Resolving at one position leaves the state ready for the next one. */
  lemma StillUntouched(s: State, s': State, rank: Rank, bound: nat, parent: Name, lo: nat, hi: nat, bound': nat,
                       root: Root)
    requires Untouched(s, rank, bound', root) && Grows(s, s', rank, bound)
    requires NewNames(s, s', rank, bound, parent, lo, hi)
    requires forall t | Pending(s, t) && rank(t) < bound' :: parent.root != Once(RegOf(s, t))
    ensures Untouched(s', rank, bound', root)
  {
    forall t | Pending(s', t) ensures Pending(s, t) && RegOf(s, t) == RegOf(s', t) {
      assert s'.services[t] == s.services[t];
    }
    forall t, a | Pending(s', t) && rank(t) < bound' && 0 <= a < |s'.names|
      ensures s'.names[a].root != Once(RegOf(s', t))
    {
      if a < |s.names| {
        assert s'.names[a] == s.names[a];
      } else if BuiltNow(s, s', rank, bound, s'.names[a]) {
        var u :| Pending(s, u) && !Pending(s', u) && rank(u) < bound && s'.names[a].root == Once(RegOf(s, u));
        assert u != t;
      }
    }
  }

  lemma StillNoPart(s: State, s': State, rank: Rank, bound: nat, parent: Name, lo: nat, mid: nat, hi: nat)
    requires lo <= mid <= hi && NoPart(s.names, parent, lo, hi) && Untouched(s, rank, bound, parent.root)
    requires Grows(s, s', rank, bound) && NewNames(s, s', rank, bound, parent, lo, mid)
    ensures NoPart(s'.names, parent, mid, hi)
  {
    forall a | 0 <= a < |s'.names| ensures !IsPart(s'.names[a], parent, mid, hi) {
      if a < |s.names| {
        assert s'.names[a] == s.names[a];
        assert !IsPart(s.names[a], parent, lo, hi);
      } else {
        assert IsPart(s'.names[a], parent, lo, mid) || BuiltNow(s, s', rank, bound, s'.names[a]);
      }
    }
  }

  lemma PartOfPart(name: Name, child: Name, parent: Name, k: nat, lo: nat, hi: nat)
    requires IsPart(child, parent, k, k + 1) && IsPart(name, child, lo, hi)
    ensures IsPart(name, parent, k, k + 1)
  {
    assert name.path[..|parent.path|] == name.path[..|child.path|][..|parent.path|];
    assert name.path[|parent.path|] == name.path[..|child.path|][|parent.path|];
  }

  // ----- the recursion of Resolve

  lemma {:induction false} ResolvedEffect(s: State, rank: Rank, t: TypeId, parent: Name, k: nat)
    requires Ranked(rank, s.services) && Sound(s)
    requires Untouched(s, rank, rank(t) + 1, parent.root) && NoPart(s.names, parent, k, k + 1)
    ensures var s' := Resolved(s, rank, t, parent, k).0;
            Grows(s, s', rank, rank(t) + 1) && NewNames(s, s', rank, rank(t) + 1, parent, k, k + 1) && Sound(s')
    decreases rank(t), 1, 0
  {
    if t in s.services {
      var f := s.services[t];
      assert FactoryRanked(rank, t, f);
      if f.Transient? {
        TransientEffect(s, rank, t, parent, k);
      } else if f.instance == Null && f.maker.Some? {
        SingletonEffect(s, rank, t, parent, k);
      }
    }
  }

  lemma {:induction false} TransientEffect(s: State, rank: Rank, t: TypeId, parent: Name, k: nat)
    requires Ranked(rank, s.services) && Sound(s)
    requires Untouched(s, rank, rank(t) + 1, parent.root) && NoPart(s.names, parent, k, k + 1)
    requires t in s.services && s.services[t].Transient?
    ensures var s' := Resolved(s, rank, t, parent, k).0;
            Grows(s, s', rank, rank(t) + 1) && NewNames(s, s', rank, rank(t) + 1, parent, k, k + 1) && Sound(s')
    decreases rank(t), 0, |s.services[t].provider.deps| + 2
  {
    var p := s.services[t].provider;
    assert FactoryRanked(rank, t, s.services[t]);
    var name := Name(parent.root, parent.path + [Step(k, p.reg)]);
    assert IsPart(name, parent, k, k + 1);
    assert Untouched(s, rank, rank(t), name.root);
    assert name !in s.names;
    forall a | 0 <= a < |s.names| ensures !IsPart(s.names[a], name, 0, |p.deps|) {
      if IsPart(s.names[a], name, 0, |p.deps|) {
        PartOfPart(s.names[a], name, parent, k, 0, |p.deps|);
      }
    }
    ConstructedEffect(s, rank, rank(t), p, name);
    var s' := Resolved(s, rank, t, parent, k).0;
    forall a | |s.names| <= a < |s'.names|
      ensures IsPart(s'.names[a], parent, k, k + 1) || BuiltNow(s, s', rank, rank(t) + 1, s'.names[a])
    {
      if IsPart(s'.names[a], name, 0, |p.deps|) {
        PartOfPart(s'.names[a], name, parent, k, 0, |p.deps|);
      }
    }
  }

  lemma {:induction false} SingletonEffect(s: State, rank: Rank, t: TypeId, parent: Name, k: nat)
    requires Ranked(rank, s.services) && Sound(s)
    requires Untouched(s, rank, rank(t) + 1, parent.root)
    requires Pending(s, t)
    ensures var s' := Resolved(s, rank, t, parent, k).0;
            Grows(s, s', rank, rank(t) + 1) && NewNames(s, s', rank, rank(t) + 1, parent, k, k + 1) && Sound(s')
    decreases rank(t), 0, |s.services[t].maker.value.deps| + 2
  {
    var p := s.services[t].maker.value;
    assert FactoryRanked(rank, t, s.services[t]);
    var name := Name(Once(p.reg), []);
    assert Clean(s.names, p.reg);
    assert Untouched(s, rank, rank(t), name.root);
    ConstructedEffect(s, rank, rank(t), p, name);
    var (s1, r) := Constructed(s, rank, rank(t), p, name);
    var s' := Resolved(s, rank, t, parent, k).0;
    assert s'.names == s1.names && !Pending(s', t);
    forall a | |s.names| <= a < |s'.names| ensures BuiltNow(s, s', rank, rank(t) + 1, s'.names[a]) {
      if BuiltNow(s, s1, rank, rank(t), s'.names[a]) {
        var u :| Pending(s, u) && !Pending(s1, u) && rank(u) < rank(t) && s'.names[a].root == Once(RegOf(s, u));
        assert !Pending(s', u);
      } else {
        assert s'.names[a].root == Once(RegOf(s, t));
      }
    }
  }

  lemma {:induction false} ConstructedEffect(s: State, rank: Rank, bound: nat, p: Provider, name: Name)
    requires Ranked(rank, s.services) && Below(rank, p.deps, bound) && Sound(s)
    requires Untouched(s, rank, bound, name.root) && name !in s.names && NoPart(s.names, name, 0, |p.deps|)
    ensures var s' := Constructed(s, rank, bound, p, name).0;
            && Grows(s, s', rank, bound) && Sound(s')
            && forall a | |s.names| <= a < |s'.names| ::
                 || s'.names[a] == name
                 || IsPart(s'.names[a], name, 0, |p.deps|)
                 || BuiltNow(s, s', rank, bound, s'.names[a])
    decreases bound, 0, |p.deps| + 1
  {
    ResolvedAllEffect(s, rank, bound, p.deps, name, 0);
    var s1 := ResolvedAll(s, rank, bound, p.deps, name, 0).0;
    var s' := Constructed(s, rank, bound, p, name).0;
    assert s'.services == s1.services && s'.names == s1.names + [name];
    forall a | 0 <= a < |s1.names| ensures s1.names[a] != name {
      if a < |s.names| {
        assert s1.names[a] == s.names[a];
      } else {
        assert IsPart(s1.names[a], name, 0, |p.deps|) || BuiltNow(s, s1, rank, bound, s1.names[a]);
      }
    }
    forall a | |s.names| <= a < |s1.names| && BuiltNow(s, s1, rank, bound, s1.names[a])
      ensures BuiltNow(s, s', rank, bound, s'.names[a])
    {
      var u :| Pending(s, u) && !Pending(s1, u) && rank(u) < bound && s1.names[a].root == Once(RegOf(s, u));
      assert !Pending(s', u);
    }
  }

  lemma {:induction false} ResolvedAllEffect(s: State, rank: Rank, bound: nat, deps: seq<TypeId>, parent: Name, k: nat)
    requires Ranked(rank, s.services) && Below(rank, deps, bound) && Sound(s)
    requires Untouched(s, rank, bound, parent.root) && NoPart(s.names, parent, k, k + |deps|)
    ensures var s' := ResolvedAll(s, rank, bound, deps, parent, k).0;
            Grows(s, s', rank, bound) && NewNames(s, s', rank, bound, parent, k, k + |deps|) && Sound(s')
    decreases bound, 0, |deps|
  {
    if deps != [] {
      var t := deps[0];
      assert rank(t) < bound;
      assert Untouched(s, rank, rank(t) + 1, parent.root);
      assert NoPart(s.names, parent, k, k + 1) by {
        forall a | 0 <= a < |s.names| ensures !IsPart(s.names[a], parent, k, k + 1) {
          assert !IsPart(s.names[a], parent, k, k + |deps|);
        }
      }
      ResolvedEffect(s, rank, t, parent, k);
      var s1 := Resolved(s, rank, t, parent, k).0;
      Widen(s, s1, rank, rank(t) + 1, bound, parent, k, k + 1);
      StillUntouched(s, s1, rank, bound, parent, k, k + 1, bound, parent.root);
      StillNoPart(s, s1, rank, bound, parent, k, k + 1, k + |deps|);
      ResolvedAllEffect(s1, rank, bound, deps[1..], parent, k + 1);
      var s2 := ResolvedAll(s1, rank, bound, deps[1..], parent, k + 1).0;
      GrowsTrans(s, s1, s2, rank, bound, bound);
      NewNamesTrans(s, s1, s2, rank, bound, bound, parent, k, k + 1, k + |deps|);
    }
  }

  lemma Widen(s: State, s': State, rank: Rank, bound: nat, bound': nat, parent: Name, lo: nat, hi: nat)
    requires bound <= bound' && Grows(s, s', rank, bound) && NewNames(s, s', rank, bound, parent, lo, hi)
    ensures Grows(s, s', rank, bound') && NewNames(s, s', rank, bound', parent, lo, hi)
  {
    forall a | |s.names| <= a < |s'.names|
      ensures IsPart(s'.names[a], parent, lo, hi) || BuiltNow(s, s', rank, bound', s'.names[a])
    {
      if BuiltNow(s, s', rank, bound, s'.names[a]) {
        var t :| Pending(s, t) && !Pending(s', t) && rank(t) < bound && s'.names[a].root == Once(RegOf(s, t));
      }
    }
  }
}
