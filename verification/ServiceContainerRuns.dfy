/** Runs of the container: what holds after any sequence of registrations and calls. */
module ServiceContainerRuns {
  import opened Options
  import opened ServiceContainer
  import opened ServiceContainerNames

  ghost predicate RootMade(ops: seq<Op>, n: nat, root: Root) {
    match root
    case Once(i) => i < n <= |ops| && ops[i].Single?
    case Asked(i) => i < n <= |ops| && ops[i].Ask?
  }

  /** The name tells which registration made the object. */
  ghost predicate NameFits(ops: seq<Op>, n: nat, name: Name, p: Provider) {
    && p.reg < n <= |ops|
    && RootMade(ops, n, name.root)
    && (if name.path == [] then name.root == Once(p.reg)
        else name.path[|name.path| - 1].reg == p.reg && ops[p.reg].Trans?)
  }

  ghost predicate FactoryFits(ops: seq<Op>, n: nat, t: TypeId, f: Factory) {
    match f
    case Transient(p) => p.reg < n <= |ops| && ops[p.reg] == Trans(t, p.concrete, p.deps)
    case Singleton(_, None) => true
    case Singleton(_, Some(p)) => p.reg < n <= |ops| && ops[p.reg] == Single(t, p.concrete, p.deps)
  }

  ghost predicate NamesFit(ops: seq<Op>, n: nat, s: State) {
    |s.names| == |s.heap| && forall a | 0 <= a < |s.heap| :: NameFits(ops, n, s.names[a], s.heap[a].maker)
  }

  ghost predicate ServicesFit(ops: seq<Op>, n: nat, s: State) {
    forall t | t in s.services :: FactoryFits(ops, n, t, s.services[t])
  }

  // ----- the names of a resolution fit

  lemma {:induction false} ResolvedFits(ops: seq<Op>, n: nat, s: State, rank: Rank, t: TypeId, parent: Name, k: nat)
    requires Ranked(rank, s.services) && NamesFit(ops, n, s) && ServicesFit(ops, n, s) && RootMade(ops, n, parent.root)
    ensures var s' := Resolved(s, rank, t, parent, k).0;
            NamesFit(ops, n, s') && ServicesFit(ops, n, s')
    decreases rank(t), 1, 0
  {
    if t in s.services {
      var f := s.services[t];
      assert FactoryRanked(rank, t, f) && FactoryFits(ops, n, t, f);
      if f.Transient? {
        var name := Name(parent.root, parent.path + [Step(k, f.provider.reg)]);
        ConstructedFits(ops, n, s, rank, rank(t), f.provider, name);
      } else if f.instance == Null && f.maker.Some? {
        ConstructedFits(ops, n, s, rank, rank(t), f.maker.value, Name(Once(f.maker.value.reg), []));
      }
    }
  }

  lemma {:induction false} ConstructedFits(ops: seq<Op>, n: nat, s: State, rank: Rank, bound: nat, p: Provider,
                                           name: Name)
    requires Ranked(rank, s.services) && NamesFit(ops, n, s) && ServicesFit(ops, n, s)
    requires Below(rank, p.deps, bound) && NameFits(ops, n, name, p)
    ensures var s' := Constructed(s, rank, bound, p, name).0;
            NamesFit(ops, n, s') && ServicesFit(ops, n, s')
    decreases bound, 0, |p.deps| + 1
  {
    ResolvedAllFits(ops, n, s, rank, bound, p.deps, name, 0);
  }

  lemma {:induction false} ResolvedAllFits(ops: seq<Op>, n: nat, s: State, rank: Rank, bound: nat, deps: seq<TypeId>,
                                           parent: Name, k: nat)
    requires Ranked(rank, s.services) && NamesFit(ops, n, s) && ServicesFit(ops, n, s)
    requires Below(rank, deps, bound) && RootMade(ops, n, parent.root)
    ensures var s' := ResolvedAll(s, rank, bound, deps, parent, k).0;
            NamesFit(ops, n, s') && ServicesFit(ops, n, s')
    decreases bound, 0, |deps|
  {
    if deps != [] {
      ResolvedFits(ops, n, s, rank, deps[0], parent, k);
      ResolvedAllFits(ops, n, Resolved(s, rank, deps[0], parent, k).0, rank, bound, deps[1..], parent, k + 1);
    }
  }

  // ----- the invariant of a run

  /** Singletons still to be built have left no trace, and no two share a registration. */
  ghost predicate PendingClean(s: State) {
    && (forall t | Pending(s, t) :: Clean(s.names, RegOf(s, t)))
    && (forall t, u | Pending(s, t) && Pending(s, u) && RegOf(s, t) == RegOf(s, u) :: t == u)
  }

  ghost predicate Inv(ops: seq<Op>, n: nat, s: State) {
    Sound(s) && NamesFit(ops, n, s) && ServicesFit(ops, n, s) && PendingClean(s)
  }

  lemma FitsMonotone(ops: seq<Op>, n: nat, s: State)
    requires NamesFit(ops, n, s) && ServicesFit(ops, n, s) && n < |ops|
    ensures NamesFit(ops, n + 1, s) && ServicesFit(ops, n + 1, s)
  {
    forall a | 0 <= a < |s.heap| ensures NameFits(ops, n + 1, s.names[a], s.heap[a].maker) {
      assert NameFits(ops, n, s.names[a], s.heap[a].maker);
    }
    forall t | t in s.services ensures FactoryFits(ops, n + 1, t, s.services[t]) {
      assert FactoryFits(ops, n, t, s.services[t]);
    }
  }

  /** No object has been made in the name of an operation still to come. */
  lemma FutureUnnamed(ops: seq<Op>, n: nat, s: State, root: Root)
    requires NamesFit(ops, n, s) && (root == Once(n) || root == Asked(n))
    ensures forall a | 0 <= a < |s.names| :: s.names[a].root != root
  {
    forall a | 0 <= a < |s.names| ensures s.names[a].root != root {
      assert NameFits(ops, n, s.names[a], s.heap[a].maker);
    }
  }

  lemma PendingUntouched(s: State, rank: Rank, bound: nat, root: Root)
    requires PendingClean(s) && forall t | Pending(s, t) :: root != Once(RegOf(s, t))
    ensures Untouched(s, rank, bound, root)
  {
  }

  /** What a client's call adds: objects of its own, and singletons that were pending. */
  lemma AskEffect(ops: seq<Op>, n: nat, s: State, rank: Rank, t: TypeId)
    requires Ranked(rank, s.services) && Inv(ops, n, s)
    ensures var s' := Resolved(s, rank, t, Name(Asked(n), []), 0).0;
            && Grows(s, s', rank, rank(t) + 1) && NewNames(s, s', rank, rank(t) + 1, Name(Asked(n), []), 0, 1)
            && Sound(s')
  {
    hide Resolved, NameFits, FactoryFits, Ranked, IsPart, Clean;
    var parent := Name(Asked(n), []);
    FutureUnnamed(ops, n, s, Asked(n));
    PendingUntouched(s, rank, rank(t) + 1, Asked(n));
    NoPartOfNew(s.names, parent);
    ResolvedEffect(s, rank, t, parent, 0);
  }

  lemma AskKeeps(ops: seq<Op>, n: nat, s: State, rank: Rank, t: TypeId)
    requires Ranked(rank, s.services) && Inv(ops, n, s) && n < |ops| && ops[n] == Ask(t)
    ensures Inv(ops, n + 1, Resolved(s, rank, t, Name(Asked(n), []), 0).0)
  {
    hide Resolved, NameFits, FactoryFits, Ranked, IsPart, Clean, Sound;
    var parent := Name(Asked(n), []);
    FitsMonotone(ops, n, s);
    ResolvedFits(ops, n + 1, s, rank, t, parent, 0);
    AskEffect(ops, n, s, rank, t);
    StillPendingClean(s, Resolved(s, rank, t, parent, 0).0, rank, rank(t) + 1, parent, 1);
  }

  lemma NoPartOfNew(names: seq<Name>, parent: Name)
    requires forall a | 0 <= a < |names| :: names[a].root != parent.root
    ensures forall lo, hi :: NoPart(names, parent, lo, hi)
    ensures parent !in names
  {
  }

  lemma StillPendingClean(s: State, s': State, rank: Rank, bound: nat, parent: Name, hi: nat)
    requires PendingClean(s) && Grows(s, s', rank, bound) && NewNames(s, s', rank, bound, parent, 0, hi)
    requires forall t | Pending(s, t) :: parent.root != Once(RegOf(s, t))
    ensures PendingClean(s')
  {
    hide BuiltNow, NewNames, IsPart, Clean, Grows;
    forall t | Pending(s', t) ensures Clean(s'.names, RegOf(s', t)) {
      PendingUntouched(s, rank, rank(t) + 1, parent.root);
      StillUntouched(s, s', rank, bound, parent, 0, hi, rank(t) + 1, parent.root);
      UntouchedClean(s', rank, t, parent.root);
    }
    PendingUntouched(s, rank, 0, parent.root);
    StillUntouched(s, s', rank, bound, parent, 0, hi, 0, parent.root);
  }

  lemma UntouchedClean(s: State, rank: Rank, t: TypeId, root: Root)
    requires Untouched(s, rank, rank(t) + 1, root) && Pending(s, t)
    ensures Clean(s.names, RegOf(s, t))
  {
  }

  /** What an eager registration adds: its object, and what that needs. */
  lemma EagerSingleEffect(ops: seq<Op>, n: nat, s: State, rank: Rank, p: Provider)
    requires Ranked(rank, s.services) && Inv(ops, n, s) && n < |ops|
    ensures var bound := Ceiling(rank, p.deps);
            var s' := Constructed(s, rank, bound, p, Name(Once(n), [])).0;
            && Grows(s, s', rank, bound) && Sound(s')
            && forall a | |s.names| <= a < |s'.names| ::
                 || s'.names[a] == Name(Once(n), [])
                 || IsPart(s'.names[a], Name(Once(n), []), 0, |p.deps|)
                 || BuiltNow(s, s', rank, bound, s'.names[a])
  {
    hide Constructed, NameFits, Ranked, IsPart, Ceiling;
    FutureUnnamed(ops, n, s, Once(n));
    PendingIsOlder(ops, n, s);
    PendingUntouched(s, rank, Ceiling(rank, p.deps), Once(n));
    NoPartOfNew(s.names, Name(Once(n), []));
    ConstructedEffect(s, rank, Ceiling(rank, p.deps), p, Name(Once(n), []));
  }

  lemma EagerSingleKeeps(ops: seq<Op>, n: nat, s: State, rank: Rank, t: TypeId, concrete: nat, deps: seq<TypeId>)
    requires Ranked(rank, s.services) && Inv(ops, n, s) && n < |ops| && ops[n] == Single(t, concrete, deps)
    ensures Inv(ops, n + 1, Performed(false, s, rank, ops[n], n).0)
  {
    hide Constructed, NameFits, Ranked, IsPart, Ceiling, Sound, Clean;
    var p := Provider(n, concrete, deps);
    var name := Name(Once(n), []);
    var bound := Ceiling(rank, deps);
    FitsMonotone(ops, n, s);
    RootNameFits(ops, n, p);
    PendingIsOlder(ops, n, s);
    ConstructedFits(ops, n + 1, s, rank, bound, p, name);
    EagerSingleEffect(ops, n, s, rank, p);
    var (s1, r) := Constructed(s, rank, bound, p, name);
    ConstructedRoots(s, s1, rank, bound, name, |deps|);
    var s' := Performed(false, s, rank, ops[n], n).0;
    SingleStored(ops, n + 1, s1, t, r);
    assert s' == s1.(services := s1.services[t := Singleton(r, None)]);
  }

  /** Storing an instance changes no name and leaves nothing pending that was not. */
  lemma SingleStored(ops: seq<Op>, n: nat, s: State, t: TypeId, r: Ref)
    requires Inv(ops, n, s)
    ensures Inv(ops, n, s.(services := s.services[t := Singleton(r, None)]))
  {
    hide NameFits, IsPart, Clean;
    var s' := s.(services := s.services[t := Singleton(r, None)]);
    forall u | Pending(s', u) ensures Pending(s, u) && RegOf(s', u) == RegOf(s, u) {}
    forall u | u in s'.services ensures FactoryFits(ops, n, u, s'.services[u]) {
      if u != t {
        assert FactoryFits(ops, n, u, s.services[u]);
      }
    }
  }

  lemma RootNameFits(ops: seq<Op>, n: nat, p: Provider)
    requires n < |ops| && ops[n].Single? && p.reg == n
    ensures NameFits(ops, n + 1, Name(Once(n), []), p)
  {
  }

  lemma PendingIsOlder(ops: seq<Op>, n: nat, s: State)
    requires ServicesFit(ops, n, s)
    ensures forall t | Pending(s, t) :: RegOf(s, t) < n
  {
    forall t | Pending(s, t) ensures RegOf(s, t) < n {
      assert FactoryFits(ops, n, t, s.services[t]);
    }
  }

  lemma ConstructedRoots(s: State, s1: State, rank: Rank, bound: nat, name: Name, hi: nat)
    requires PendingClean(s) && Grows(s, s1, rank, bound) && forall t | Pending(s, t) :: name.root != Once(RegOf(s, t))
    requires forall a | |s.names| <= a < |s1.names| ::
               s1.names[a] == name || IsPart(s1.names[a], name, 0, hi) || BuiltNow(s, s1, rank, bound, s1.names[a])
    ensures PendingClean(s1)
  {
    forall t | Pending(s1, t) ensures Pending(s, t) && RegOf(s, t) == RegOf(s1, t) {
      assert s1.services[t] == s.services[t];
    }
    forall t, a | Pending(s1, t) && 0 <= a < |s1.names| ensures s1.names[a].root != Once(RegOf(s1, t)) {
      if a < |s.names| {
        assert s1.names[a] == s.names[a];
      } else if BuiltNow(s, s1, rank, bound, s1.names[a]) {
        var u :| Pending(s, u) && !Pending(s1, u) && rank(u) < bound && s1.names[a].root == Once(RegOf(s, u));
      }
    }
  }

  /** Registering without building. */
  lemma RegisterKeeps(lazy: bool, ops: seq<Op>, n: nat, s: State, rank: Rank)
    requires Ranked(rank, s.services) && Inv(ops, n, s) && n < |ops| && OpRanked(lazy, rank, ops[n])
    requires ops[n].Give? || ops[n].Trans? || (lazy && ops[n].Single?)
    ensures Inv(ops, n + 1, Performed(lazy, s, rank, ops[n], n).0)
  {
    hide NameFits, Ranked, Resolved, Constructed;
    var s' := Performed(lazy, s, rank, ops[n], n).0;
    FitsMonotone(ops, n, s);
    FutureUnnamed(ops, n, s, Once(n));
    PendingIsOlder(ops, n, s);
    assert s'.names == s.names && s'.heap == s.heap;
    var t := ops[n].t;
    assert FactoryFits(ops, n + 1, t, s'.services[t]);
    forall u | Pending(s', u) && u != t ensures Pending(s, u) && RegOf(s', u) == RegOf(s, u) {}
  }

  lemma {:induction false} RunInv(lazy: bool, rank: Rank, ops: seq<Op>, n: nat)
    requires OpsRanked(lazy, rank, ops) && n <= |ops|
    ensures Inv(ops, n, Run(lazy, rank, ops, n).0)
  {
    if n > 0 {
      hide Inv, Performed, Resolved, Ranked;
      RunInv(lazy, rank, ops, n - 1);
      StepInv(lazy, rank, ops, n - 1, Run(lazy, rank, ops, n - 1).0);
    }
  }

  lemma StepInv(lazy: bool, rank: Rank, ops: seq<Op>, n: nat, s: State)
    requires Ranked(rank, s.services) && OpsRanked(lazy, rank, ops) && n < |ops| && Inv(ops, n, s)
    requires OpRanked(lazy, rank, ops[n])
    ensures Inv(ops, n + 1, Performed(lazy, s, rank, ops[n], n).0)
  {
    hide Inv, Resolved, Ranked, Constructed;
    var op := ops[n];
    if op.Ask? {
      AskKeeps(ops, n, s, rank, op.t);
    } else if op.Single? && !lazy {
      EagerSingleKeeps(ops, n, s, rank, op.t, op.concrete, op.deps);
    } else {
      RegisterKeeps(lazy, ops, n, s, rank);
    }
  }

  /** Over any run, replaced registrations included, a singleton registration constructs at
      most one object. */
  lemma BuiltOnce(lazy: bool, rank: Rank, ops: seq<Op>, a: nat, b: nat)
    requires OpsRanked(lazy, rank, ops)
    requires var heap := Run(lazy, rank, ops, |ops|).0.heap;
             && a < |heap| && b < |heap| && heap[a].maker.reg == heap[b].maker.reg
             && heap[a].maker.reg < |ops| && ops[heap[a].maker.reg].Single?
    ensures a == b
  {
    hide Run, OpsRanked;
    RunInv(lazy, rank, ops, |ops|);
    var s := Run(lazy, rank, ops, |ops|).0;
    assert NameFits(ops, |ops|, s.names[a], s.heap[a].maker);
    assert NameFits(ops, |ops|, s.names[b], s.heap[b].maker);
    assert s.names[a] == s.names[b];
  }
}
