/** Which call of a run makes a lazy container build a singleton, read off the operations
    alone, and that the container's runs agree with it. */
module ServiceContainerBirths {
  import opened Options
  import opened ServiceContainer
  import opened ServiceContainerNames
  import opened ServiceContainerRuns
  import opened ServiceContainerGraphs

  /** The operation during which each singleton registration is carried out. */
  type Births = map<nat, nat>

  /** The births after service t has been resolved in operation n. */
  ghost function Born(rank: Rank, ops: seq<Op>, n: nat, births: Births, t: TypeId): (r: Births)
    requires OpsRanked(true, rank, ops) && n <= |ops|
    ensures NewlyBorn(rank, ops, n, births, r, rank(t) + 1)
    decreases rank(t), 1, 0
  {
    var o := OutcomeAt(ops, n, t);
    if o.Fixed? || (ops[o.reg].Single? && o.reg in births) then births
    else
      assert OpRanked(true, rank, ops[o.reg]);
      var now := if ops[o.reg].Single? then births[o.reg := n] else births;
      BornAll(rank, ops, n, now, rank(t), ops[o.reg].deps)
  }

  ghost function BornAll(rank: Rank, ops: seq<Op>, n: nat, births: Births, bound: nat, deps: seq<TypeId>): (r: Births)
    requires OpsRanked(true, rank, ops) && n <= |ops| && Below(rank, deps, bound)
    ensures NewlyBorn(rank, ops, n, births, r, bound)
    decreases bound, 0, |deps|
  {
    if deps == [] then births
    else BornAll(rank, ops, n, Born(rank, ops, n, births, deps[0]), bound, deps[1..])
  }

  /** Nothing is born twice, and what is new belongs to a service below the bound. */
  ghost predicate NewlyBorn(rank: Rank, ops: seq<Op>, n: nat, births: Births, births': Births, bound: nat) {
    && (forall h | h in births :: h in births' && births'[h] == births[h])
    && (forall h | h in births' && h !in births ::
          births'[h] == n && h < n && h < |ops| && ops[h].Single? && rank(ops[h].t) < bound)
  }

  /** The singletons that n operations make a lazy container build. */
  ghost function LazyBirths(rank: Rank, ops: seq<Op>, n: nat): (r: Births)
    requires OpsRanked(true, rank, ops) && n <= |ops|
    ensures forall h | h in r :: h < r[h] < n && ops[h].Single? && ops[r[h]].Ask?
  {
    if n == 0 then map[]
    else
      var before := LazyBirths(rank, ops, n - 1);
      if ops[n - 1].Ask? then Born(rank, ops, n - 1, before, ops[n - 1].t) else before
  }

  /** An eager container carries a singleton registration out at once. */
  ghost function EagerBirths(ops: seq<Op>): Births {
    map h: nat | h < |ops| && ops[h].Single? :: h
  }

  ghost function BirthsOf(lazy: bool, rank: Rank, ops: seq<Op>): (r: Births)
    requires OpsRanked(true, rank, ops)
    ensures forall h | h in r :: r[h] < |ops|
  {
    if lazy then LazyBirths(rank, ops, |ops|) else EagerBirths(ops)
  }

  // ----- the recursion of a lazy Resolve

  /** A singleton in force has been born if and only if it is not pending. */
  ghost predicate BirthKnown(ops: seq<Op>, n: nat, s: State, births: Births, t: TypeId)
    requires n <= |ops|
  {
    var o := OutcomeAt(ops, n, t);
    o.From? && ops[o.reg].Single? ==> (o.reg in births <==> !Pending(s, t))
  }

  ghost predicate BirthsKnown(rank: Rank, ops: seq<Op>, n: nat, s: State, births: Births, bound: nat)
    requires n <= |ops|
  {
    forall t | rank(t) < bound :: BirthKnown(ops, n, s, births, t)
  }

  /** The new objects have the given root or that of a singleton just born, and only
      services below the bound have been touched. */
  ghost predicate NamesBorn(rank: Rank, s: State, s': State, births: Births, births': Births, bound: nat, root: Root) {
    && |s.names| <= |s'.names|
    && (forall a | |s.names| <= a < |s'.names| ::
          || s'.names[a].root == root
          || (s'.names[a].root.Once? && s'.names[a].root.reg in births' && s'.names[a].root.reg !in births))
    && (forall t | rank(t) >= bound :: Pending(s', t) <==> Pending(s, t))
  }

  lemma StillKnown(rank: Rank, ops: seq<Op>, n: nat, s: State, s': State, births: Births, births': Births,
                   bound: nat, bound': nat)
    requires n <= |ops| && BirthsKnown(rank, ops, n, s, births, bound') && BirthsKnown(rank, ops, n, s', births', bound)
    requires NewlyBorn(rank, ops, n, births, births', bound)
    requires forall t | rank(t) >= bound :: Pending(s', t) <==> Pending(s, t)
    ensures BirthsKnown(rank, ops, n, s', births', bound')
  {
    forall t | rank(t) < bound' ensures BirthKnown(ops, n, s', births', t) {
      assert rank(t) < bound || BirthKnown(ops, n, s, births, t);
    }
  }

  lemma {:induction false} ResolvedBorn(rank: Rank, ops: seq<Op>, n: nat, s: State, times: seq<nat>, births: Births,
                                        bound: nat, t: TypeId, parent: Name, k: nat)
    requires OpsRanked(true, rank, ops) && Ranked(rank, s.services) && Matches(ops, n, s, times)
    requires rank(t) < bound && BirthsKnown(rank, ops, n, s, births, bound)
    ensures var s' := Resolved(s, rank, t, parent, k).0;
            var births' := Born(rank, ops, n, births, t);
            && BirthsKnown(rank, ops, n, s', births', bound)
            && NamesBorn(rank, s, s', births, births', rank(t) + 1, parent.root)
    decreases rank(t), 1, 0
  {
    hide Described, AllDescribed;
    assert ServiceMatches(ops, n, s, t) && BirthKnown(ops, n, s, births, t);
    if t in s.services {
      var f := s.services[t];
      var h := LastReg(ops, n, t);
      assert FactoryRanked(rank, t, f) && FactoryIs(ops, s.names, h, f);
      if f.Transient? {
        var name := Name(parent.root, parent.path + [Step(k, h)]);
        TransientBorn(rank, ops, n, s, times, births, bound, t, f.provider, name);
      } else if f.instance == Null && f.maker.Some? {
        SingletonBorn(rank, ops, n, s, times, births, bound, t, parent, k);
      }
    }
  }

  lemma {:induction false} TransientBorn(rank: Rank, ops: seq<Op>, n: nat, s: State, times: seq<nat>, births: Births,
                                         bound: nat, t: TypeId, p: Provider, name: Name)
    requires OpsRanked(true, rank, ops) && Ranked(rank, s.services) && Matches(ops, n, s, times)
    requires rank(t) < bound && BirthsKnown(rank, ops, n, s, births, bound)
    requires MadeBy(ops, p) && Below(rank, p.deps, rank(t))
    ensures var s' := Constructed(s, rank, rank(t), p, name).0;
            var births' := BornAll(rank, ops, n, births, rank(t), p.deps);
            && BirthsKnown(rank, ops, n, s', births', bound)
            && NamesBorn(rank, s, s', births, births', rank(t) + 1, name.root)
    decreases rank(t), 0, |p.deps| + 2
  {
    hide Matches, BirthKnown, ResolvedAll, BornAll;
    MatchingLengths(ops, n, s, times);
    var s' := Constructed(s, rank, rank(t), p, name).0;
    var births' := BornAll(rank, ops, n, births, rank(t), p.deps);
    ResolvedAllBorn(rank, ops, n, s, times, births, rank(t), p.deps, name, 0);
    SameServices(ops, n, rank, ResolvedAll(s, rank, rank(t), p.deps, name, 0).0, s', births', rank(t));
    StillKnown(rank, ops, n, s, s', births, births', rank(t), bound);
  }

  lemma SameServices(ops: seq<Op>, n: nat, rank: Rank, s: State, s': State, births: Births, bound: nat)
    requires n <= |ops| && s'.services == s.services && BirthsKnown(rank, ops, n, s, births, bound)
    ensures BirthsKnown(rank, ops, n, s', births, bound)
  {
    forall t | rank(t) < bound ensures BirthKnown(ops, n, s', births, t) {
      assert BirthKnown(ops, n, s, births, t);
    }
  }

  lemma {:induction false} SingletonBorn(rank: Rank, ops: seq<Op>, n: nat, s: State, times: seq<nat>, births: Births,
                                         bound: nat, t: TypeId, parent: Name, k: nat)
    requires OpsRanked(true, rank, ops) && Ranked(rank, s.services) && Matches(ops, n, s, times) && Pending(s, t)
    requires rank(t) < bound && BirthsKnown(rank, ops, n, s, births, bound)
    ensures var s' := Resolved(s, rank, t, parent, k).0;
            var births' := Born(rank, ops, n, births, t);
            && BirthsKnown(rank, ops, n, s', births', bound)
            && NamesBorn(rank, s, s', births, births', rank(t) + 1, parent.root)
    decreases rank(t), 0, |s.services[t].maker.value.deps| + 2
  {
    hide Matches, BirthKnown, BirthsKnown, ResolvedAll, BornAll, Born, Resolved, ServicesMatch, NewlyBorn, Ranked;
    MatchingLengths(ops, n, s, times);
    SingleInForce(ops, n, s, t);
    PendingRanked(s, rank, t);
    var h := LastReg(ops, n, t);
    var deps := ops[h].deps;
    var name := Name(Once(h), []);
    var now := births[h := n];
    NotYetBorn(rank, ops, n, s, births, bound, t);
    ResolvedAllBorn(rank, ops, n, s, times, now, rank(t), deps, name, 0);
    PendingResolved(s, rank, t, parent, k);
    PendingBorn(rank, ops, n, births, t);
    var s1 := ResolvedAll(s, rank, rank(t), deps, name, 0).0;
    var s' := Resolved(s, rank, t, parent, k).0;
    NowBorn(rank, ops, n, s, s1, s', births, BornAll(rank, ops, n, now, rank(t), deps), bound, t);
    NewlyBornTwice(rank, ops, n, births, h, BornAll(rank, ops, n, now, rank(t), deps), rank(t));
  }

  lemma PendingRanked(s: State, rank: Rank, t: TypeId)
    requires Ranked(rank, s.services) && Pending(s, t)
    ensures Below(rank, s.services[t].maker.value.deps, rank(t))
  {
    assert FactoryRanked(rank, t, s.services[t]);
  }

  lemma PendingResolved(s: State, rank: Rank, t: TypeId, parent: Name, k: nat)
    requires Ranked(rank, s.services) && Pending(s, t)
    requires Below(rank, s.services[t].maker.value.deps, rank(t))
    ensures var p := s.services[t].maker.value;
            var s1 := ResolvedAll(s, rank, rank(t), p.deps, Name(Once(p.reg), []), 0).0;
            var s' := Resolved(s, rank, t, parent, k).0;
            && s'.names == s1.names + [Name(Once(p.reg), [])]
            && !Pending(s', t) && forall u | u != t :: Pending(s', u) <==> Pending(s1, u)
  {
    hide ResolvedAll;
  }

  lemma PendingBorn(rank: Rank, ops: seq<Op>, n: nat, births: Births, t: TypeId)
    requires OpsRanked(true, rank, ops) && n <= |ops| && OutcomeAt(ops, n, t).From?
    requires var h := OutcomeAt(ops, n, t).reg; ops[h].Single? && h !in births && Below(rank, ops[h].deps, rank(t))
    ensures var h := OutcomeAt(ops, n, t).reg;
            Born(rank, ops, n, births, t) == BornAll(rank, ops, n, births[h := n], rank(t), ops[h].deps)
  {
    hide BornAll;
  }

  lemma NewlyBornTwice(rank: Rank, ops: seq<Op>, n: nat, births: Births, h: nat, births': Births, bound: nat)
    requires NewlyBorn(rank, ops, n, births[h := n], births', bound)
    ensures h in births' && forall j | j in births && j != h :: j in births'
    ensures forall j | j in births' && j !in births[h := n] :: j !in births
  {
  }

  lemma NotYetBorn(rank: Rank, ops: seq<Op>, n: nat, s: State, births: Births, bound: nat, t: TypeId)
    requires n <= |ops| && Pending(s, t) && rank(t) < bound && BirthsKnown(rank, ops, n, s, births, bound)
    requires OutcomeAt(ops, n, t).From? && ops[OutcomeAt(ops, n, t).reg].Single?
    ensures var h := OutcomeAt(ops, n, t).reg;
            h !in births && BirthsKnown(rank, ops, n, s, births[h := n], rank(t))
  {
    assert BirthKnown(ops, n, s, births, t);
    var h := OutcomeAt(ops, n, t).reg;
    forall u | rank(u) < rank(t) ensures BirthKnown(ops, n, s, births[h := n], u) {
      assert BirthKnown(ops, n, s, births, u);
    }
  }

  lemma NowBorn(rank: Rank, ops: seq<Op>, n: nat, s: State, s1: State, s': State, births: Births, births': Births,
                bound: nat, t: TypeId)
    requires n <= |ops| && OutcomeAt(ops, n, t).From? && BirthsKnown(rank, ops, n, s, births, bound)
    requires var h := OutcomeAt(ops, n, t).reg;
             ops[h].Single? && h !in births && NewlyBorn(rank, ops, n, births[h := n], births', rank(t))
    requires BirthsKnown(rank, ops, n, s1, births', rank(t)) && !Pending(s', t)
    requires forall u | u != t :: Pending(s', u) <==> Pending(s1, u)
    requires forall u | rank(u) >= rank(t) :: Pending(s1, u) <==> Pending(s, u)
    ensures BirthsKnown(rank, ops, n, s', births', bound)
  {
    forall u | rank(u) < bound ensures BirthKnown(ops, n, s', births', u) {
      if rank(u) < rank(t) {
        assert BirthKnown(ops, n, s1, births', u);
      } else if u != t {
        assert BirthKnown(ops, n, s, births, u);
      }
    }
  }

  lemma {:induction false} ResolvedAllBorn(rank: Rank, ops: seq<Op>, n: nat, s: State, times: seq<nat>, births: Births,
                                           bound: nat, deps: seq<TypeId>, parent: Name, k: nat)
    requires OpsRanked(true, rank, ops) && Ranked(rank, s.services) && Matches(ops, n, s, times)
    requires Below(rank, deps, bound) && BirthsKnown(rank, ops, n, s, births, bound)
    ensures var s' := ResolvedAll(s, rank, bound, deps, parent, k).0;
            var births' := BornAll(rank, ops, n, births, bound, deps);
            && BirthsKnown(rank, ops, n, s', births', bound)
            && NamesBorn(rank, s, s', births, births', bound, parent.root)
    decreases bound, 0, |deps|
  {
    hide Matches, BirthsKnown, Resolved, Born, ServicesMatch, NamesBorn, NewlyBorn, Pending, Ranked, OpsRanked;
    MatchingLengths(ops, n, s, times);
    if deps != [] {
      var s1 := Resolved(s, rank, deps[0], parent, k).0;
      var births1 := Born(rank, ops, n, births, deps[0]);
      ResolvedBorn(rank, ops, n, s, times, births, bound, deps[0], parent, k);
      ResolvedMatches(ops, n, s, times, rank, deps[0], parent, k);
      var times1 := Timed(times, |s1.names|, n);
      ResolvedAllBorn(rank, ops, n, s1, times1, births1, bound, deps[1..], parent, k + 1);
      var s2 := ResolvedAll(s1, rank, bound, deps[1..], parent, k + 1).0;
      var births2 := BornAll(rank, ops, n, births1, bound, deps[1..]);
      ResolvedAllMatches(ops, n, s1, times1, rank, bound, deps[1..], parent, k + 1);
      NamesBornTwice(rank, ops, n, s, s1, s2, births, births1, births2, rank(deps[0]) + 1, bound, parent.root);
    } else {
      NoNamesBorn(rank, s, births, bound, parent.root);
    }
  }

  lemma NoNamesBorn(rank: Rank, s: State, births: Births, bound: nat, root: Root)
    ensures NamesBorn(rank, s, s, births, births, bound, root)
  {
  }

  lemma NamesBornTwice(rank: Rank, ops: seq<Op>, n: nat, s: State, s1: State, s2: State, births: Births,
                       births1: Births, births2: Births, bound1: nat, bound: nat, root: Root)
    requires NamesBorn(rank, s, s1, births, births1, bound1, root) && bound1 <= bound
    requires NamesBorn(rank, s1, s2, births1, births2, bound, root) && s1.names <= s2.names
    requires NewlyBorn(rank, ops, n, births, births1, bound1) && NewlyBorn(rank, ops, n, births1, births2, bound)
    ensures NamesBorn(rank, s, s2, births, births2, bound, root)
  {
  }

  lemma MatchingLengths(ops: seq<Op>, n: nat, s: State, times: seq<nat>)
    requires Matches(ops, n, s, times)
    ensures n <= |ops| && |times| == |s.names| == |s.heap| && ServicesMatch(ops, n, s)
  {
  }

  // ----- runs

  /** Every object was built when its root was born: a client's call at once, a singleton
      registration when its births say. */
  ghost predicate Dated(births: Births, names: seq<Name>, times: seq<nat>) {
    && |times| == |names|
    && forall a | 0 <= a < |names| ::
         match names[a].root
         case Asked(i) => times[a] == i
         case Once(h) => h in births && times[a] == births[h]
  }

  ghost predicate LazyDated(ops: seq<Op>, n: nat, s: State, times: seq<nat>, births: Births) {
    && n <= |ops|
    && (forall t :: BirthKnown(ops, n, s, births, t))
    && (forall h | h in births :: h < n)
    && Dated(births, s.names, times)
  }

  lemma AskDated(rank: Rank, ops: seq<Op>, n: nat, s: State, times: seq<nat>, births: Births, t: TypeId)
    requires OpsRanked(true, rank, ops) && n < |ops| && ops[n] == Ask(t) && Ranked(rank, s.services)
    requires Matches(ops, n, s, times) && LazyDated(ops, n, s, times, births)
    ensures var s' := Resolved(s, rank, t, Name(Asked(n), []), 0).0;
            && |times| <= |s'.names|
            && LazyDated(ops, n + 1, s', Timed(times, |s'.names|, n), Born(rank, ops, n, births, t))
  {
    hide Matches, Resolved, Born, OpsRanked, Ranked, BirthKnown, OutcomeAt;
    var parent := Name(Asked(n), []);
    var s' := Resolved(s, rank, t, parent, 0).0;
    var births' := Born(rank, ops, n, births, t);
    var m := n + 1;
    MatchingLengths(ops, n, s, times);
    ResolvedMatches(ops, n, s, times, rank, t, parent, 0);
    forall u ensures BirthKnown(ops, m, s', births', u) {
      var bound := rank(t) + rank(u) + 1;
      ResolvedBorn(rank, ops, n, s, times, births, bound, t, parent, 0);
      assert BirthKnown(ops, n, s', births', u);
      LaterKnown(ops, n, s', births', u);
    }
    ResolvedBorn(rank, ops, n, s, times, births, rank(t) + 1, t, parent, 0);
  }

  lemma LaterKnown(ops: seq<Op>, n: nat, s: State, births: Births, t: TypeId)
    requires n < |ops| && !Registers(ops[n], t) && BirthKnown(ops, n, s, births, t)
    ensures BirthKnown(ops, n + 1, s, births, t)
  {
  }

  lemma RegisterDated(rank: Rank, ops: seq<Op>, n: nat, s: State, times: seq<nat>, births: Births)
    requires n < |ops| && !ops[n].Ask? && OpRanked(true, rank, ops[n]) && Ranked(rank, s.services)
    requires LazyDated(ops, n, s, times, births)
    ensures LazyDated(ops, n + 1, Performed(true, s, rank, ops[n], n).0, times, births)
  {
    hide Ranked;
    var s' := Performed(true, s, rank, ops[n], n).0;
    var m := n + 1;
    forall u ensures BirthKnown(ops, m, s', births, u) {
      assert BirthKnown(ops, n, s, births, u);
    }
  }

  lemma {:induction false} LazyRunDated(rank: Rank, ops: seq<Op>, n: nat)
    requires OpsRanked(true, rank, ops) && n <= |ops|
    ensures LazyDated(ops, n, Run(true, rank, ops, n).0, Times(true, rank, ops, n), LazyBirths(rank, ops, n))
  {
    hide Run, Times, LazyDated, LazyBirths, OpsRanked;
    if n > 0 {
      LazyRunDated(rank, ops, n - 1);
      LaterDated(rank, ops, n);
    } else {
      NothingDated(rank, ops);
    }
  }

  lemma NothingDated(rank: Rank, ops: seq<Op>)
    requires OpsRanked(true, rank, ops)
    ensures LazyDated(ops, 0, Run(true, rank, ops, 0).0, Times(true, rank, ops, 0), LazyBirths(rank, ops, 0))
  {
  }

  lemma LaterDated(rank: Rank, ops: seq<Op>, n: nat)
    requires OpsRanked(true, rank, ops) && 0 < n <= |ops|
    requires LazyDated(ops, n - 1, Run(true, rank, ops, n - 1).0, Times(true, rank, ops, n - 1),
                       LazyBirths(rank, ops, n - 1))
    ensures LazyDated(ops, n, Run(true, rank, ops, n).0, Times(true, rank, ops, n), LazyBirths(rank, ops, n))
  {
    hide *;
    var s, times := Run(true, rank, ops, n - 1).0, Times(true, rank, ops, n - 1);
    RunMatches(rank, ops, n - 1);
    OneRanked(true, rank, ops, n - 1);
    RunStep(true, rank, ops, n);
    StepDated(rank, ops, n - 1, s, times, LazyBirths(rank, ops, n - 1));
    TimesStep(true, rank, ops, n);
    BirthsStep(rank, ops, n);
  }

  lemma RunMatches(rank: Rank, ops: seq<Op>, n: nat)
    requires OpsRanked(true, rank, ops) && n <= |ops|
    ensures Matches(ops, n, Run(true, rank, ops, n).0, Times(true, rank, ops, n))
  {
    hide Run, Times, Matches, Inv, RootsTimed;
    RunKnown(true, rank, ops, n);
  }

  lemma BirthsStep(rank: Rank, ops: seq<Op>, n: nat)
    requires OpsRanked(true, rank, ops) && 0 < n <= |ops|
    ensures var births := LazyBirths(rank, ops, n - 1);
            LazyBirths(rank, ops, n)
            == if ops[n - 1].Ask? then Born(rank, ops, n - 1, births, ops[n - 1].t) else births
  {
    hide Born;
  }

  lemma StepDated(rank: Rank, ops: seq<Op>, n: nat, s: State, times: seq<nat>, births: Births)
    requires OpsRanked(true, rank, ops) && n < |ops| && OpRanked(true, rank, ops[n]) && Ranked(rank, s.services)
    requires Matches(ops, n, s, times) && LazyDated(ops, n, s, times, births)
    ensures var s' := Performed(true, s, rank, ops[n], n).0;
            && |times| <= |s'.names|
            && LazyDated(ops, n + 1, s', Timed(times, |s'.names|, n),
                         if ops[n].Ask? then Born(rank, ops, n, births, ops[n].t) else births)
  {
    hide LazyDated, Matches, Born, Resolved, OpsRanked, Ranked;
    MatchingLengths(ops, n, s, times);
    if ops[n].Ask? {
      AskDated(rank, ops, n, s, times, births, ops[n].t);
    } else {
      RegisterDated(rank, ops, n, s, times, births);
      NothingNew(times, n);
    }
  }

  lemma RootsDated(ops: seq<Op>, s: State, times: seq<nat>)
    requires Inv(ops, |ops|, s) && RootsTimed(false, ops, |ops|, s.names, times)
    ensures Dated(EagerBirths(ops), s.names, times)
  {
    forall a | 0 <= a < |s.names| && s.names[a].root.Once?
      ensures s.names[a].root.reg in EagerBirths(ops) && times[a] == s.names[a].root.reg
    {
      assert NameFits(ops, |ops|, s.names[a], s.heap[a].maker);
      assert RootTimed(false, ops, |ops|, s.names[a].root, times[a]);
    }
    forall a | 0 <= a < |s.names| && s.names[a].root.Asked? ensures times[a] == s.names[a].root.op {
      assert RootTimed(false, ops, |ops|, s.names[a].root, times[a]);
    }
  }

  /** In either mode the operations alone tell when each object was built. */
  lemma RunDated(lazy: bool, rank: Rank, ops: seq<Op>)
    requires OpsRanked(true, rank, ops) && OpsRanked(lazy, rank, ops)
    ensures Dated(BirthsOf(lazy, rank, ops), Run(lazy, rank, ops, |ops|).0.names, Times(lazy, rank, ops, |ops|))
  {
    hide Run, Times, Inv, Matches, RootsTimed, OpsRanked, LazyBirths, EagerBirths, Dated;
    RunKnown(lazy, rank, ops, |ops|);
    if lazy {
      LazyRunDated(rank, ops, |ops|);
    } else {
      RootsDated(ops, Run(lazy, rank, ops, |ops|).0, Times(lazy, rank, ops, |ops|));
    }
  }
}
