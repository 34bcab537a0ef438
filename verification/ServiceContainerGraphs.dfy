/** What a run of the container builds, object by object: every constructor got the pointers
    that the registrations in force at the time determine. */
module ServiceContainerGraphs {
  import opened Options
  import opened ServiceContainer
  import opened ServiceContainerNames
  import opened ServiceContainerRuns

  // ----- the registrations in force

  /** The last registration of a service among the first n operations, -1 when there is none. */
  ghost function LastReg(ops: seq<Op>, n: nat, t: TypeId): (h: int)
    requires n <= |ops|
    ensures -1 <= h < n
    ensures h >= 0 ==> Registers(ops[h], t)
    ensures forall j | h < j < n :: !Registers(ops[j], t)
  {
    if n == 0 then -1 else if Registers(ops[n - 1], t) then n - 1 else LastReg(ops, n - 1, t)
  }

  lemma LastRegIs(ops: seq<Op>, n: nat, t: TypeId, h: int)
    requires n <= |ops| && -1 <= h < n && (h >= 0 ==> Registers(ops[h], t))
    requires forall j | h < j < n :: !Registers(ops[j], t)
    ensures LastReg(ops, n, t) == h
  {
  }

  /** What a service stands for: a fixed pointer, or an object of a registration's making. */
  datatype Outcome = Fixed(ref: Ref) | From(reg: nat)

  ghost function OutcomeAt(ops: seq<Op>, n: nat, t: TypeId): (o: Outcome)
    requires n <= |ops|
    ensures o.From? ==> o.reg < n && ops[o.reg].t == t && (ops[o.reg].Single? || ops[o.reg].Trans?)
  {
    var h := LastReg(ops, n, t);
    if h == -1 then Fixed(Null)
    else if ops[h].Give? then Fixed(ops[h].instance)
    else From(h)
  }

  // ----- descriptions

  ghost predicate NamedAt(names: seq<Name>, ref: Ref, name: Name) {
    ref.Built? && ref.addr < |names| && names[ref.addr] == name
  }

  /** The pointer that service t gives at time u to argument k of parent. */
  ghost predicate RefAt(ops: seq<Op>, u: nat, names: seq<Name>, times: seq<nat>, ref: Ref, t: TypeId, parent: Name,
                        k: nat)
    requires u <= |ops| && |times| == |names|
  {
    match OutcomeAt(ops, u, t)
    case Fixed(r) => ref == r
    case From(h) =>
      if ops[h].Single? then NamedAt(names, ref, Name(Once(h), []))
      else NamedAt(names, ref, Name(parent.root, parent.path + [Step(k, h)])) && times[ref.addr] == u
  }

  ghost predicate MadeBy(ops: seq<Op>, p: Provider) {
    && p.reg < |ops|
    && (ops[p.reg].Single? || ops[p.reg].Trans?)
    && p == Provider(p.reg, ops[p.reg].concrete, ops[p.reg].deps)
  }

  /** The object was made by its registration and got its arguments at time u. */
  ghost predicate Described(ops: seq<Op>, u: nat, names: seq<Name>, times: seq<nat>, obj: Obj, name: Name)
    requires |times| == |names|
  {
    && u <= |ops|
    && MadeBy(ops, obj.maker)
    && |obj.args| == |obj.maker.deps|
    && forall k | 0 <= k < |obj.args| :: RefAt(ops, u, names, times, obj.args[k], obj.maker.deps[k], name, k)
  }

  ghost predicate AllDescribed(ops: seq<Op>, s: State, times: seq<nat>) {
    && |s.names| == |s.heap| == |times|
    && forall a | 0 <= a < |s.heap| :: Described(ops, times[a], s.names, times, s.heap[a], s.names[a])
  }

  ghost predicate FactoryIs(ops: seq<Op>, names: seq<Name>, h: nat, f: Factory)
    requires h < |ops|
  {
    match ops[h]
    case Give(_, instance) => f == Singleton(instance, None)
    case Single(_, concrete, deps) =>
      && f.Singleton?
      && (if f.instance == Null then f.maker == Some(Provider(h, concrete, deps))
          else NamedAt(names, f.instance, Name(Once(h), [])))
    case Trans(_, concrete, deps) => f == Transient(Provider(h, concrete, deps))
    case Ask(_) => true
  }

  ghost predicate ServiceMatches(ops: seq<Op>, n: nat, s: State, t: TypeId)
    requires n <= |ops|
  {
    var h := LastReg(ops, n, t);
    (t in s.services <==> h >= 0) && (h >= 0 ==> FactoryIs(ops, s.names, h, s.services[t]))
  }

  ghost predicate ServicesMatch(ops: seq<Op>, n: nat, s: State) {
    n <= |ops| && forall t :: ServiceMatches(ops, n, s, t)
  }

  ghost predicate Matches(ops: seq<Op>, n: nat, s: State, times: seq<nat>) {
    n <= |ops| && AllDescribed(ops, s, times) && ServicesMatch(ops, n, s)
  }

  /** The times of construction once the heap has grown to this length. */
  ghost function Timed(times: seq<nat>, length: nat, n: nat): (r: seq<nat>)
    requires |times| <= length
    ensures |r| == length && times <= r
    ensures forall a | |times| <= a < length :: r[a] == n
  {
    times + seq(length - |times|, _ => n)
  }

  lemma TimedTwice(times: seq<nat>, mid: nat, length: nat, n: nat)
    requires |times| <= mid <= length
    ensures Timed(Timed(times, mid, n), length, n) == Timed(times, length, n)
  {
  }

  // ----- a growing heap changes no description

  lemma RefStays(ops: seq<Op>, u: nat, names: seq<Name>, times: seq<nat>, names': seq<Name>, times': seq<nat>,
                 ref: Ref, t: TypeId, parent: Name, k: nat)
    requires u <= |ops| && |times| == |names| && |times'| == |names'| && names <= names' && times <= times'
    requires RefAt(ops, u, names, times, ref, t, parent, k)
    ensures RefAt(ops, u, names', times', ref, t, parent, k)
  {
  }

  lemma DescribedStays(ops: seq<Op>, u: nat, names: seq<Name>, times: seq<nat>, names': seq<Name>, times': seq<nat>,
                       obj: Obj, name: Name)
    requires |times| == |names| && |times'| == |names'| && names <= names' && times <= times'
    requires Described(ops, u, names, times, obj, name)
    ensures Described(ops, u, names', times', obj, name)
  {
    hide RefAt;
    forall k | 0 <= k < |obj.args| ensures RefAt(ops, u, names', times', obj.args[k], obj.maker.deps[k], name, k) {
      RefStays(ops, u, names, times, names', times', obj.args[k], obj.maker.deps[k], name, k);
    }
  }

  lemma ServicesStay(ops: seq<Op>, n: nat, s: State, s': State)
    requires ServicesMatch(ops, n, s) && s'.services == s.services && s.names <= s'.names
    ensures ServicesMatch(ops, n, s')
  {
    forall t ensures ServiceMatches(ops, n, s', t) {
      assert ServiceMatches(ops, n, s, t);
    }
  }

  // ----- the recursion of Resolve, at time n

  lemma {:induction false} ResolvedMatches(ops: seq<Op>, n: nat, s: State, times: seq<nat>, rank: Rank, t: TypeId,
                                           parent: Name, k: nat)
    requires Ranked(rank, s.services) && Matches(ops, n, s, times)
    ensures var (s', r) := Resolved(s, rank, t, parent, k);
            && s.names <= s'.names && s.heap <= s'.heap
            && Matches(ops, n, s', Timed(times, |s'.names|, n))
            && RefAt(ops, n, s'.names, Timed(times, |s'.names|, n), r, t, parent, k)
    decreases rank(t), 1, 0
  {
    hide Described;
    assert ServiceMatches(ops, n, s, t);
    assert Timed(times, |times|, n) == times;
    if t in s.services {
      var f := s.services[t];
      var h := LastReg(ops, n, t);
      assert FactoryRanked(rank, t, f) && FactoryIs(ops, s.names, h, f);
      if f.Transient? {
        var name := Name(parent.root, parent.path + [Step(k, h)]);
        ConstructedMatches(ops, n, s, times, rank, rank(t), f.provider, name);
      } else if f.instance == Null && f.maker.Some? {
        PendingMatches(ops, n, s, times, rank, t, parent, k);
      }
    }
  }

  lemma {:induction false} PendingMatches(ops: seq<Op>, n: nat, s: State, times: seq<nat>, rank: Rank, t: TypeId,
                                          parent: Name, k: nat)
    requires Ranked(rank, s.services) && Matches(ops, n, s, times) && Pending(s, t)
    ensures var (s', r) := Resolved(s, rank, t, parent, k);
            && s.names <= s'.names && s.heap <= s'.heap
            && Matches(ops, n, s', Timed(times, |s'.names|, n))
            && RefAt(ops, n, s'.names, Timed(times, |s'.names|, n), r, t, parent, k)
    decreases rank(t), 0, |s.services[t].maker.value.deps| + 2
  {
    hide Described, ServicesMatch, Constructed;
    SingleInForce(ops, n, s, t);
    var h := LastReg(ops, n, t);
    var p := s.services[t].maker.value;
    assert FactoryRanked(rank, t, s.services[t]);
    var name := Name(Once(h), []);
    ConstructedMatches(ops, n, s, times, rank, rank(t), p, name);
    var (s1, r) := Constructed(s, rank, rank(t), p, name);
    SingleFilled(ops, n, s1, t, h, r, s.services[t].maker);
  }

  lemma SingleInForce(ops: seq<Op>, n: nat, s: State, t: TypeId)
    requires ServicesMatch(ops, n, s) && Pending(s, t)
    ensures var h := LastReg(ops, n, t);
            && 0 <= h < n && ops[h].Single? && s.services[t].maker.value == Provider(h, ops[h].concrete, ops[h].deps)
            && OutcomeAt(ops, n, t) == From(h)
  {
    assert ServiceMatches(ops, n, s, t);
  }

  lemma SingleFilled(ops: seq<Op>, n: nat, s: State, t: TypeId, h: nat, r: Ref, maker: Option<Provider>)
    requires ServicesMatch(ops, n, s) && LastReg(ops, n, t) == h && ops[h].Single?
    requires NamedAt(s.names, r, Name(Once(h), []))
    ensures ServicesMatch(ops, n, s.(services := s.services[t := Singleton(r, maker)]))
  {
    var s' := s.(services := s.services[t := Singleton(r, maker)]);
    forall u ensures ServiceMatches(ops, n, s', u) {
      assert ServiceMatches(ops, n, s, u);
    }
  }

  lemma {:induction false} ConstructedMatches(ops: seq<Op>, n: nat, s: State, times: seq<nat>, rank: Rank, bound: nat,
                                              p: Provider, name: Name)
    requires Ranked(rank, s.services) && Matches(ops, n, s, times)
    requires MadeBy(ops, p) && Below(rank, p.deps, bound)
    ensures var (s', r) := Constructed(s, rank, bound, p, name);
            && s.names <= s'.names && s.heap <= s'.heap
            && Matches(ops, n, s', Timed(times, |s'.names|, n))
            && NamedAt(s'.names, r, name) && Timed(times, |s'.names|, n)[r.addr] == n
    decreases bound, 0, |p.deps| + 1
  {
    hide RefAt, ResolvedAll, Ranked, ServicesMatch, Timed;
    ResolvedAllMatches(ops, n, s, times, rank, bound, p.deps, name, 0);
    var (s1, args) := ResolvedAll(s, rank, bound, p.deps, name, 0);
    var s' := Constructed(s, rank, bound, p, name).0;
    var times1 := Timed(times, |s1.names|, n);
    var times' := Timed(times, |s'.names|, n);
    TimedTwice(times, |s1.names|, |s'.names|, n);
    forall a | 0 <= a < |s1.heap| ensures Described(ops, times'[a], s'.names, times', s'.heap[a], s'.names[a]) {
      assert Described(ops, times1[a], s1.names, times1, s1.heap[a], s1.names[a]);
      DescribedStays(ops, times1[a], s1.names, times1, s'.names, times', s1.heap[a], s1.names[a]);
    }
    NowDescribed(ops, n, s1, times1, p, args, name);
    DescribedStays(ops, n, s1.names, times1, s'.names, times', Obj(p, args), name);
    ServicesStay(ops, n, s1, s');
  }

  lemma NowDescribed(ops: seq<Op>, n: nat, s: State, times: seq<nat>, p: Provider, args: seq<Ref>, name: Name)
    requires n <= |ops| && |times| == |s.names| && MadeBy(ops, p) && |args| == |p.deps|
    requires forall j | 0 <= j < |p.deps| :: RefAt(ops, n, s.names, times, args[j], p.deps[j], name, 0 + j)
    ensures Described(ops, n, s.names, times, Obj(p, args), name)
  {
    hide RefAt;
    forall k | 0 <= k < |args| ensures RefAt(ops, n, s.names, times, args[k], p.deps[k], name, k) {
      assert RefAt(ops, n, s.names, times, args[k], p.deps[k], name, 0 + k);
    }
  }

  lemma {:induction false} ResolvedAllMatches(ops: seq<Op>, n: nat, s: State, times: seq<nat>, rank: Rank, bound: nat,
                                              deps: seq<TypeId>, parent: Name, k: nat)
    requires Ranked(rank, s.services) && Matches(ops, n, s, times) && Below(rank, deps, bound)
    ensures var (s', args) := ResolvedAll(s, rank, bound, deps, parent, k);
            && s.names <= s'.names && s.heap <= s'.heap
            && var times' := Timed(times, |s'.names|, n);
               && Matches(ops, n, s', times')
               && forall j | 0 <= j < |deps| :: RefAt(ops, n, s'.names, times', args[j], deps[j], parent, k + j)
    decreases bound, 0, |deps|
  {
    hide RefAt, Described, ServicesMatch, Resolved, Timed;
    if deps != [] {
      ResolvedMatches(ops, n, s, times, rank, deps[0], parent, k);
      var (s1, first) := Resolved(s, rank, deps[0], parent, k);
      var times1 := Timed(times, |s1.names|, n);
      ResolvedAllMatches(ops, n, s1, times1, rank, bound, deps[1..], parent, k + 1);
      var (s2, rest) := ResolvedAll(s1, rank, bound, deps[1..], parent, k + 1);
      var times2 := Timed(times1, |s2.names|, n);
      TimedTwice(times, |s1.names|, |s2.names|, n);
      RefStays(ops, n, s1.names, times1, s2.names, times2, first, deps[0], parent, k);
      forall j | 1 <= j < |deps| ensures RefAt(ops, n, s2.names, times2, rest[j - 1], deps[j], parent, k + j) {
        assert RefAt(ops, n, s2.names, times2, rest[j - 1], deps[1..][j - 1], parent, k + 1 + (j - 1));
      }
    } else {
      NothingNew(times, n);
    }
  }

  lemma NothingNew(times: seq<nat>, n: nat)
    ensures Timed(times, |times|, n) == times
  {
  }

  // ----- runs

  /** When each object on the heap was constructed: the number of the operation. */
  ghost function Times(lazy: bool, rank: Rank, ops: seq<Op>, n: nat): (times: seq<nat>)
    requires OpsRanked(lazy, rank, ops) && n <= |ops|
  {
    if n == 0 then []
    else
      var before := Times(lazy, rank, ops, n - 1);
      var length := |Run(lazy, rank, ops, n).0.names|;
      if |before| <= length then Timed(before, length, n - 1) else before
  }

  ghost predicate ResultIs(ops: seq<Op>, names: seq<Name>, times: seq<nat>, i: nat, ref: Ref)
    requires i < |ops| && |times| == |names|
  {
    if ops[i].Ask? then RefAt(ops, i, names, times, ref, ops[i].t, Name(Asked(i), []), 0) else ref == Null
  }

  ghost predicate ResultsAre(ops: seq<Op>, names: seq<Name>, times: seq<nat>, results: seq<Ref>) {
    && |results| <= |ops| && |times| == |names|
    && forall i | 0 <= i < |results| :: ResultIs(ops, names, times, i, results[i])
  }

  /** What the root of an object's name tells of its time: a client's call builds at once,
      and so does an eager registration; a lazy one waits for a call. */
  ghost predicate RootTimed(lazy: bool, ops: seq<Op>, n: nat, root: Root, time: nat) {
    && time < n <= |ops|
    && (lazy ==> ops[time].Ask?)
    && match root
       case Asked(i) => time == i && ops[i].Ask?
       case Once(j) => j <= time && (!lazy ==> time == j)
  }

  ghost predicate RootsTimed(lazy: bool, ops: seq<Op>, n: nat, names: seq<Name>, times: seq<nat>) {
    |times| == |names| && forall a | 0 <= a < |names| :: RootTimed(lazy, ops, n, names[a].root, times[a])
  }

  ghost predicate NothingPending(s: State) {
    forall t :: !Pending(s, t)
  }

  /** Everything known of a run after n operations. */
  ghost predicate Known(lazy: bool, ops: seq<Op>, n: nat, s: State, times: seq<nat>) {
    && Inv(ops, n, s)
    && Matches(ops, n, s, times)
    && RootsTimed(lazy, ops, n, s.names, times)
    && (lazy || NothingPending(s))
  }

  lemma RunStep(lazy: bool, rank: Rank, ops: seq<Op>, n: nat)
    requires OpsRanked(lazy, rank, ops) && 0 < n <= |ops| && OpRanked(lazy, rank, ops[n - 1])
    ensures var (s, results) := Run(lazy, rank, ops, n - 1);
            var (s', r) := Performed(lazy, s, rank, ops[n - 1], n - 1);
            Run(lazy, rank, ops, n) == (s', results + [r])
  {
    hide Performed;
  }

  lemma OneRanked(lazy: bool, rank: Rank, ops: seq<Op>, i: nat)
    requires OpsRanked(lazy, rank, ops) && i < |ops|
    ensures OpRanked(lazy, rank, ops[i])
  {
  }

  lemma ResultsGrow(ops: seq<Op>, names: seq<Name>, times: seq<nat>, names': seq<Name>, times': seq<nat>,
                    results: seq<Ref>, r: Ref)
    requires ResultsAre(ops, names, times, results) && |times'| == |names'| && names <= names' && times <= times'
    requires |results| < |ops| && ResultIs(ops, names', times', |results|, r)
    ensures ResultsAre(ops, names', times', results + [r])
  {
    hide RefAt;
    forall i | 0 <= i < |results| ensures ResultIs(ops, names', times', i, results[i]) {
      assert ResultIs(ops, names, times, i, results[i]);
      if ops[i].Ask? {
        RefStays(ops, i, names, times, names', times', results[i], ops[i].t, Name(Asked(i), []), 0);
      }
    }
  }

  lemma SameInForce(ops: seq<Op>, n: nat, s: State)
    requires n < |ops| && ops[n].Ask? && ServicesMatch(ops, n, s)
    ensures ServicesMatch(ops, n + 1, s)
  {
    var m := n + 1;
    forall t ensures ServiceMatches(ops, m, s, t) {
      assert ServiceMatches(ops, n, s, t);
    }
  }

  lemma NewInForce(ops: seq<Op>, n: nat, s: State, t: TypeId, f: Factory)
    requires n < |ops| && Registers(ops[n], t) && ServicesMatch(ops, n, s) && FactoryIs(ops, s.names, n, f)
    ensures ServicesMatch(ops, n + 1, s.(services := s.services[t := f]))
  {
    var s' := s.(services := s.services[t := f]);
    var m := n + 1;
    forall u ensures ServiceMatches(ops, m, s', u) {
      assert ServiceMatches(ops, n, s, u);
    }
  }

  lemma RootsStay(lazy: bool, ops: seq<Op>, n: nat, names: seq<Name>, times: seq<nat>, names': seq<Name>)
    requires RootsTimed(lazy, ops, n, names, times) && n < |ops| && names <= names'
    requires forall a | |names| <= a < |names'| :: RootTimed(lazy, ops, n + 1, names'[a].root, n)
    ensures RootsTimed(lazy, ops, n + 1, names', Timed(times, |names'|, n))
  {
    var times' := Timed(times, |names'|, n);
    forall a | 0 <= a < |names'| ensures RootTimed(lazy, ops, n + 1, names'[a].root, times'[a]) {
      if a < |names| {
        assert RootTimed(lazy, ops, n, names[a].root, times[a]);
      }
    }
  }

  lemma AskKnown(lazy: bool, rank: Rank, ops: seq<Op>, n: nat, s: State, times: seq<nat>, t: TypeId)
    requires Ranked(rank, s.services) && n < |ops| && ops[n] == Ask(t) && Known(lazy, ops, n, s, times)
    ensures var (s', r) := Resolved(s, rank, t, Name(Asked(n), []), 0);
            && s.names <= s'.names && s.heap <= s'.heap
            && var times' := Timed(times, |s'.names|, n);
               Known(lazy, ops, n + 1, s', times') && ResultIs(ops, s'.names, times', n, r)
  {
    hide Inv, Resolved, RefAt, AllDescribed, ServicesMatch, IsPart, Ranked, Timed, RootsTimed;
    var s' := Resolved(s, rank, t, Name(Asked(n), []), 0).0;
    AskKeeps(ops, n, s, rank, t);
    AskEffect(ops, n, s, rank, t);
    ResolvedMatches(ops, n, s, times, rank, t, Name(Asked(n), []), 0);
    SameInForce(ops, n, s');
    AskRoots(lazy, rank, ops, n, s, s', t);
    RootsStay(lazy, ops, n, s.names, times, s'.names);
    forall u | !lazy ensures !Pending(s', u) {
      assert !Pending(s, u);
    }
  }

  lemma AskRoots(lazy: bool, rank: Rank, ops: seq<Op>, n: nat, s: State, s': State, t: TypeId)
    requires Inv(ops, n, s) && n < |ops| && ops[n].Ask? && (lazy || NothingPending(s))
    requires NewNames(s, s', rank, rank(t) + 1, Name(Asked(n), []), 0, 1)
    ensures forall a | |s.names| <= a < |s'.names| :: RootTimed(lazy, ops, n + 1, s'.names[a].root, n)
  {
    PendingIsOlder(ops, n, s);
    forall a | |s.names| <= a < |s'.names| ensures RootTimed(lazy, ops, n + 1, s'.names[a].root, n) {
      if !IsPart(s'.names[a], Name(Asked(n), []), 0, 1) {
        assert BuiltNow(s, s', rank, rank(t) + 1, s'.names[a]);
      }
    }
  }

  lemma RegisterKnown(lazy: bool, rank: Rank, ops: seq<Op>, n: nat, s: State, times: seq<nat>)
    requires Ranked(rank, s.services) && n < |ops| && OpRanked(lazy, rank, ops[n]) && Known(lazy, ops, n, s, times)
    requires ops[n].Give? || ops[n].Trans? || (lazy && ops[n].Single?)
    ensures var (s', r) := Performed(lazy, s, rank, ops[n], n);
            s'.names == s.names && s'.heap == s.heap && r == Null && Known(lazy, ops, n + 1, s', times)
  {
    hide Inv, Resolved, Constructed, Described, ServicesMatch, Ranked, RootsTimed;
    var s' := Performed(lazy, s, rank, ops[n], n).0;
    RegisterKeeps(lazy, ops, n, s, rank);
    NewInForce(ops, n, s, ops[n].t, s'.services[ops[n].t]);
    RootsStay(lazy, ops, n, s.names, times, s.names);
    NothingNew(times, n);
    forall u | !lazy ensures !Pending(s', u) {
      assert !Pending(s, u);
    }
  }

  lemma EagerKnown(rank: Rank, ops: seq<Op>, n: nat, s: State, times: seq<nat>)
    requires Ranked(rank, s.services) && n < |ops| && ops[n].Single? && Known(false, ops, n, s, times)
    ensures var (s', r) := Performed(false, s, rank, ops[n], n);
            && s.names <= s'.names && s.heap <= s'.heap && r == Null
            && Known(false, ops, n + 1, s', Timed(times, |s'.names|, n))
  {
    hide Inv, Constructed, RefAt, Described, ServicesMatch, IsPart, Ranked, Timed, RootsTimed, Ceiling;
    var op := ops[n];
    var p, bound := Provider(n, op.concrete, op.deps), Ceiling(rank, op.deps);
    EagerSingleKeeps(ops, n, s, rank, op.t, op.concrete, op.deps);
    EagerSingleEffect(ops, n, s, rank, p);
    ConstructedMatches(ops, n, s, times, rank, bound, p, Name(Once(n), []));
    var (s1, r) := Constructed(s, rank, bound, p, Name(Once(n), []));
    NewInForce(ops, n, s1, op.t, Singleton(r, None));
    EagerRoots(rank, ops, n, s, s1, bound, |op.deps|);
    RootsStay(false, ops, n, s.names, times, s1.names);
    var s' := Performed(false, s, rank, op, n).0;
    forall u ensures !Pending(s', u) {
      assert !Pending(s, u);
    }
  }

  lemma EagerRoots(rank: Rank, ops: seq<Op>, n: nat, s: State, s': State, bound: nat, hi: nat)
    requires n < |ops| && NothingPending(s)
    requires forall a | |s.names| <= a < |s'.names| ::
               || s'.names[a] == Name(Once(n), [])
               || IsPart(s'.names[a], Name(Once(n), []), 0, hi)
               || BuiltNow(s, s', rank, bound, s'.names[a])
    ensures forall a | |s.names| <= a < |s'.names| :: RootTimed(false, ops, n + 1, s'.names[a].root, n)
  {
  }

  lemma StepKnown(lazy: bool, rank: Rank, ops: seq<Op>, n: nat, s: State, times: seq<nat>)
    requires Ranked(rank, s.services) && n < |ops| && OpRanked(lazy, rank, ops[n]) && Known(lazy, ops, n, s, times)
    ensures |times| == |s.names|
    ensures var (s', r) := Performed(lazy, s, rank, ops[n], n);
            && s.names <= s'.names && s.heap <= s'.heap
            && var times' := Timed(times, |s'.names|, n);
               Known(lazy, ops, n + 1, s', times') && ResultIs(ops, s'.names, times', n, r)
  {
    hide Inv, Resolved, Constructed, Described, ServicesMatch, Ranked, RefAt;
    var op := ops[n];
    if op.Ask? {
      AskKnown(lazy, rank, ops, n, s, times, op.t);
    } else if op.Single? && !lazy {
      EagerKnown(rank, ops, n, s, times);
    } else {
      RegisterKnown(lazy, rank, ops, n, s, times);
      NothingNew(times, n);
    }
  }

  /** After every run, in either mode, each object is what its registration and the
      registrations in force when it was built make it, and each call got what was in force. */
  lemma {:induction false} RunKnown(lazy: bool, rank: Rank, ops: seq<Op>, n: nat)
    requires OpsRanked(lazy, rank, ops) && n <= |ops|
    ensures var (s, results) := Run(lazy, rank, ops, n);
            var times := Times(lazy, rank, ops, n);
            Known(lazy, ops, n, s, times) && ResultsAre(ops, s.names, times, results)
  {
    if n > 0 {
      hide Known, ResultIs, ResultsAre, Performed, Ranked, Timed, Run, Times, OpsRanked, OpRanked;
      RunKnown(lazy, rank, ops, n - 1);
      var (s, results) := Run(lazy, rank, ops, n - 1);
      var times := Times(lazy, rank, ops, n - 1);
      OneRanked(lazy, rank, ops, n - 1);
      StepKnown(lazy, rank, ops, n - 1, s, times);
      var (s', r) := Performed(lazy, s, rank, ops[n - 1], n - 1);
      RunStep(lazy, rank, ops, n);
      TimesStep(lazy, rank, ops, n);
      ResultsGrow(ops, s.names, times, s'.names, Timed(times, |s'.names|, n - 1), results, r);
    } else {
      EmptyKnown(lazy, ops);
    }
  }

  lemma TimesStep(lazy: bool, rank: Rank, ops: seq<Op>, n: nat)
    requires OpsRanked(lazy, rank, ops) && 0 < n <= |ops|
    requires |Times(lazy, rank, ops, n - 1)| <= |Run(lazy, rank, ops, n).0.names|
    ensures Times(lazy, rank, ops, n) == Timed(Times(lazy, rank, ops, n - 1), |Run(lazy, rank, ops, n).0.names|, n - 1)
  {
    hide Run, Timed;
  }

  lemma EmptyKnown(lazy: bool, ops: seq<Op>)
    ensures Known(lazy, ops, 0, EMPTY, []) && ResultsAre(ops, EMPTY.names, [], [])
  {
    forall t ensures ServiceMatches(ops, 0, EMPTY, t) {}
  }
}
