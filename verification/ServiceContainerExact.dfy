/** When eager and lazy containers agree, in terms of what services stand for over time. */
module ServiceContainerExact {
  import opened Options
  import opened ServiceContainer
  import opened ServiceContainerNames
  import opened ServiceContainerRuns
  import opened ServiceContainerGraphs
  import opened ServiceContainerBirths
  import opened ServiceContainerModes

  // ----- the conditions

  /** Service t stands for the same at times u and v, through any chain of transients. */
  ghost predicate Agree(rank: Rank, ops: seq<Op>, u: nat, v: nat, t: TypeId)
    requires OpsRanked(true, rank, ops) && u <= |ops| && v <= |ops|
    decreases rank(t)
  {
    var o := OutcomeAt(ops, u, t);
    && o == OutcomeAt(ops, v, t)
    && (o.From? && ops[o.reg].Trans? ==>
          assert OpRanked(true, rank, ops[o.reg]);
          forall d | d in ops[o.reg].deps :: Agree(rank, ops, u, v, d))
  }

  /** Every singleton that service t leads to at time v was registered when all that its own
      constructor leads to already stood for what it stands for at time v. */
  ghost predicate Calm(rank: Rank, ops: seq<Op>, v: nat, t: TypeId)
    requires OpsRanked(true, rank, ops) && v <= |ops|
    decreases rank(t)
  {
    var o := OutcomeAt(ops, v, t);
    o.From? ==>
      assert OpRanked(true, rank, ops[o.reg]);
      forall d | d in ops[o.reg].deps ::
        Calm(rank, ops, v, d) && (ops[o.reg].Single? ==> Agree(rank, ops, o.reg, v, d))
  }

  /** Every client's call is for a calm service. */
  ghost predicate CallsCalm(rank: Rank, ops: seq<Op>)
    requires OpsRanked(true, rank, ops)
  {
    forall i | 0 <= i < |ops| && ops[i].Ask? :: Calm(rank, ops, i, ops[i].t)
  }

  lemma CalmDependency(rank: Rank, ops: seq<Op>, v: nat, t: TypeId, h: nat, d: TypeId)
    requires OpsRanked(true, rank, ops) && v <= |ops| && Calm(rank, ops, v, t)
    requires OutcomeAt(ops, v, t) == From(h) && d in ops[h].deps
    ensures Calm(rank, ops, v, d) && (ops[h].Single? ==> Agree(rank, ops, h, v, d))
  {
  }

  lemma AgreeDependency(rank: Rank, ops: seq<Op>, u: nat, v: nat, t: TypeId, h: nat, d: TypeId)
    requires OpsRanked(true, rank, ops) && u <= |ops| && v <= |ops| && Agree(rank, ops, u, v, t)
    requires OutcomeAt(ops, v, t) == From(h) && ops[h].Trans? && d in ops[h].deps
    ensures Agree(rank, ops, u, v, d)
  {
  }

  lemma AgreeOutcome(rank: Rank, ops: seq<Op>, u: nat, v: nat, t: TypeId)
    requires OpsRanked(true, rank, ops) && u <= |ops| && v <= |ops| && Agree(rank, ops, u, v, t)
    ensures OutcomeAt(ops, u, t) == OutcomeAt(ops, v, t)
  {
  }

  /** What a singleton depends on stands for the same at its registration and at the first
      call that leads to it, for every singleton a call leads to. */
  ghost predicate Settled(rank: Rank, ops: seq<Op>)
    requires OpsRanked(true, rank, ops)
  {
    var births := LazyBirths(rank, ops, |ops|);
    forall h | h in births :: forall d | d in ops[h].deps :: Agree(rank, ops, h, births[h], d)
  }

  // ----- settled singletons: both containers find the same objects

  lemma AgreeArgument(rank: Rank, ops: seq<Op>, x: Spot, y: Spot, k: nat)
    requires OpsRanked(true, rank, ops) && x.time <= |ops| && y.time <= |ops| && Settled(rank, ops)
    requires Agree(rank, ops, x.time, y.time, x.t) && y == x.(time := y.time)
    requires Stands(ops, y).From? && k < |ops[Stands(ops, y).reg].deps|
    requires var h := Stands(ops, y).reg; ops[h].Single? ==> h in LazyBirths(rank, ops, |ops|)
    ensures Stands(ops, x) == Stands(ops, y)
    ensures var x', y' := Argument(false, rank, ops, x, k), Argument(true, rank, ops, y, k);
            Agree(rank, ops, x'.time, y'.time, x'.t) && y' == x'.(time := y'.time)
  {
    hide OutcomeAt, LazyBirths, OpsRanked;
    var h := Stands(ops, y).reg;
    if ops[h].Trans? {
      AgreeDependency(rank, ops, x.time, y.time, x.t, h, ops[h].deps[k]);
    }
  }

  lemma {:induction false} SettledIsLike(rank: Rank, ops: seq<Op>, l: Side, x: Spot, y: Spot, q: Ref)
    requires OpsRanked(true, rank, ops) && x.time <= |ops| && y.time <= |ops| && Settled(rank, ops)
    requires Ends(true, rank, ops, l) && At(ops, l, q, y)
    requires Agree(rank, ops, x.time, y.time, x.t) && y == x.(time := y.time)
    ensures Like(rank, ops, x, y) && forall link | link in Links(rank, ops, x, y) :: link.0 == link.1
    decreases rank(x.t)
  {
    hide Ends, At, Agree, Settled, Argument, LazyBirths, OutcomeAt, OpsRanked;
    AgreeOutcome(rank, ops, x.time, y.time, x.t);
    var o := Stands(ops, y);
    if o.From? {
      MakerAt(true, rank, ops, l, q, y);
      ArgumentsAt(true, rank, ops, l, q, y);
      forall k | 0 <= k < |ops[o.reg].deps|
        ensures var x', y' := Argument(false, rank, ops, x, k), Argument(true, rank, ops, y, k);
                Like(rank, ops, x', y') && forall link | link in Links(rank, ops, x', y') :: link.0 == link.1
      {
        AgreeArgument(rank, ops, x, y, k);
        SettledIsLike(rank, ops, l, Argument(false, rank, ops, x, k), Argument(true, rank, ops, y, k),
                      l.s.heap[q.addr].args[k]);
      }
    }
  }

  lemma {:induction false} AgreeNow(rank: Rank, ops: seq<Op>, u: nat, t: TypeId)
    requires OpsRanked(true, rank, ops) && u <= |ops|
    ensures Agree(rank, ops, u, u, t)
    decreases rank(t)
  {
    var o := OutcomeAt(ops, u, t);
    if o.From? && ops[o.reg].Trans? {
      assert OpRanked(true, rank, ops[o.reg]);
      forall d | d in ops[o.reg].deps ensures Agree(rank, ops, u, u, d) {
        AgreeNow(rank, ops, u, d);
      }
    }
  }

  /** Settled singletons make the containers answer alike, in any mixture of registrations
      and calls. */
  lemma SettledAgree(rank: Rank, ops: seq<Op>)
    requires OpsRanked(true, rank, ops) && Settled(rank, ops)
    ensures OpsRanked(false, rank, ops) && AnswerAlike(rank, ops)
  {
    hide Run, Ends, At, Agree, Settled, AnswerAlike, OpsRanked, Links, Like;
    AgreementIsExact(rank, ops);
    var l := EndOf(true, rank, ops);
    forall i | 0 <= i < |ops| && ops[i].Ask?
      ensures Like(rank, ops, Call(ops, i), Call(ops, i))
      ensures forall link | link in Links(rank, ops, Call(ops, i), Call(ops, i)) :: link.0 == link.1
    {
      AgreeNow(rank, ops, i, ops[i].t);
      SettledIsLike(rank, ops, l, Call(ops, i), Call(ops, i), Run(true, rank, ops, |ops|).1[i]);
    }
  }

  // ----- calm calls settle what they build

  /** The singletons born in operation n found there what they were registered with. */
  ghost predicate SettledAt(rank: Rank, ops: seq<Op>, n: nat, births: Births, births': Births)
    requires OpsRanked(true, rank, ops) && n <= |ops|
  {
    forall h | h in births' && h !in births ::
      h < |ops| && ops[h].Single? && forall d | d in ops[h].deps :: Agree(rank, ops, h, n, d)
  }

  lemma {:induction false} CalmBirths(rank: Rank, ops: seq<Op>, n: nat, births: Births, t: TypeId)
    requires OpsRanked(true, rank, ops) && n <= |ops| && Calm(rank, ops, n, t)
    ensures SettledAt(rank, ops, n, births, Born(rank, ops, n, births, t))
    decreases rank(t), 1, 0
  {
    hide Agree, Calm, OutcomeAt, BornAll;
    var o := OutcomeAt(ops, n, t);
    if o.From? && !(ops[o.reg].Single? && o.reg in births) {
      assert OpRanked(true, rank, ops[o.reg]);
      forall d | d in ops[o.reg].deps
        ensures Calm(rank, ops, n, d) && (ops[o.reg].Single? ==> Agree(rank, ops, o.reg, n, d))
      {
        CalmDependency(rank, ops, n, t, o.reg, d);
      }
      var now := if ops[o.reg].Single? then births[o.reg := n] else births;
      CalmBirthsAll(rank, ops, n, now, rank(t), ops[o.reg].deps);
    }
  }

  lemma {:induction false} CalmBirthsAll(rank: Rank, ops: seq<Op>, n: nat, births: Births, bound: nat,
                                         deps: seq<TypeId>)
    requires OpsRanked(true, rank, ops) && n <= |ops| && Below(rank, deps, bound)
    requires forall d | d in deps :: Calm(rank, ops, n, d)
    ensures SettledAt(rank, ops, n, births, BornAll(rank, ops, n, births, bound, deps))
    decreases bound, 0, |deps|
  {
    hide Agree, Calm, Born;
    if deps != [] {
      CalmBirths(rank, ops, n, births, deps[0]);
      CalmBirthsAll(rank, ops, n, Born(rank, ops, n, births, deps[0]), bound, deps[1..]);
    }
  }

  lemma {:induction false} CalmSettles(rank: Rank, ops: seq<Op>, n: nat)
    requires OpsRanked(true, rank, ops) && n <= |ops| && CallsCalm(rank, ops)
    ensures var births := LazyBirths(rank, ops, n);
            forall h | h in births :: forall d | d in ops[h].deps :: Agree(rank, ops, h, births[h], d)
  {
    hide Agree, Calm, Born, OpsRanked;
    if n > 0 {
      CalmSettles(rank, ops, n - 1);
      if ops[n - 1].Ask? {
        CalmBirths(rank, ops, n - 1, LazyBirths(rank, ops, n - 1), ops[n - 1].t);
      }
    }
  }

  /** If every call is for a calm service, an eager and a lazy container answer every call
      alike: the answers are the same pointer up to a one-to-one pairing of the objects built,
      and paired objects are of the same concrete type with paired arguments throughout.
      Registrations and calls may be mixed. */
  lemma EagerAndLazyAgree(rank: Rank, ops: seq<Op>)
    requires OpsRanked(true, rank, ops) && CallsCalm(rank, ops)
    ensures OpsRanked(false, rank, ops) && AnswerAlike(rank, ops)
  {
    hide CallsCalm, AnswerAlike, OpsRanked;
    CalmSettles(rank, ops, |ops|);
    SettledAgree(rank, ops);
  }

  // ----- where replacements can be seen, nothing less will do

  ghost predicate Replaced(ops: seq<Op>, t: TypeId) {
    exists i, j :: 0 <= i < j < |ops| && Registers(ops[i], t) && Registers(ops[j], t)
  }

  ghost predicate AskedFor(ops: seq<Op>, h: nat) {
    exists i :: 0 <= i < |ops| && ops[i].Ask? && OutcomeAt(ops, i, ops[i].t) == From(h)
  }

  /** Only singletons and instances are replaced, and clients ask for each singleton of a
      replaced service that gets built, so that they can compare it with what others got. */
  ghost predicate Watched(rank: Rank, ops: seq<Op>)
    requires OpsRanked(true, rank, ops)
  {
    && (forall h | 0 <= h < |ops| && ops[h].Trans? :: !Replaced(ops, ops[h].t))
    && (forall h | h in LazyBirths(rank, ops, |ops|) && Replaced(ops, ops[h].t) :: AskedFor(ops, h))
  }

  /** The same registrations count at both places, throughout the arguments. */
  ghost predicate Kept(rank: Rank, ops: seq<Op>, x: Spot, y: Spot)
    requires OpsRanked(true, rank, ops) && x.time <= |ops| && y.time <= |ops|
    decreases rank(x.t)
  {
    && Stands(ops, x) == Stands(ops, y)
    && (Stands(ops, x).From? ==>
          forall k: nat | k < |ops[Stands(ops, x).reg].deps| ::
            Kept(rank, ops, Argument(false, rank, ops, x, k), Argument(true, rank, ops, y, k)))
  }

  lemma OnlyRegistration(ops: seq<Op>, u: nat, v: nat, t: TypeId)
    requires u <= |ops| && v <= |ops| && !Replaced(ops, t)
    requires OutcomeAt(ops, u, t).From? && OutcomeAt(ops, v, t).From?
    ensures OutcomeAt(ops, u, t) == OutcomeAt(ops, v, t)
  {
  }

  /** A singleton of the lazy container that a client asks for meets itself alone. */
  lemma AskedMeetsItself(rank: Rank, ops: seq<Op>, h: nat, link: (Name, Name))
    requires OpsRanked(true, rank, ops) && OneToOne(AllLinks(rank, ops)) && link in AllLinks(rank, ops)
    requires AskedFor(ops, h) && h < |ops| && ops[h].Single? && link.1 == Name(Once(h), [])
    ensures link.0 == link.1
  {
    hide OutcomeAt;
    var i :| 0 <= i < |ops| && ops[i].Ask? && OutcomeAt(ops, i, ops[i].t) == From(h);
    var own := (Name(Once(h), []), Name(Once(h), []));
    assert own in Links(rank, ops, Call(ops, i), Call(ops, i));
    assert own in AllLinks(rank, ops);
  }

  lemma SameStands(rank: Rank, ops: seq<Op>, l: Side, x: Spot, y: Spot, q: Ref)
    requires OpsRanked(true, rank, ops) && x.time <= |ops| && y.time <= |ops| && x.t == y.t && Watched(rank, ops)
    requires OneToOne(AllLinks(rank, ops)) && Links(rank, ops, x, y) <= AllLinks(rank, ops) && Like(rank, ops, x, y)
    requires Ends(true, rank, ops, l) && At(ops, l, q, y)
    ensures Stands(ops, x) == Stands(ops, y)
  {
    hide OutcomeAt, AllLinks, OneToOne, Ends, At, LazyBirths, Replaced, AskedFor, Argument;
    var o, o' := Stands(ops, x), Stands(ops, y);
    if o.From? && o'.From? {
      if Replaced(ops, x.t) {
        MakerAt(true, rank, ops, l, q, y);
        AskedMeetsItself(rank, ops, o'.reg, (Found(ops, x), Found(ops, y)));
      } else {
        OnlyRegistration(ops, x.time, y.time, x.t);
      }
    }
  }

  lemma {:induction false} LikeIsKept(rank: Rank, ops: seq<Op>, l: Side, x: Spot, y: Spot, q: Ref)
    requires OpsRanked(true, rank, ops) && x.time <= |ops| && y.time <= |ops| && x.t == y.t && Watched(rank, ops)
    requires OneToOne(AllLinks(rank, ops)) && Links(rank, ops, x, y) <= AllLinks(rank, ops) && Like(rank, ops, x, y)
    requires Ends(true, rank, ops, l) && At(ops, l, q, y)
    ensures Kept(rank, ops, x, y)
    decreases rank(x.t)
  {
    hide OutcomeAt, AllLinks, OneToOne, Ends, At, Watched, Argument;
    SameStands(rank, ops, l, x, y, q);
    var o := Stands(ops, x);
    if o.From? {
      ArgumentsAt(true, rank, ops, l, q, y);
      forall k: nat | k < |ops[o.reg].deps|
        ensures Kept(rank, ops, Argument(false, rank, ops, x, k), Argument(true, rank, ops, y, k))
      {
        var x', y' := Argument(false, rank, ops, x, k), Argument(true, rank, ops, y, k);
        ArgumentServices(rank, ops, x, y, k);
        assert Links(rank, ops, x', y') <= AllLinks(rank, ops) by {
          assert Links(rank, ops, x', y') <= Links(rank, ops, x, y);
        }
        LikeIsKept(rank, ops, l, x', y', l.s.heap[q.addr].args[k]);
      }
    }
  }

  lemma ArgumentServices(rank: Rank, ops: seq<Op>, x: Spot, y: Spot, k: nat)
    requires OpsRanked(true, rank, ops) && x.time <= |ops| && y.time <= |ops|
    requires Stands(ops, x) == Stands(ops, y) && Stands(ops, x).From? && k < |ops[Stands(ops, x).reg].deps|
    ensures Argument(false, rank, ops, x, k).t == Argument(true, rank, ops, y, k).t
  {
  }

  lemma {:induction false} KeptAgrees(rank: Rank, ops: seq<Op>, x: Spot, y: Spot)
    requires OpsRanked(true, rank, ops) && x.time <= |ops| && y.time <= |ops| && x.t == y.t
    requires Kept(rank, ops, x, y)
    ensures Agree(rank, ops, x.time, y.time, x.t)
    decreases rank(x.t)
  {
    hide OutcomeAt, BirthsOf;
    var o := Stands(ops, x);
    if o.From? && ops[o.reg].Trans? {
      var deps := ops[o.reg].deps;
      forall d | d in deps ensures rank(d) < rank(x.t) && Agree(rank, ops, x.time, y.time, d) {
        var k :| 0 <= k < |deps| && deps[k] == d;
        KeptAgrees(rank, ops, Argument(false, rank, ops, x, k), Argument(true, rank, ops, y, k));
      }
    }
  }

  ghost predicate BornWithin(rank: Rank, ops: seq<Op>, births: Births)
    requires OpsRanked(true, rank, ops)
  {
    var births' := LazyBirths(rank, ops, |ops|);
    forall h | h in births :: h in births' && births'[h] == births[h]
  }

  lemma {:induction false} KeptBirths(rank: Rank, ops: seq<Op>, births: Births, x: Spot, y: Spot)
    requires OpsRanked(true, rank, ops) && x.time <= |ops| && y.time <= |ops| && x.t == y.t
    requires Kept(rank, ops, x, y) && BornWithin(rank, ops, Born(rank, ops, y.time, births, y.t))
    ensures SettledAt(rank, ops, y.time, births, Born(rank, ops, y.time, births, y.t))
    decreases rank(y.t), 1, 0
  {
    hide Agree, OutcomeAt, BornAll, Born, LazyBirths, OpsRanked, BornWithin;
    var o := Stands(ops, y);
    if o.From? && !(ops[o.reg].Single? && o.reg in births) {
      var deps := ops[o.reg].deps;
      BornStep(rank, ops, y, births);
      var now := if ops[o.reg].Single? then births[o.reg := y.time] else births;
      KeptBirthsAll(rank, ops, now, rank(y.t), deps, x, y, 0);
      forall d | d in deps && ops[o.reg].Single? ensures Agree(rank, ops, o.reg, y.time, d) {
        var k :| 0 <= k < |deps| && deps[k] == d;
        KeptAgrees(rank, ops, Argument(false, rank, ops, x, k), Argument(true, rank, ops, y, k));
      }
    } else {
      NothingBorn(rank, ops, y, births);
    }
  }

  lemma NothingBorn(rank: Rank, ops: seq<Op>, y: Spot, births: Births)
    requires OpsRanked(true, rank, ops) && y.time <= |ops|
    requires Stands(ops, y).From? ==> ops[Stands(ops, y).reg].Single? && Stands(ops, y).reg in births
    ensures Born(rank, ops, y.time, births, y.t) == births
  {
  }

  lemma BornStep(rank: Rank, ops: seq<Op>, y: Spot, births: Births)
    requires OpsRanked(true, rank, ops) && y.time <= |ops| && Stands(ops, y).From?
    requires var h := Stands(ops, y).reg; !(ops[h].Single? && h in births)
    requires BornWithin(rank, ops, Born(rank, ops, y.time, births, y.t))
    ensures var h := Stands(ops, y).reg;
            var now := if ops[h].Single? then births[h := y.time] else births;
            && Below(rank, ops[h].deps, rank(y.t))
            && Born(rank, ops, y.time, births, y.t) == BornAll(rank, ops, y.time, now, rank(y.t), ops[h].deps)
            && forall k: nat | k < |ops[h].deps| :: Argument(true, rank, ops, y, k).time == y.time
  {
    hide OutcomeAt, BornAll, LazyBirths;
    assert OpRanked(true, rank, ops[Stands(ops, y).reg]);
  }

  lemma {:induction false} KeptBirthsAll(rank: Rank, ops: seq<Op>, births: Births, bound: nat, deps: seq<TypeId>,
                                         x: Spot, y: Spot, k: nat)
    requires OpsRanked(true, rank, ops) && x.time <= |ops| && y.time <= |ops|
    requires Stands(ops, x).From? && Stands(ops, x) == Stands(ops, y) && Below(rank, deps, bound)
    requires k <= |ops[Stands(ops, y).reg].deps| && deps == ops[Stands(ops, y).reg].deps[k..]
    requires forall j: nat | j < |ops[Stands(ops, y).reg].deps| ::
               && Kept(rank, ops, Argument(false, rank, ops, x, j), Argument(true, rank, ops, y, j))
               && Argument(true, rank, ops, y, j).time == y.time
    requires BornWithin(rank, ops, BornAll(rank, ops, y.time, births, bound, deps))
    ensures SettledAt(rank, ops, y.time, births, BornAll(rank, ops, y.time, births, bound, deps))
    decreases bound, 0, |deps|
  {
    hide Agree, OutcomeAt, Born, LazyBirths;
    if deps != [] {
      var births1 := Born(rank, ops, y.time, births, deps[0]);
      KeptBirths(rank, ops, births, Argument(false, rank, ops, x, k), Argument(true, rank, ops, y, k));
      KeptBirthsAll(rank, ops, births1, bound, deps[1..], x, y, k + 1);
    }
  }

  ghost predicate AllKept(rank: Rank, ops: seq<Op>)
    requires OpsRanked(true, rank, ops)
  {
    forall i | 0 <= i < |ops| && ops[i].Ask? :: Kept(rank, ops, Call(ops, i), Call(ops, i))
  }

  lemma {:induction false} KeptSettles(rank: Rank, ops: seq<Op>, n: nat)
    requires OpsRanked(true, rank, ops) && AllKept(rank, ops) && n <= |ops|
    requires BornWithin(rank, ops, LazyBirths(rank, ops, n))
    ensures var births := LazyBirths(rank, ops, n);
            forall h | h in births :: forall d | d in ops[h].deps :: Agree(rank, ops, h, births[h], d)
  {
    hide Agree, Born, OpsRanked, Kept;
    if n > 0 {
      KeptSettles(rank, ops, n - 1);
      if ops[n - 1].Ask? {
        KeptBirths(rank, ops, LazyBirths(rank, ops, n - 1), Call(ops, n - 1), Call(ops, n - 1));
      }
    }
  }

  lemma AlikeIsKept(rank: Rank, ops: seq<Op>)
    requires OpsRanked(true, rank, ops) && Watched(rank, ops) && Interchangeable(rank, ops)
    ensures AllKept(rank, ops)
  {
    hide Run, Ends, At, Watched, OpsRanked, Links, Like, Kept, OneToOne;
    var l := EndOf(true, rank, ops);
    forall i | 0 <= i < |ops| && ops[i].Ask? ensures Kept(rank, ops, Call(ops, i), Call(ops, i)) {
      LikeIsKept(rank, ops, l, Call(ops, i), Call(ops, i), Run(true, rank, ops, |ops|).1[i]);
    }
  }

  /** Where replacements are watched, the containers answer alike if and only if every
      singleton that is built had its dependencies settled when it was registered, wherever
      the calls stand between the registrations. */
  lemma SettledIsExact(rank: Rank, ops: seq<Op>)
    requires OpsRanked(true, rank, ops) && Watched(rank, ops)
    ensures OpsRanked(false, rank, ops)
    ensures AnswerAlike(rank, ops) <==> Settled(rank, ops)
  {
    hide AnswerAlike, Watched, OpsRanked, Interchangeable;
    AgreementIsExact(rank, ops);
    if Settled(rank, ops) {
      SettledAgree(rank, ops);
    }
    if AnswerAlike(rank, ops) {
      AlikeIsKept(rank, ops);
      KeptSettles(rank, ops, |ops|);
    }
  }

  /** Without replacements there is nothing to watch. */
  lemma OnceIsWatched(rank: Rank, ops: seq<Op>)
    requires OpsRanked(true, rank, ops) && forall t :: !Replaced(ops, t)
    ensures Watched(rank, ops)
  {
  }

  // ----- registrations first

  ghost predicate RegistersFirst(ops: seq<Op>, cut: nat) {
    cut <= |ops| && forall i | 0 <= i < |ops| :: ops[i].Ask? <==> i >= cut
  }

  lemma LateOutcome(ops: seq<Op>, cut: nat, i: nat, t: TypeId)
    requires RegistersFirst(ops, cut) && cut <= i <= |ops|
    ensures OutcomeAt(ops, i, t) == OutcomeAt(ops, |ops|, t)
  {
    LastRegIs(ops, |ops|, t, LastReg(ops, i, t));
  }

  lemma {:induction false} LateAgree(rank: Rank, ops: seq<Op>, cut: nat, u: nat, i: nat, t: TypeId)
    requires OpsRanked(true, rank, ops) && RegistersFirst(ops, cut) && cut <= i <= |ops| && u <= |ops|
    ensures Agree(rank, ops, u, i, t) <==> Agree(rank, ops, u, |ops|, t)
    decreases rank(t)
  {
    LateOutcome(ops, cut, i, t);
    var o := OutcomeAt(ops, u, t);
    if o.From? && ops[o.reg].Trans? {
      assert OpRanked(true, rank, ops[o.reg]);
      forall d | d in ops[o.reg].deps
        ensures Agree(rank, ops, u, i, d) <==> Agree(rank, ops, u, |ops|, d)
      {
        LateAgree(rank, ops, cut, u, i, d);
      }
    }
  }

  lemma {:induction false} LateCalm(rank: Rank, ops: seq<Op>, cut: nat, i: nat, t: TypeId)
    requires OpsRanked(true, rank, ops) && RegistersFirst(ops, cut) && cut <= i <= |ops|
    ensures Calm(rank, ops, i, t) <==> Calm(rank, ops, |ops|, t)
    decreases rank(t)
  {
    LateOutcome(ops, cut, i, t);
    var o := OutcomeAt(ops, i, t);
    if o.From? {
      assert OpRanked(true, rank, ops[o.reg]);
      forall d | d in ops[o.reg].deps
        ensures Calm(rank, ops, i, d) <==> Calm(rank, ops, |ops|, d)
        ensures Agree(rank, ops, o.reg, i, d) <==> Agree(rank, ops, o.reg, |ops|, d)
      {
        LateCalm(rank, ops, cut, i, d);
        LateAgree(rank, ops, cut, o.reg, i, d);
      }
    }
  }

  lemma {:induction false} KeptIsCalm(rank: Rank, ops: seq<Op>, cut: nat, x: Spot, y: Spot)
    requires OpsRanked(true, rank, ops) && RegistersFirst(ops, cut)
    requires x.time <= |ops| && cut <= y.time <= |ops| && x.t == y.t && Kept(rank, ops, x, y)
    ensures Agree(rank, ops, x.time, |ops|, x.t) && Calm(rank, ops, |ops|, x.t)
    decreases rank(x.t)
  {
    hide OutcomeAt, LazyBirths;
    LateOutcome(ops, cut, y.time, y.t);
    var o := Stands(ops, x);
    if o.From? {
      var deps := ops[o.reg].deps;
      var time := if ops[o.reg].Single? then o.reg else x.time;
      forall d | d in deps
        ensures rank(d) < rank(x.t) && Agree(rank, ops, time, |ops|, d) && Calm(rank, ops, |ops|, d)
      {
        var k :| 0 <= k < |deps| && deps[k] == d;
        KeptIsCalm(rank, ops, cut, Argument(false, rank, ops, x, k), Argument(true, rank, ops, y, k));
      }
    }
  }

  /** When all registrations come first, it is enough to compare with what is in force at
      the end: every call is for a calm service. */
  lemma AgreementIsCalm(rank: Rank, ops: seq<Op>, cut: nat)
    requires OpsRanked(true, rank, ops) && RegistersFirst(ops, cut) && Watched(rank, ops)
    ensures OpsRanked(false, rank, ops)
    ensures AnswerAlike(rank, ops) <==> CallsCalm(rank, ops)
  {
    hide AnswerAlike, Watched, OpsRanked, Interchangeable, Calm, Kept;
    AgreementIsExact(rank, ops);
    if CallsCalm(rank, ops) {
      EagerAndLazyAgree(rank, ops);
    }
    if AnswerAlike(rank, ops) {
      AlikeIsKept(rank, ops);
      forall i | 0 <= i < |ops| && ops[i].Ask? ensures Calm(rank, ops, i, ops[i].t) {
        KeptIsCalm(rank, ops, cut, Call(ops, i), Call(ops, i));
        LateCalm(rank, ops, cut, i, ops[i].t);
      }
    }
  }

  // ----- the usual order

  /** A registration names a service that no earlier registration named or depended on, and
      does not depend on itself. */
  ghost predicate WellOrdered(ops: seq<Op>) {
    forall i, t | 0 <= i < |ops| && Registers(ops[i], t) ::
      && t !in Dependencies(ops[i])
      && forall j | 0 <= j < i :: !Registers(ops[j], t) && t !in Dependencies(ops[j])
  }

  /** What a registration depends on is not registered again. */
  lemma DependencyStays(ops: seq<Op>, h: nat, u: nat, t: TypeId)
    requires WellOrdered(ops) && h <= u <= |ops| && h < |ops| && t in Dependencies(ops[h])
    ensures LastReg(ops, u, t) == LastReg(ops, h, t)
  {
    forall j | h <= j < u ensures !Registers(ops[j], t) {}
    LastRegIs(ops, u, t, LastReg(ops, h, t));
  }

  lemma RegistrationStays(ops: seq<Op>, h: nat, t: TypeId)
    requires WellOrdered(ops) && h < |ops| && Registers(ops[h], t)
    ensures LastReg(ops, |ops|, t) == h
  {
    forall j | h < j < |ops| ensures !Registers(ops[j], t) {}
    LastRegIs(ops, |ops|, t, h);
  }

  lemma {:induction false} OldDependencyAgrees(rank: Rank, ops: seq<Op>, h: nat, u: nat, v: nat, t: TypeId)
    requires OpsRanked(true, rank, ops) && WellOrdered(ops) && h < |ops| && t in Dependencies(ops[h])
    requires h <= u <= |ops| && h <= v <= |ops|
    ensures Agree(rank, ops, u, v, t)
    decreases rank(t)
  {
    hide WellOrdered, LastReg;
    DependencyStays(ops, h, u, t);
    DependencyStays(ops, h, v, t);
    var o := OutcomeAt(ops, u, t);
    if o.From? && ops[o.reg].Trans? {
      assert OpRanked(true, rank, ops[o.reg]);
      forall d | d in ops[o.reg].deps ensures Agree(rank, ops, u, v, d) {
        OldDependencyAgrees(rank, ops, o.reg, u, v, d);
      }
    }
  }

  lemma {:induction false} WellOrderedCalm(rank: Rank, ops: seq<Op>, v: nat, t: TypeId)
    requires OpsRanked(true, rank, ops) && WellOrdered(ops) && v <= |ops|
    ensures Calm(rank, ops, v, t)
    decreases rank(t)
  {
    hide WellOrdered, LastReg, Agree;
    var o := OutcomeAt(ops, v, t);
    if o.From? {
      assert OpRanked(true, rank, ops[o.reg]);
      forall d | d in ops[o.reg].deps ensures Calm(rank, ops, v, d) && Agree(rank, ops, o.reg, v, d) {
        WellOrderedCalm(rank, ops, v, d);
        OldDependencyAgrees(rank, ops, o.reg, o.reg, v, d);
      }
    }
  }

  /** Registrations without replacement whose dependencies come first make every call calm,
      wherever the calls stand between them. */
  lemma WellOrderedAgree(rank: Rank, ops: seq<Op>)
    requires OpsRanked(true, rank, ops) && WellOrdered(ops)
    ensures OpsRanked(false, rank, ops) && AnswerAlike(rank, ops)
  {
    hide WellOrdered, Calm, AnswerAlike;
    forall i | 0 <= i < |ops| && ops[i].Ask? ensures Calm(rank, ops, i, ops[i].t) {
      WellOrderedCalm(rank, ops, i, ops[i].t);
    }
    EagerAndLazyAgree(rank, ops);
  }

  /** Well ordered operations are ranked by their order, so that Resolve ends. */
  lemma OrderIsRank(ops: seq<Op>)
    requires WellOrdered(ops) && GivenOnly(ops)
    ensures OpsRanked(true, (t: TypeId) => (LastReg(ops, |ops|, t) + 1) as nat, ops)
  {
    var rank: Rank := (t: TypeId) => (LastReg(ops, |ops|, t) + 1) as nat;
    hide WellOrdered, LastReg;
    forall i | 0 <= i < |ops| ensures OpRanked(true, rank, ops[i]) {
      if !ops[i].Ask? {
        RegistrationStays(ops, i, ops[i].t);
        forall d | d in Dependencies(ops[i]) ensures rank(d) < rank(ops[i].t) {
          DependencyStays(ops, i, |ops|, d);
        }
      }
    }
  }

  // ----- examples of what the condition refuses and allows

  function ById(): Rank {
    (t: TypeId) => t
  }

  lemma Ranks(ops: seq<Op>)
    requires forall i | 0 <= i < |ops| ::
               && (forall d | d in Dependencies(ops[i]) :: d < ops[i].t)
               && (ops[i].Give? ==> !ops[i].instance.Built?)
    ensures OpsRanked(true, ById(), ops) && OpsRanked(false, ById(), ops)
  {
  }

  /** A dependency registered after the singleton that needs it: the containers differ. */
  lemma LateDependencyDiffers()
    ensures var ops := [Single(1, 10, [0]), Single(0, 20, []), Ask(1)];
            OpsRanked(true, ById(), ops) && OpsRanked(false, ById(), ops) && !AnswerAlike(ById(), ops)
  {
    hide AnswerAlike, Watched, OpsRanked, LazyBirths;
    var ops := [Single(1, 10, [0]), Single(0, 20, []), Ask(1)];
    Ranks(ops);
    OnceIsWatched(ById(), ops);
    AgreementIsCalm(ById(), ops, 2);
    assert OutcomeAt(ops, 2, 1) == From(0) && OutcomeAt(ops, 0, 0) == Fixed(Null) && OutcomeAt(ops, 2, 0) == From(1);
    assert 0 in ops[0].deps && !Agree(ById(), ops, 0, 2, 0);
    assert !Calm(ById(), ops, 2, ops[2].t);
  }

  /** A client that uses one service whose dependency was registered again, and then asks for
      the dependency itself or for something else. */
  function Again(concrete: nat, last: TypeId): seq<Op> {
    [Single(0, 20, []), Single(1, 10, [0]), Single(0, concrete, []), Ask(1), Ask(last)]
  }

  lemma AgainOutcomes(concrete: nat, last: TypeId)
    ensures var ops := Again(concrete, last);
            && OpsRanked(true, ById(), ops) && OpsRanked(false, ById(), ops)
            && OutcomeAt(ops, 3, 1) == From(1) && OutcomeAt(ops, 1, 0) == From(0)
            && OutcomeAt(ops, 3, 0) == From(2) && OutcomeAt(ops, 4, 0) == From(2) && OutcomeAt(ops, 4, 1) == From(1)
  {
    var ops := Again(concrete, last);
    Ranks(ops);
    LastRegIs(ops, 3, 1, 1);
    LastRegIs(ops, 4, 1, 1);
    LastRegIs(ops, 1, 0, 0);
    LastRegIs(ops, 3, 0, 2);
    LastRegIs(ops, 4, 0, 2);
  }

  lemma AgainBirths(concrete: nat, last: TypeId)
    requires last <= 1 && OpsRanked(true, ById(), Again(concrete, last))
    ensures LazyBirths(ById(), Again(concrete, last), 5) == map[1 := 3, 2 := 3]
  {
    hide OutcomeAt, OpsRanked, NewlyBorn;
    var ops := Again(concrete, last);
    AgainOutcomes(concrete, last);
    assert OpRanked(true, ById(), ops[1]) && OpRanked(true, ById(), ops[2]);
    assert Born(ById(), ops, 3, map[1 := 3], 0) == map[1 := 3, 2 := 3];
    assert Born(ById(), ops, 3, map[], 1) == map[1 := 3, 2 := 3];
    assert LazyBirths(ById(), ops, 3) == map[];
    assert LazyBirths(ById(), ops, 4) == map[1 := 3, 2 := 3];
  }

  lemma AgainUser(concrete: nat, last: TypeId, i: nat)
    requires last <= 1 && OpsRanked(true, ById(), Again(concrete, last)) && (i == 3 || (i == 4 && last == 1))
    ensures var ops := Again(concrete, last);
            && Links(ById(), ops, Call(ops, i), Call(ops, i))
               == {(Name(Once(1), []), Name(Once(1), [])), (Name(Once(0), []), Name(Once(2), []))}
            && (Like(ById(), ops, Call(ops, i), Call(ops, i)) <==> concrete == 20)
  {
    hide OutcomeAt, OpsRanked, LazyBirths;
    var ops := Again(concrete, last);
    AgainOutcomes(concrete, last);
    AgainBirths(concrete, last);
    var call, x, y := Call(ops, i), Spot(1, 0, Name(Once(1), []), 0), Spot(3, 0, Name(Once(1), []), 0);
    assert Argument(false, ById(), ops, call, 0) == x && Argument(true, ById(), ops, call, 0) == y;
    assert Like(ById(), ops, x, y) <==> concrete == 20;
    assert Links(ById(), ops, x, y) == {(Name(Once(0), []), Name(Once(2), []))};
  }

  lemma AgainItself(concrete: nat)
    requires OpsRanked(true, ById(), Again(concrete, 0))
    ensures var ops := Again(concrete, 0);
            && Links(ById(), ops, Call(ops, 4), Call(ops, 4)) == {(Name(Once(2), []), Name(Once(2), []))}
            && Like(ById(), ops, Call(ops, 4), Call(ops, 4))
  {
    hide OutcomeAt, OpsRanked, LazyBirths;
    AgainOutcomes(concrete, 0);
  }

  /** Replacing a dependency by another singleton: the containers answer alike if and only if
      it is of the same type and the client never asks for the new one itself. */
  lemma ReplacementIsSeen(concrete: nat, last: TypeId)
    requires last <= 1
    ensures var ops := Again(concrete, last);
            && OpsRanked(true, ById(), ops) && OpsRanked(false, ById(), ops)
            && !Settled(ById(), ops)
            && (AnswerAlike(ById(), ops) <==> concrete == 20 && last == 1)
  {
    hide AnswerAlike, OutcomeAt, OpsRanked, LazyBirths, Like, Links;
    var ops := Again(concrete, last);
    AgainOutcomes(concrete, last);
    AgainBirths(concrete, last);
    AgreementIsExact(ById(), ops);
    assert 0 in ops[1].deps && !Agree(ById(), ops, 1, 3, 0);
    AgainUser(concrete, last, 3);
    if last == 1 {
      AgainUser(concrete, last, 4);
      assert AllLinks(ById(), ops) == Links(ById(), ops, Call(ops, 3), Call(ops, 3));
    } else {
      AgainItself(concrete);
      var p, q := (Name(Once(0), []), Name(Once(2), [])), (Name(Once(2), []), Name(Once(2), []));
      assert p in AllLinks(ById(), ops) && q in AllLinks(ById(), ops);
    }
  }

  function EarlyTransient(): seq<Op> {
    [Trans(1, 10, [0]), Give(0, Given(7)), Single(2, 30, [1]), Give(0, Given(7)), Ask(2)]
  }

  lemma EarlyTransientOutcomes()
    ensures var ops := EarlyTransient();
            && OutcomeAt(ops, 4, 2) == From(2)
            && OutcomeAt(ops, 2, 1) == From(0) && OutcomeAt(ops, 4, 1) == From(0)
            && OutcomeAt(ops, 2, 0) == Fixed(Given(7)) && OutcomeAt(ops, 4, 0) == Fixed(Given(7))
  {
  }

  lemma EarlyTransientRanked()
    ensures OpsRanked(true, ById(), EarlyTransient())
  {
  }

  lemma EarlyTransientDependency()
    requires OpsRanked(true, ById(), EarlyTransient())
    ensures Agree(ById(), EarlyTransient(), 2, 4, 1) && Calm(ById(), EarlyTransient(), 4, 1)
  {
    hide OutcomeAt, LastReg, OpsRanked;
    EarlyTransientOutcomes();
    assert Agree(ById(), EarlyTransient(), 2, 4, 0) && Calm(ById(), EarlyTransient(), 4, 0);
  }

  lemma EarlyTransientCalm()
    requires OpsRanked(true, ById(), EarlyTransient())
    ensures CallsCalm(ById(), EarlyTransient())
  {
    hide OutcomeAt, LastReg, OpsRanked, Agree;
    EarlyTransientOutcomes();
    EarlyTransientDependency();
    assert Calm(ById(), EarlyTransient(), 4, 2);
  }

  /** A transient may come before what it needs, and a given instance may be given again. */
  lemma EarlyTransientAgrees()
    ensures !WellOrdered(EarlyTransient())
    ensures OpsRanked(true, ById(), EarlyTransient()) && OpsRanked(false, ById(), EarlyTransient())
    ensures AnswerAlike(ById(), EarlyTransient())
  {
    hide AnswerAlike, CallsCalm;
    var ops := EarlyTransient();
    assert Registers(ops[1], 0) && 0 in Dependencies(ops[0]);
    EarlyTransientRanked();
    EarlyTransientCalm();
    EagerAndLazyAgree(ById(), ops);
  }
}
