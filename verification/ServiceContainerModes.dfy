/** Eager against lazy containers: exactly when a client gets the same object graphs. */
module ServiceContainerModes {
  import opened Options
  import opened ServiceContainer
  import opened ServiceContainerNames
  import opened ServiceContainerRuns
  import opened ServiceContainerGraphs
  import opened ServiceContainerBirths

  // ----- alike answers

  ghost predicate SameRef(m: map<nat, nat>, x: Ref, y: Ref) {
    match x
    case Built(a) => a in m && y == Built(m[a])
    case _ => y == x
  }

  ghost predicate SameObj(m: map<nat, nat>, x: Obj, y: Obj) {
    && x.maker.concrete == y.maker.concrete
    && |x.args| == |y.args|
    && forall k | 0 <= k < |x.args| :: SameRef(m, x.args[k], y.args[k])
  }

  /** m pairs objects of two heaps one to one, each with one of the same concrete type whose
      constructor arguments are paired in turn. */
  ghost predicate Isomorphism(m: map<nat, nat>, h: seq<Obj>, h': seq<Obj>) {
    && (forall a | a in m :: a < |h| && m[a] < |h'| && SameObj(m, h[a], h'[m[a]]))
    && (forall a, b | a in m && b in m && m[a] == m[b] :: a == b)
  }

  ghost predicate SameAnswers(m: map<nat, nat>, answers: seq<Ref>, answers': seq<Ref>) {
    |answers| == |answers'| && forall i | 0 <= i < |answers| :: SameRef(m, answers[i], answers'[i])
  }

  /** The two containers answer every call alike, up to a pairing of what they built. */
  ghost predicate AnswerAlike(rank: Rank, ops: seq<Op>)
    requires OpsRanked(true, rank, ops) && OpsRanked(false, rank, ops)
  {
    var (eager, answers) := Run(false, rank, ops, |ops|);
    var (lazy, answers') := Run(true, rank, ops, |ops|);
    exists m :: Isomorphism(m, eager.heap, lazy.heap) && SameAnswers(m, answers, answers')
  }

  // ----- unfolding the registrations

  /** A place where a service is wanted: the time whose registrations count, and the argument
      position it is wanted for. */
  datatype Spot = Spot(time: nat, t: TypeId, parent: Name, k: nat)

  /** The place of a client's call. */
  function Call(ops: seq<Op>, i: nat): Spot
    requires i < |ops| && ops[i].Ask?
  {
    Spot(i, ops[i].t, Name(Asked(i), []), 0)
  }

  ghost function Stands(ops: seq<Op>, x: Spot): (o: Outcome)
    requires x.time <= |ops|
    ensures o.From? ==> o.reg < |ops| && ops[o.reg].t == x.t && (ops[o.reg].Single? || ops[o.reg].Trans?)
  {
    OutcomeAt(ops, x.time, x.t)
  }

  /** The name of the object that belongs there: all asks for a singleton share one. */
  ghost function Found(ops: seq<Op>, x: Spot): Name
    requires x.time <= |ops| && Stands(ops, x).From?
  {
    var h := Stands(ops, x).reg;
    if ops[h].Single? then Name(Once(h), []) else Name(x.parent.root, x.parent.path + [Step(x.k, h)])
  }

  /** Where argument k of that object is wanted: what a singleton gets is decided at its birth,
      what a transient gets when it is asked for. */
  ghost function Argument(lazy: bool, rank: Rank, ops: seq<Op>, x: Spot, k: nat): (y: Spot)
    requires OpsRanked(true, rank, ops) && x.time <= |ops|
    requires Stands(ops, x).From? && k < |ops[Stands(ops, x).reg].deps|
    ensures y.time <= |ops| && rank(y.t) < rank(x.t)
  {
    var h := Stands(ops, x).reg;
    var births := BirthsOf(lazy, rank, ops);
    assert OpRanked(true, rank, ops[h]);
    Spot(if ops[h].Single? && h in births then births[h] else x.time, ops[h].deps[k], Found(ops, x), k)
  }

  /** The same fixed pointer belongs at both places, or objects of one concrete type with
      like arguments. */
  ghost predicate Like(rank: Rank, ops: seq<Op>, x: Spot, y: Spot)
    requires OpsRanked(true, rank, ops) && x.time <= |ops| && y.time <= |ops|
    decreases rank(x.t)
  {
    var o, o' := Stands(ops, x), Stands(ops, y);
    if o.Fixed? || o'.Fixed? then o == o'
    else
      && ops[o.reg].concrete == ops[o'.reg].concrete
      && |ops[o.reg].deps| == |ops[o'.reg].deps|
      && forall k | 0 <= k < |ops[o.reg].deps| ::
           Like(rank, ops, Argument(false, rank, ops, x, k), Argument(true, rank, ops, y, k))
  }

  /** The names of the objects that meet when place x of the eager container is compared with
      place y of the lazy one, throughout their arguments. */
  ghost function Links(rank: Rank, ops: seq<Op>, x: Spot, y: Spot): set<(Name, Name)>
    requires OpsRanked(true, rank, ops) && x.time <= |ops| && y.time <= |ops|
    decreases rank(x.t)
  {
    var o, o' := Stands(ops, x), Stands(ops, y);
    if o.Fixed? || o'.Fixed? then {}
    else
      {(Found(ops, x), Found(ops, y))}
      + (set k, l | 0 <= k < |ops[o.reg].deps| && k < |ops[o'.reg].deps|
                    && l in Links(rank, ops, Argument(false, rank, ops, x, k), Argument(true, rank, ops, y, k)) :: l)
  }

  ghost predicate AllLike(rank: Rank, ops: seq<Op>)
    requires OpsRanked(true, rank, ops)
  {
    forall i | 0 <= i < |ops| && ops[i].Ask? :: Like(rank, ops, Call(ops, i), Call(ops, i))
  }

  ghost function AllLinks(rank: Rank, ops: seq<Op>): set<(Name, Name)>
    requires OpsRanked(true, rank, ops)
  {
    set i, l | 0 <= i < |ops| && ops[i].Ask? && l in Links(rank, ops, Call(ops, i), Call(ops, i)) :: l
  }

  /** Where one container shares an object, so does the other. */
  ghost predicate OneToOne(links: set<(Name, Name)>) {
    forall l, l' | l in links && l' in links :: l.0 == l'.0 <==> l.1 == l'.1
  }

  /** The registrations and calls make the two containers interchangeable: all that any call
      leads to is alike, and shared alike. Neither container's state occurs in this. */
  ghost predicate Interchangeable(rank: Rank, ops: seq<Op>)
    requires OpsRanked(true, rank, ops)
  {
    AllLike(rank, ops) && OneToOne(AllLinks(rank, ops))
  }

  // ----- what runs have at those places

  /** A container at the end of a run. */
  datatype Side = Side(s: State, times: seq<nat>)

  ghost predicate Ends(lazy: bool, rank: Rank, ops: seq<Op>, side: Side)
    requires OpsRanked(true, rank, ops)
  {
    && GivenOnly(ops)
    && Known(lazy, ops, |ops|, side.s, side.times)
    && Dated(BirthsOf(lazy, rank, ops), side.s.names, side.times)
  }

  ghost predicate At(ops: seq<Op>, side: Side, ref: Ref, x: Spot)
    requires x.time <= |ops|
  {
    && |side.times| == |side.s.names|
    && RefAt(ops, x.time, side.s.names, side.times, ref, x.t, x.parent, x.k)
  }

  ghost predicate GivenOnly(ops: seq<Op>) {
    forall i | 0 <= i < |ops| && ops[i].Give? :: !ops[i].instance.Built?
  }

  lemma RankedGivenOnly(lazy: bool, rank: Rank, ops: seq<Op>)
    requires OpsRanked(lazy, rank, ops)
    ensures GivenOnly(ops)
  {
    forall i | 0 <= i < |ops| && ops[i].Give? ensures !ops[i].instance.Built? {
      assert OpRanked(lazy, rank, ops[i]);
    }
  }

  lemma RankedEagerly(rank: Rank, ops: seq<Op>)
    requires OpsRanked(true, rank, ops)
    ensures OpsRanked(false, rank, ops)
  {
    forall i | 0 <= i < |ops| ensures OpRanked(false, rank, ops[i]) {
      assert OpRanked(true, rank, ops[i]);
    }
  }

  /** The pointer at a place is the fixed one, or that of the object of its name. */
  lemma PointerAt(lazy: bool, rank: Rank, ops: seq<Op>, side: Side, ref: Ref, x: Spot)
    requires OpsRanked(true, rank, ops) && x.time <= |ops| && Ends(lazy, rank, ops, side) && At(ops, side, ref, x)
    ensures Stands(ops, x).Fixed? ==> ref == Stands(ops, x).ref && !ref.Built?
    ensures Stands(ops, x).From? ==>
              ref.Built? && ref.addr < |side.s.names| == |side.s.heap| && side.s.names[ref.addr] == Found(ops, x)
  {
    hide ServicesMatch, Sound, NamesFit;
  }

  lemma MakerAt(lazy: bool, rank: Rank, ops: seq<Op>, side: Side, ref: Ref, x: Spot)
    requires OpsRanked(true, rank, ops) && x.time <= |ops| && Ends(lazy, rank, ops, side) && At(ops, side, ref, x)
    requires Stands(ops, x).From?
    ensures ref.Built? && ref.addr < |side.s.heap| == |side.times|
    ensures var h := Stands(ops, x).reg;
            && side.s.heap[ref.addr].maker == Provider(h, ops[h].concrete, ops[h].deps)
            && (if ops[h].Single? then
                  h in BirthsOf(lazy, rank, ops) && side.times[ref.addr] == BirthsOf(lazy, rank, ops)[h]
                else side.times[ref.addr] == x.time)
  {
    hide ServicesMatch, BirthsOf, Sound;
    PointerAt(lazy, rank, ops, side, ref, x);
    assert NameFits(ops, |ops|, side.s.names[ref.addr], side.s.heap[ref.addr].maker);
    assert Described(ops, side.times[ref.addr], side.s.names, side.times, side.s.heap[ref.addr],
                     side.s.names[ref.addr]);
  }

  /** The arguments of the object at a place are at the argument places. */
  lemma ArgumentsAt(lazy: bool, rank: Rank, ops: seq<Op>, side: Side, ref: Ref, x: Spot)
    requires OpsRanked(true, rank, ops) && x.time <= |ops| && Ends(lazy, rank, ops, side) && At(ops, side, ref, x)
    requires Stands(ops, x).From?
    ensures ref.Built? && ref.addr < |side.s.heap|
    ensures var h, obj := Stands(ops, x).reg, side.s.heap[ref.addr];
            && obj.maker.concrete == ops[h].concrete && |obj.args| == |ops[h].deps|
            && forall k | 0 <= k < |ops[h].deps| :: At(ops, side, obj.args[k], Argument(lazy, rank, ops, x, k))
  {
    hide ServicesMatch, BirthsOf, Sound, RefAt, Inv, Stands, Found;
    PointerAt(lazy, rank, ops, side, ref, x);
    MakerAt(lazy, rank, ops, side, ref, x);
    assert Described(ops, side.times[ref.addr], side.s.names, side.times, side.s.heap[ref.addr],
                     side.s.names[ref.addr]);
  }

  // ----- alike answers make all places alike

  /** m takes the object of the first name to that of the second. */
  ghost predicate Paired(m: map<nat, nat>, e: Side, l: Side, link: (Name, Name)) {
    exists a ::
      && a in m && a < |e.s.names| && m[a] < |l.s.names|
      && e.s.names[a] == link.0 && l.s.names[m[a]] == link.1
  }

  lemma SameArguments(m: map<nat, nat>, h: seq<Obj>, h': seq<Obj>, x: Ref, y: Ref)
    requires Isomorphism(m, h, h') && SameRef(m, x, y) && x.Built?
    ensures y.Built? && x.addr in m && y.addr == m[x.addr] && x.addr < |h| && y.addr < |h'|
    ensures var o, o' := h[x.addr], h'[y.addr];
            && o.maker.concrete == o'.maker.concrete && |o.args| == |o'.args|
            && forall k | 0 <= k < |o.args| :: SameRef(m, o.args[k], o'.args[k])
  {
    assert SameObj(m, h[x.addr], h'[m[x.addr]]);
  }

  lemma {:induction false} PairedIsLike(rank: Rank, ops: seq<Op>, m: map<nat, nat>, e: Side, l: Side, x: Spot, y: Spot,
                                        p: Ref, q: Ref)
    requires OpsRanked(true, rank, ops) && x.time <= |ops| && y.time <= |ops|
    requires Ends(false, rank, ops, e) && Ends(true, rank, ops, l) && Isomorphism(m, e.s.heap, l.s.heap)
    requires At(ops, e, p, x) && At(ops, l, q, y) && SameRef(m, p, q)
    ensures Like(rank, ops, x, y) && forall link | link in Links(rank, ops, x, y) :: Paired(m, e, l, link)
    decreases rank(x.t)
  {
    hide Ends, At, Isomorphism, SameRef, Stands, Found, Argument;
    PointerAt(false, rank, ops, e, p, x);
    PointerAt(true, rank, ops, l, q, y);
    FixedOrBuilt(m, p, q);
    if p.Built? {
      ArgumentsAt(false, rank, ops, e, p, x);
      ArgumentsAt(true, rank, ops, l, q, y);
      SameArguments(m, e.s.heap, l.s.heap, p, q);
      assert Paired(m, e, l, (Found(ops, x), Found(ops, y)));
      var o, o' := Stands(ops, x), Stands(ops, y);
      forall k | 0 <= k < |ops[o.reg].deps|
        ensures var x', y' := Argument(false, rank, ops, x, k), Argument(true, rank, ops, y, k);
                Like(rank, ops, x', y') && forall link | link in Links(rank, ops, x', y') :: Paired(m, e, l, link)
      {
        PairedIsLike(rank, ops, m, e, l, Argument(false, rank, ops, x, k), Argument(true, rank, ops, y, k),
                     e.s.heap[p.addr].args[k], l.s.heap[q.addr].args[k]);
      }
    }
  }

  lemma FixedOrBuilt(m: map<nat, nat>, p: Ref, q: Ref)
    requires SameRef(m, p, q)
    ensures if p.Built? then q.Built? && p.addr in m && q.addr == m[p.addr] else q == p
  {
  }

  lemma PairedIsOneToOne(m: map<nat, nat>, e: Side, l: Side, links: set<(Name, Name)>)
    requires Isomorphism(m, e.s.heap, l.s.heap) && Sound(e.s) && Sound(l.s)
    requires forall link | link in links :: Paired(m, e, l, link)
    ensures OneToOne(links)
  {
    hide SameObj;
    forall p, q | p in links && q in links ensures p.0 == q.0 <==> p.1 == q.1 {
      assert Paired(m, e, l, p) && Paired(m, e, l, q);
    }
  }

  lemma EndOf(lazy: bool, rank: Rank, ops: seq<Op>) returns (side: Side)
    requires OpsRanked(true, rank, ops) && OpsRanked(lazy, rank, ops)
    ensures side.s == Run(lazy, rank, ops, |ops|).0 && Ends(lazy, rank, ops, side)
    ensures forall i | 0 <= i < |ops| ::
              var answer := Run(lazy, rank, ops, |ops|).1[i];
              if ops[i].Ask? then At(ops, side, answer, Call(ops, i)) else answer == Null
  {
    hide Run, Times, Known, OpsRanked, BirthsOf, Dated, RefAt;
    side := Side(Run(lazy, rank, ops, |ops|).0, Times(lazy, rank, ops, |ops|));
    RankedGivenOnly(true, rank, ops);
    RunKnown(lazy, rank, ops, |ops|);
    RunDated(lazy, rank, ops);
    forall i | 0 <= i < |ops|
      ensures var answer := Run(lazy, rank, ops, |ops|).1[i];
              if ops[i].Ask? then At(ops, side, answer, Call(ops, i)) else answer == Null
    {
      assert ResultIs(ops, side.s.names, side.times, i, Run(lazy, rank, ops, |ops|).1[i]);
    }
  }

  lemma EndsSound(lazy: bool, rank: Rank, ops: seq<Op>, side: Side)
    requires OpsRanked(true, rank, ops) && Ends(lazy, rank, ops, side)
    ensures Sound(side.s)
  {
  }

  lemma AlikeIsInterchangeable(rank: Rank, ops: seq<Op>)
    requires OpsRanked(true, rank, ops) && OpsRanked(false, rank, ops) && AnswerAlike(rank, ops)
    ensures Interchangeable(rank, ops)
  {
    hide Run, Isomorphism, SameRef, Ends, At, Like, Links, OpsRanked, Paired, OneToOne, Sound;
    var e := EndOf(false, rank, ops);
    var l := EndOf(true, rank, ops);
    var answers, answers' := Run(false, rank, ops, |ops|).1, Run(true, rank, ops, |ops|).1;
    var m :| Isomorphism(m, e.s.heap, l.s.heap) && SameAnswers(m, answers, answers');
    forall i | 0 <= i < |ops| && ops[i].Ask?
      ensures Like(rank, ops, Call(ops, i), Call(ops, i))
      ensures forall link | link in Links(rank, ops, Call(ops, i), Call(ops, i)) :: Paired(m, e, l, link)
    {
      PairedIsLike(rank, ops, m, e, l, Call(ops, i), Call(ops, i), answers[i], answers'[i]);
    }
    EndsSound(false, rank, ops, e);
    EndsSound(true, rank, ops, l);
    PairedIsOneToOne(m, e, l, AllLinks(rank, ops));
  }

  // ----- places that are alike, and shared alike, make alike answers

  ghost function Partner(links: set<(Name, Name)>, name: Name, names: seq<Name>): (b: nat)
    requires exists b :: 0 <= b < |names| && (name, names[b]) in links
    ensures b < |names| && (name, names[b]) in links
  {
    var b :| 0 <= b < |names| && (name, names[b]) in links; b
  }

  /** Each object of the eager container with the one of the lazy container it meets. */
  ghost function Pairing(links: set<(Name, Name)>, names: seq<Name>, names': seq<Name>): map<nat, nat> {
    map a: nat | a < |names| && (exists b :: 0 <= b < |names'| && (names[a], names'[b]) in links)
      :: Partner(links, names[a], names')
  }

  lemma LinkedPair(links: set<(Name, Name)>, e: Side, l: Side, a: nat, b: nat)
    requires OneToOne(links) && Sound(l.s) && a < |e.s.names| && b < |l.s.names|
    requires (e.s.names[a], l.s.names[b]) in links
    ensures var m := Pairing(links, e.s.names, l.s.names); a in m && m[a] == b
  {
    var c := Partner(links, e.s.names[a], l.s.names);
    assert l.s.names[c] == l.s.names[b] by {
      var p, q := (e.s.names[a], l.s.names[b]), (e.s.names[a], l.s.names[c]);
      assert p in links && q in links && p.0 == q.0;
    }
  }

  /** Whatever objects have the linked names are alike. */
  ghost predicate LinkAlike(m: map<nat, nat>, e: Side, l: Side, link: (Name, Name)) {
    forall a, b | 0 <= a < |e.s.names| && 0 <= b < |l.s.names| && (e.s.names[a], l.s.names[b]) == link ::
      a < |e.s.heap| && b < |l.s.heap| && SameObj(m, e.s.heap[a], l.s.heap[b])
  }

  lemma {:induction false} LikeIsPaired(rank: Rank, ops: seq<Op>, links: set<(Name, Name)>, e: Side, l: Side, x: Spot,
                                        y: Spot, p: Ref, q: Ref)
    requires OpsRanked(true, rank, ops) && x.time <= |ops| && y.time <= |ops|
    requires Ends(false, rank, ops, e) && Ends(true, rank, ops, l)
    requires At(ops, e, p, x) && At(ops, l, q, y) && Like(rank, ops, x, y)
    requires Links(rank, ops, x, y) <= links && OneToOne(links)
    ensures var m := Pairing(links, e.s.names, l.s.names);
            SameRef(m, p, q) && forall link | link in Links(rank, ops, x, y) :: LinkAlike(m, e, l, link)
    decreases rank(x.t)
  {
    hide Ends, At, Stands, Found, Argument, OneToOne, Pairing, LinkAlike, SameRef, Sound;
    var m := Pairing(links, e.s.names, l.s.names);
    PointerAt(false, rank, ops, e, p, x);
    PointerAt(true, rank, ops, l, q, y);
    var o, o' := Stands(ops, x), Stands(ops, y);
    if o.From? && o'.From? {
      ArgumentsAt(false, rank, ops, e, p, x);
      ArgumentsAt(true, rank, ops, l, q, y);
      EndsSound(true, rank, ops, l);
      EndsSound(false, rank, ops, e);
      LinkedPair(links, e, l, p.addr, q.addr);
      var f, g := e.s.heap[p.addr], l.s.heap[q.addr];
      forall k | 0 <= k < |ops[o.reg].deps|
        ensures var x', y' := Argument(false, rank, ops, x, k), Argument(true, rank, ops, y, k);
                && SameRef(m, f.args[k], g.args[k])
                && forall link | link in Links(rank, ops, x', y') :: LinkAlike(m, e, l, link)
      {
        LikeIsPaired(rank, ops, links, e, l, Argument(false, rank, ops, x, k), Argument(true, rank, ops, y, k),
                     f.args[k], g.args[k]);
      }
      OnlyPair(m, e, l, p.addr, q.addr);
      PairIsRef(m, p, q);
    } else {
      FixedPair(m, p);
    }
  }

  lemma OnlyPair(m: map<nat, nat>, e: Side, l: Side, a: nat, b: nat)
    requires Sound(e.s) && Sound(l.s) && a < |e.s.heap| && b < |l.s.heap| && SameObj(m, e.s.heap[a], l.s.heap[b])
    ensures LinkAlike(m, e, l, (e.s.names[a], l.s.names[b]))
  {
  }

  lemma PairIsRef(m: map<nat, nat>, p: Ref, q: Ref)
    requires p.Built? && q.Built? && p.addr in m && m[p.addr] == q.addr
    ensures SameRef(m, p, q)
  {
  }

  lemma FixedPair(m: map<nat, nat>, p: Ref)
    requires !p.Built?
    ensures SameRef(m, p, p)
  {
  }

  lemma PairingIsIsomorphism(links: set<(Name, Name)>, e: Side, l: Side)
    requires OneToOne(links) && Sound(e.s) && Sound(l.s)
    requires forall link | link in links :: LinkAlike(Pairing(links, e.s.names, l.s.names), e, l, link)
    ensures Isomorphism(Pairing(links, e.s.names, l.s.names), e.s.heap, l.s.heap)
  {
    hide SameObj;
    var m := Pairing(links, e.s.names, l.s.names);
    forall a | a in m ensures a < |e.s.heap| && m[a] < |l.s.heap| && SameObj(m, e.s.heap[a], l.s.heap[m[a]]) {
      assert LinkAlike(m, e, l, (e.s.names[a], l.s.names[m[a]]));
    }
    forall a, b | a in m && b in m && m[a] == m[b] ensures a == b {
      var p, q := (e.s.names[a], l.s.names[m[a]]), (e.s.names[b], l.s.names[m[b]]);
      assert p in links && q in links && p.1 == q.1;
    }
  }

  lemma InterchangeableIsAlike(rank: Rank, ops: seq<Op>)
    requires OpsRanked(true, rank, ops) && OpsRanked(false, rank, ops) && Interchangeable(rank, ops)
    ensures AnswerAlike(rank, ops)
  {
    hide Run, Isomorphism, SameRef, Ends, At, Like, Links, OpsRanked, LinkAlike, OneToOne, Sound, Pairing;
    var e := EndOf(false, rank, ops);
    var l := EndOf(true, rank, ops);
    var answers, answers' := Run(false, rank, ops, |ops|).1, Run(true, rank, ops, |ops|).1;
    var links := AllLinks(rank, ops);
    var m := Pairing(links, e.s.names, l.s.names);
    EndsSound(false, rank, ops, e);
    EndsSound(true, rank, ops, l);
    forall i | 0 <= i < |ops| && ops[i].Ask?
      ensures SameRef(m, answers[i], answers'[i])
      ensures forall link | link in Links(rank, ops, Call(ops, i), Call(ops, i)) :: LinkAlike(m, e, l, link)
    {
      LikeIsPaired(rank, ops, links, e, l, Call(ops, i), Call(ops, i), answers[i], answers'[i]);
    }
    PairingIsIsomorphism(links, e, l);
    FixedPair(m, Null);
    assert SameAnswers(m, answers, answers');
  }

  /** In any mixture of registrations and calls, an eager and a lazy container answer every
      call alike if and only if the unfolded registrations are interchangeable. */
  lemma AgreementIsExact(rank: Rank, ops: seq<Op>)
    requires OpsRanked(true, rank, ops)
    ensures OpsRanked(false, rank, ops)
    ensures AnswerAlike(rank, ops) <==> Interchangeable(rank, ops)
  {
    hide AnswerAlike, Interchangeable;
    RankedEagerly(rank, ops);
    if AnswerAlike(rank, ops) {
      AlikeIsInterchangeable(rank, ops);
    }
    if Interchangeable(rank, ops) {
      InterchangeableIsAlike(rank, ops);
    }
  }
}
