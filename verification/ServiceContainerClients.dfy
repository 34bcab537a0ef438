/** What clients can see of a container: they follow the pointers they are given into the
    objects' constructor arguments, look at concrete types and compare pointers. */
module ServiceContainerClients {
  import opened Options
  import opened ServiceContainer
  import opened ServiceContainerNames
  import opened ServiceContainerRuns
  import opened ServiceContainerGraphs
  import opened ServiceContainerBirths
  import opened ServiceContainerModes

  /** The pointer found by following argument positions, where they exist. */
  ghost function Follow(heap: seq<Obj>, ref: Ref, path: seq<nat>): (r: Option<Ref>)
    ensures path == [] ==> r == Some(ref)
    decreases |path|
  {
    if path == [] then Some(ref)
    else if ref.Built? && ref.addr < |heap| && path[0] < |heap[ref.addr].args| then
      Follow(heap, heap[ref.addr].args[path[0]], path[1..])
    else None
  }

  /** What there is to see at a pointer itself. */
  datatype Sight = Pointer(ref: Ref) | Object(concrete: nat, arguments: nat) | Nothing

  ghost function Seen(heap: seq<Obj>, p: Option<Ref>): Sight {
    match p
    case None => Nothing
    case Some(Built(a)) => if a < |heap| then Object(heap[a].maker.concrete, |heap[a].args|) else Nothing
    case Some(r) => Pointer(r)
  }

  /** Two pointers a client holds, reached from two answers, are the same object. */
  ghost predicate Identical(p: Option<Ref>, q: Option<Ref>) {
    p == q && p.Some? && p.value.Built?
  }

  /** Nothing a client can reach looks different, and pointers are equal for the one container
      where they are for the other. */
  ghost predicate CannotTell(heap: seq<Obj>, answers: seq<Ref>, heap': seq<Obj>, answers': seq<Ref>) {
    && |answers| == |answers'|
    && (forall i, path: seq<nat> | 0 <= i < |answers| ::
          Seen(heap, Follow(heap, answers[i], path)) == Seen(heap', Follow(heap', answers'[i], path)))
    && (forall i, path: seq<nat>, j, path': seq<nat> | 0 <= i < |answers| && 0 <= j < |answers| ::
          Identical(Follow(heap, answers[i], path), Follow(heap, answers[j], path'))
          <==> Identical(Follow(heap', answers'[i], path), Follow(heap', answers'[j], path')))
  }

  // ----- a pairing hides the difference

  lemma {:induction false} FollowPaired(m: map<nat, nat>, heap: seq<Obj>, heap': seq<Obj>, p: Ref, q: Ref,
                                        path: seq<nat>)
    requires Isomorphism(m, heap, heap') && SameRef(m, p, q)
    ensures var r, r' := Follow(heap, p, path), Follow(heap', q, path);
            (r.Some? <==> r'.Some?) && (r.Some? ==> SameRef(m, r.value, r'.value))
    decreases |path|
  {
    if path != [] && p.Built? {
      assert SameObj(m, heap[p.addr], heap'[m[p.addr]]);
      if path[0] < |heap[p.addr].args| {
        FollowPaired(m, heap, heap', heap[p.addr].args[path[0]], heap'[q.addr].args[path[0]], path[1..]);
      }
    }
  }

  lemma PairedIsHidden(m: map<nat, nat>, heap: seq<Obj>, answers: seq<Ref>, heap': seq<Obj>, answers': seq<Ref>)
    requires Isomorphism(m, heap, heap') && SameAnswers(m, answers, answers')
    ensures CannotTell(heap, answers, heap', answers')
  {
    hide Follow;
    forall i, path: seq<nat> | 0 <= i < |answers|
      ensures Seen(heap, Follow(heap, answers[i], path)) == Seen(heap', Follow(heap', answers'[i], path))
    {
      FollowPaired(m, heap, heap', answers[i], answers'[i], path);
    }
    forall i, path: seq<nat>, j, path': seq<nat> | 0 <= i < |answers| && 0 <= j < |answers|
      ensures Identical(Follow(heap, answers[i], path), Follow(heap, answers[j], path'))
              <==> Identical(Follow(heap', answers'[i], path), Follow(heap', answers'[j], path'))
    {
      FollowPaired(m, heap, heap', answers[i], answers'[i], path);
      FollowPaired(m, heap, heap', answers[j], answers'[j], path');
    }
  }

  // ----- a hidden difference is a pairing

  lemma {:induction false} FollowOn(heap: seq<Obj>, p: Ref, path: seq<nat>, k: nat)
    requires Follow(heap, p, path).Some?
    ensures Follow(heap, p, path + [k]) == Follow(heap, Follow(heap, p, path).value, [k])
    decreases |path|
  {
    if path != [] {
      assert (path + [k])[1..] == path[1..] + [k];
      FollowOn(heap, heap[p.addr].args[path[0]], path[1..], k);
    }
  }

  /** Following the same path from the same answer leads to a and b. */
  ghost predicate Meet(heap: seq<Obj>, answers: seq<Ref>, heap': seq<Obj>, answers': seq<Ref>, a: nat, b: nat) {
    exists i, path: seq<nat> ::
      && 0 <= i < |answers| && i < |answers'|
      && Follow(heap, answers[i], path) == Some(Built(a)) && Follow(heap', answers'[i], path) == Some(Built(b))
  }

  ghost function Met(heap: seq<Obj>, answers: seq<Ref>, heap': seq<Obj>, answers': seq<Ref>, a: nat): (b: nat)
    requires exists b: nat :: Meet(heap, answers, heap', answers', a, b)
    ensures Meet(heap, answers, heap', answers', a, b)
  {
    var b: nat :| Meet(heap, answers, heap', answers', a, b); b
  }

  ghost function Meetings(heap: seq<Obj>, answers: seq<Ref>, heap': seq<Obj>, answers': seq<Ref>): map<nat, nat> {
    map a: nat | a < |heap| && (exists b: nat :: Meet(heap, answers, heap', answers', a, b))
      :: Met(heap, answers, heap', answers', a)
  }

  ghost predicate InRange(heap: seq<Obj>, refs: seq<Ref>) {
    forall k | 0 <= k < |refs| :: refs[k].Built? ==> refs[k].addr < |heap|
  }

  ghost predicate Whole(heap: seq<Obj>, answers: seq<Ref>) {
    InRange(heap, answers) && forall a | 0 <= a < |heap| :: InRange(heap, heap[a].args)
  }

  lemma {:induction false} FollowInRange(heap: seq<Obj>, answers: seq<Ref>, p: Ref, path: seq<nat>)
    requires Whole(heap, answers) && (p.Built? ==> p.addr < |heap|)
    ensures var r := Follow(heap, p, path); r.Some? && r.value.Built? ==> r.value.addr < |heap|
    decreases |path|
  {
    if path != [] && p.Built? && path[0] < |heap[p.addr].args| {
      assert InRange(heap, heap[p.addr].args);
      FollowInRange(heap, answers, heap[p.addr].args[path[0]], path[1..]);
    }
  }

  /** What is followed alike is paired. */
  lemma FollowMeets(heap: seq<Obj>, answers: seq<Ref>, heap': seq<Obj>, answers': seq<Ref>, i: nat, path: seq<nat>)
    requires CannotTell(heap, answers, heap', answers') && Whole(heap, answers) && Whole(heap', answers')
    requires i < |answers| && Follow(heap, answers[i], path).Some?
    ensures Follow(heap', answers'[i], path).Some?
    ensures SameRef(Meetings(heap, answers, heap', answers'),
                    Follow(heap, answers[i], path).value, Follow(heap', answers'[i], path).value)
  {
    hide Follow, Whole;
    var r, r' := Follow(heap, answers[i], path), Follow(heap', answers'[i], path);
    assert Seen(heap, r) == Seen(heap', r');
    AnswerInRange(heap, answers, i);
    FollowInRange(heap, answers, answers[i], path);
    if r.value.Built? {
      var a, b := r.value.addr, r'.value.addr;
      assert Meet(heap, answers, heap', answers', a, b);
      var c := Met(heap, answers, heap', answers', a);
      var j, path': seq<nat> :| 0 <= j < |answers| && Follow(heap, answers[j], path') == Some(Built(a))
                      && Follow(heap', answers'[j], path') == Some(Built(c));
      assert Identical(Follow(heap, answers[i], path), Follow(heap, answers[j], path'));
      assert Identical(r', Follow(heap', answers'[j], path'));
    }
  }

  lemma AnswerInRange(heap: seq<Obj>, answers: seq<Ref>, i: nat)
    requires Whole(heap, answers) && i < |answers|
    ensures answers[i].Built? ==> answers[i].addr < |heap|
  {
  }

  lemma MeetingsAlike(heap: seq<Obj>, answers: seq<Ref>, heap': seq<Obj>, answers': seq<Ref>, a: nat)
    requires CannotTell(heap, answers, heap', answers') && Whole(heap, answers) && Whole(heap', answers')
    requires var m := Meetings(heap, answers, heap', answers'); a in m
    ensures var m := Meetings(heap, answers, heap', answers');
            a < |heap| && m[a] < |heap'| && SameObj(m, heap[a], heap'[m[a]])
  {
    hide Follow, Whole;
    var m := Meetings(heap, answers, heap', answers');
    var b := m[a];
    var i, path: seq<nat> :| 0 <= i < |answers| && Follow(heap, answers[i], path) == Some(Built(a))
                   && Follow(heap', answers'[i], path) == Some(Built(b));
    AnswerInRange(heap', answers', i);
    FollowInRange(heap', answers', answers'[i], path);
    assert Seen(heap, Follow(heap, answers[i], path)) == Seen(heap', Follow(heap', answers'[i], path));
    forall k | 0 <= k < |heap[a].args| ensures SameRef(m, heap[a].args[k], heap'[b].args[k]) {
      FollowOn(heap, answers[i], path, k);
      FollowOn(heap', answers'[i], path, k);
      OneStep(heap, a, k);
      OneStep(heap', b, k);
      FollowMeets(heap, answers, heap', answers', i, path + [k]);
    }
  }

  lemma OneStep(heap: seq<Obj>, a: nat, k: nat)
    requires a < |heap| && k < |heap[a].args|
    ensures Follow(heap, Built(a), [k]) == Some(heap[a].args[k])
  {
  }

  lemma MeetingsInjective(heap: seq<Obj>, answers: seq<Ref>, heap': seq<Obj>, answers': seq<Ref>, a: nat, b: nat)
    requires CannotTell(heap, answers, heap', answers')
    requires var m := Meetings(heap, answers, heap', answers'); a in m && b in m && m[a] == m[b]
    ensures a == b
  {
    hide Follow;
    var m := Meetings(heap, answers, heap', answers');
    var i, path: seq<nat> :| 0 <= i < |answers| && Follow(heap, answers[i], path) == Some(Built(a))
                   && Follow(heap', answers'[i], path) == Some(Built(m[a]));
    var j, path': seq<nat> :| 0 <= j < |answers| && Follow(heap, answers[j], path') == Some(Built(b))
                    && Follow(heap', answers'[j], path') == Some(Built(m[b]));
    assert Identical(Follow(heap', answers'[i], path), Follow(heap', answers'[j], path'));
    assert Identical(Follow(heap, answers[i], path), Follow(heap, answers[j], path'));
  }

  lemma HiddenIsPaired(heap: seq<Obj>, answers: seq<Ref>, heap': seq<Obj>, answers': seq<Ref>)
    requires CannotTell(heap, answers, heap', answers') && Whole(heap, answers) && Whole(heap', answers')
    ensures var m := Meetings(heap, answers, heap', answers');
            Isomorphism(m, heap, heap') && SameAnswers(m, answers, answers')
  {
    hide CannotTell, Whole, Meetings, SameRef, SameObj;
    var m := Meetings(heap, answers, heap', answers');
    forall a | a in m ensures a < |heap| && m[a] < |heap'| && SameObj(m, heap[a], heap'[m[a]]) {
      MeetingsAlike(heap, answers, heap', answers', a);
    }
    forall a, b | a in m && b in m && m[a] == m[b] ensures a == b {
      MeetingsInjective(heap, answers, heap', answers', a, b);
    }
    SameNumber(heap, answers, heap', answers');
    forall i | 0 <= i < |answers| ensures SameRef(m, answers[i], answers'[i]) {
      FollowMeets(heap, answers, heap', answers', i, []);
    }
  }

  lemma SameNumber(heap: seq<Obj>, answers: seq<Ref>, heap': seq<Obj>, answers': seq<Ref>)
    requires CannotTell(heap, answers, heap', answers')
    ensures |answers| == |answers'|
  {
  }

  lemma RunIsWhole(lazy: bool, rank: Rank, ops: seq<Op>)
    requires OpsRanked(lazy, rank, ops)
    ensures var (s, answers) := Run(lazy, rank, ops, |ops|); Whole(s.heap, answers)
  {
    hide Run, Times, ServicesMatch, RootsTimed, OpsRanked, NamesFit;
    RunKnown(lazy, rank, ops, |ops|);
    RankedGivenOnly(lazy, rank, ops);
    var (s, answers) := Run(lazy, rank, ops, |ops|);
    var times := Times(lazy, rank, ops, |ops|);
    forall i | 0 <= i < |answers| ensures answers[i].Built? ==> answers[i].addr < |s.heap| {
      assert ResultIs(ops, s.names, times, i, answers[i]);
    }
    forall a, k | 0 <= a < |s.heap| && 0 <= k < |s.heap[a].args|
      ensures s.heap[a].args[k].Built? ==> s.heap[a].args[k].addr < |s.heap|
    {
      assert Described(ops, times[a], s.names, times, s.heap[a], s.names[a]);
    }
  }

  /** The containers answer alike if and only if no client can tell them apart. */
  lemma NoClientCanTell(rank: Rank, ops: seq<Op>)
    requires OpsRanked(true, rank, ops)
    ensures OpsRanked(false, rank, ops)
    ensures var (e, answers) := Run(false, rank, ops, |ops|);
            var (l, answers') := Run(true, rank, ops, |ops|);
            AnswerAlike(rank, ops) <==> CannotTell(e.heap, answers, l.heap, answers')
  {
    hide Run, OpsRanked, Isomorphism, CannotTell, Whole;
    RankedEagerly(rank, ops);
    var (e, answers) := Run(false, rank, ops, |ops|);
    var (l, answers') := Run(true, rank, ops, |ops|);
    RunIsWhole(false, rank, ops);
    RunIsWhole(true, rank, ops);
    if AnswerAlike(rank, ops) {
      var m :| Isomorphism(m, e.heap, l.heap) && SameAnswers(m, answers, answers');
      PairedIsHidden(m, e.heap, answers, l.heap, answers');
    }
    if CannotTell(e.heap, answers, l.heap, answers') {
      HiddenIsPaired(e.heap, answers, l.heap, answers');
    }
  }
}
