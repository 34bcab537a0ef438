/** What holds in every reachable state of the dispatcher, whatever the interleaving. */
module DispatcherTheorems {
  import opened Options
  import opened Sums
  import opened Dispatcher
  import opened DispatcherInvariant
  import opened DispatcherSteps

  lemma StartInv(listeners: set<nat>)
    ensures Inv(Init(listeners))
  {
    var s := Init(listeners);
    forall i: nat ensures Rc(s.itemRc, i) == Sum(s.lists, ByList(i)) + Sum(s.frames, ByFrame(i)) {}
  }

  lemma {:induction false} RunKeepsInv(s: State, acts: seq<Action>)
    requires Inv(s)
    ensures Inv(RunFrom(s, acts))
    decreases |acts|
  {
    if acts != [] {
      ExecKeepsInv(s, acts[0]);
      RunKeepsInv(Exec(s, acts[0]), acts[1..]);
    }
  }

  /** The invariant holds in every reachable state. */
  lemma ReachableInv(s: State)
    requires Reachable(s)
    ensures Inv(s)
  {
    var acts :| RunFrom(Init(s.listeners), acts) == s;
    StartInv(s.listeners);
    RunKeepsInv(Init(s.listeners), acts);
  }

  // ----- destruction

  lemma OnceFrom(s: State, i: nat)
    requires Counts(s) && i < |s.ids|
    ensures s.itemRc[i] >= 0 && GoneCount(s.log, i) <= 1
    ensures s.itemRc[i] > 0 ==> GoneCount(s.log, i) == 0
    ensures s.itemRc[i] == 0 && GoneCount(s.log, i) == 0 ==>
              exists t :: 0 <= t < |s.frames| && s.frames[t].dying == Some(i)
    ensures GoneCount(s.log, i) == 1 ==>
              s.itemRc[i] == 0 && forall t | 0 <= t < |s.frames| :: s.frames[t].dying != Some(i)
  {
    assert Dead(s.itemRc, i) == GoneCount(s.log, i) + Sum(s.frames, ByDeath(i));
    assert Rc(s.itemRc, i) == Sum(s.lists, ByList(i)) + Sum(s.frames, ByFrame(i));
    if s.itemRc[i] == 0 && GoneCount(s.log, i) == 0 {
      var t := SumPositive(s.frames, ByDeath(i));
      assert s.frames[t].dying == Some(i);
    }
    if GoneCount(s.log, i) == 1 {
      forall t | 0 <= t < |s.frames| ensures s.frames[t].dying != Some(i) {
        SumMember(s.frames, t, ByDeath(i));
      }
    }
  }

  /** UnsubscribeHandler of an item runs at most once, and only after its count has
      reached zero; a count of zero means it has run or that exactly one frame is
      about to run it. */
  lemma HandlerRunsOnce(s: State, i: nat)
    requires Reachable(s) && i < |s.ids| && i < |s.itemRc|
    ensures s.itemRc[i] >= 0 && GoneCount(s.log, i) <= 1
    ensures s.itemRc[i] > 0 ==> GoneCount(s.log, i) == 0
    ensures s.itemRc[i] == 0 && GoneCount(s.log, i) == 0 ==>
              exists t :: 0 <= t < |s.frames| && s.frames[t].dying == Some(i)
    ensures GoneCount(s.log, i) == 1 ==>
              s.itemRc[i] == 0 && forall t | 0 <= t < |s.frames| :: s.frames[t].dying != Some(i)
  {
    ReachableInv(s);
    OnceFrom(s, i);
  }

  /** No UnsubscribeHandler runs, or is about to run, in a frame that holds m_Lock. */
  lemma HandlersRunUnlocked(s: State)
    requires Reachable(s)
    ensures NeverLocked(s.log)
    ensures forall t | 0 <= t < |s.frames| && s.frames[t].dying.Some? :: s.lock != Some(t)
  {
    ReachableInv(s);
    forall t | 0 <= t < |s.frames| && s.frames[t].dying.Some? ensures s.lock != Some(t) {
      assert FrameOk(s, t, s.frames[t]);
    }
  }

  lemma InHandlerIsLive(s: State, t: nat)
    requires Inv(s) && t < |s.frames| && s.frames[t].pc.InHandler?
    ensures s.frames[t].pc.i < |s.frames[t].snap|
    ensures LiveItem(s, s.frames[t].snap[s.frames[t].pc.i])
    ensures GoneCount(s.log, s.frames[t].snap[s.frames[t].pc.i]) == 0
  {
    assert FrameOk(s, t, s.frames[t]);
    OwnInRange(s, t);
    var x := s.frames[t].snap[s.frames[t].pc.i];
    assert x in OwnItems(s, s.frames[t]);
    OnceFrom(s, x);
  }

  /** No message is delivered through an item after its UnsubscribeHandler, and an item
      whose MessageHandler is running is alive. */
  lemma NoDeliveryAfterUnsubscribe(s: State)
    requires Reachable(s)
    ensures NoneAfterGone(s.log)
    ensures forall t | 0 <= t < |s.frames| && s.frames[t].pc.InHandler? ::
              && s.frames[t].pc.i < |s.frames[t].snap|
              && LiveItem(s, s.frames[t].snap[s.frames[t].pc.i])
              && GoneCount(s.log, s.frames[t].snap[s.frames[t].pc.i]) == 0
  {
    ReachableInv(s);
    forall t | 0 <= t < |s.frames| && s.frames[t].pc.InHandler?
      ensures s.frames[t].pc.i < |s.frames[t].snap|
      ensures LiveItem(s, s.frames[t].snap[s.frames[t].pc.i])
      ensures GoneCount(s.log, s.frames[t].snap[s.frames[t].pc.i]) == 0
    {
      InHandlerIsLive(s, t);
    }
  }

  /** No step touches a list or an item that has been freed. */
  lemma NoUseAfterFree(s: State, t: nat)
    requires Reachable(s) && t < |s.frames|
    ensures Safe(s, s.frames[t])
  {
    ReachableInv(s);
    InvIsSafe(s, t);
  }

  predicate Finished(f: Frame) {
    f.pc == Done && Work(f)
  }

  lemma FinishedHoldsNothing(t: nat, s: State, f: Frame)
    requires FrameOk(s, t, f) && Finished(f)
    ensures forall i: nat :: ByFrame(i)(f) == 0 && ByHandle(i)(f) == 0 && ByDeath(i)(f) == 0
  {
  }

  ghost predicate NobodyHolds(s: State) {
    forall t, i: nat | 0 <= t < |s.frames| ::
      ByFrame(i)(s.frames[t]) == 0 && ByHandle(i)(s.frames[t]) == 0 && ByDeath(i)(s.frames[t]) == 0
  }

  lemma OnlyCurrentIsLive(s: State, l: nat)
    requires ListCounts(s) && NobodyHolds(s) && l < |s.lists|
    ensures s.lists[l].rc == One(s.current, l)
  {
    SumZero(s.frames, ByHandle(l));
    assert ListRc(s.lists, l) == One(s.current, l) + Sum(s.frames, ByHandle(l));
  }

  lemma OnlyListedIsLive(s: State, i: nat)
    requires Counts(s) && NobodyHolds(s) && i < |s.ids|
    ensures s.itemRc[i] > 0 <==> i in CurItems(s)
    ensures GoneCount(s.log, i) == (if i in CurItems(s) then 0 else 1)
  {
    SumZero(s.frames, ByFrame(i));
    SumZero(s.frames, ByDeath(i));
    assert Rc(s.itemRc, i) == Sum(s.lists, ByList(i)) + Sum(s.frames, ByFrame(i));
    assert Dead(s.itemRc, i) == GoneCount(s.log, i) + Sum(s.frames, ByDeath(i));
    if i in CurItems(s) {
      CurInRange(s);
    } else if s.itemRc[i] > 0 {
      var l := SumPositive(s.lists, ByList(i));
      OnlyCurrentIsLive(s, l);
    }
  }

  lemma AllFinished(s: State)
    requires FramesOk(s) && forall t | 0 <= t < |s.frames| :: Finished(s.frames[t])
    ensures NobodyHolds(s)
  {
    hide Finished, FrameOk;
    forall t, i: nat | 0 <= t < |s.frames|
      ensures ByFrame(i)(s.frames[t]) == 0 && ByHandle(i)(s.frames[t]) == 0 && ByDeath(i)(s.frames[t]) == 0
    {
      FinishedHoldsNothing(t, s, s.frames[t]);
    }
  }

  /** Nothing leaks: whenever every call has returned, the items alive are exactly those
      of the published list, every other item has had its handler run exactly once,
      and no list but the published one is alive. */
  lemma NothingLeaks(s: State)
    requires Reachable(s) && forall t | 0 <= t < |s.frames| :: Finished(s.frames[t])
    ensures |s.ids| == |s.itemRc|
    ensures forall i | 0 <= i < |s.ids| :: s.itemRc[i] > 0 <==> i in CurItems(s)
    ensures forall i | 0 <= i < |s.ids| :: GoneCount(s.log, i) == (if i in CurItems(s) then 0 else 1)
    ensures forall l | 0 <= l < |s.lists| :: s.lists[l].rc > 0 <==> s.current == Some(l)
  {
    hide FrameOk, Finished, NobodyHolds, Global;
    ReachableInv(s);
    AllFinished(s);
    forall l | 0 <= l < |s.lists| ensures s.lists[l].rc == One(s.current, l) {
      OnlyCurrentIsLive(s, l);
    }
    forall i | 0 <= i < |s.ids|
      ensures s.itemRc[i] > 0 <==> i in CurItems(s)
      ensures GoneCount(s.log, i) == (if i in CurItems(s) then 0 else 1)
    {
      OnlyListedIsLive(s, i);
    }
  }

  // ----- the published list as an atomic ordered set

  /** `s'` is later than `s`: the log and the published lists of `s` are still there. */
  ghost predicate Later(s: State, s': State) {
    && s.log <= s'.log && |s.frames| <= |s'.frames|
    && s.published <= s'.published && |s.lists| <= |s'.lists|
    && forall l | l in s.published && l < |s.lists| :: s'.lists[l].items == s.lists[l].items
  }

  lemma ExecLater(s: State, a: Action)
    requires Inv(s)
    ensures Later(s, Exec(s, a))
  {
    if a.Step? && Enabled(s, a.tid) && Safe(s, s.frames[a.tid]) {
      QuietLater(s, a.tid);
    }
  }

  /** Only the frame building a list, which is private to it, changes a list's text. */
  lemma QuietLater(s: State, t: nat)
    requires Inv(s) && t < |s.frames| && Enabled(s, t) && Safe(s, s.frames[t])
    ensures Later(s, Move(s, t))
  {
    hide Move, Safe;
    assert FrameOk(s, t, s.frames[t]);
    MoveQuiet(s, t);
  }

  lemma {:induction false} RunLater(s: State, acts: seq<Action>)
    requires Inv(s)
    ensures Later(s, RunFrom(s, acts))
    decreases |acts|
  {
    if acts != [] {
      ExecLater(s, acts[0]);
      ExecKeepsInv(s, acts[0]);
      RunLater(Exec(s, acts[0]), acts[1..]);
    }
  }

  /** A list that has been published is never altered, whatever happens later. */
  lemma PublishedListsAreFrozen(s: State, acts: seq<Action>, l: nat)
    requires Reachable(s) && l in s.published
    ensures var s' := RunFrom(s, acts);
            l in s'.published && l < |s.lists| <= |s'.lists| && s'.lists[l].items == s.lists[l].items
  {
    ReachableInv(s);
    RunLater(s, acts);
  }

  lemma {:induction false} EffectPosition(log: seq<Event>, t: nat) returns (k: nat)
    requires EffectsBy(log, t) != []
    ensures k < |log| && log[k].Effect? && log[k].tid == t && (log[k].op, log[k].ret) in EffectsBy(log, t)
  {
    var last := log[|log| - 1];
    if last.Effect? && last.tid == t {
      k := |log| - 1;
    } else {
      k := EffectPosition(log[..|log| - 1], t);
    }
  }

  /** The dispatcher is an atomic ordered set of subscriber ids: the effects of all calls,
      taken in the order in which they happened, return what the ordered set returns and
      leave the published list equal to it; a finished call has had exactly one effect,
      with its own operation and the value it returned. */
  lemma RefinesOrderedSet(s: State)
    requires Reachable(s)
    ensures Agrees(s.log) && Members(s.log) == Sids(s.ids, CurItems(s))
    ensures forall a, b | 0 <= a < b < |Members(s.log)| :: Members(s.log)[a] != Members(s.log)[b]
    ensures forall t | 0 <= t < |s.frames| && Finished(s.frames[t]) ::
              s.frames[t].ret.Some? && EffectsBy(s.log, t) == [(s.frames[t].op, s.frames[t].ret.value)]
  {
    ReachableInv(s);
    var cur := CurItems(s);
    forall a, b | 0 <= a < b < |Members(s.log)| ensures Members(s.log)[a] != Members(s.log)[b] {
      assert Members(s.log)[a] == SidOf(s.ids, cur[a]) && Members(s.log)[b] == SidOf(s.ids, cur[b]);
    }
    forall t | 0 <= t < |s.frames| && Finished(s.frames[t])
      ensures s.frames[t].ret.Some? && EffectsBy(s.log, t) == [(s.frames[t].op, s.frames[t].ret.value)]
    {
      assert FrameOk(s, t, s.frames[t]);
    }
  }

  lemma {:induction false} RemoveOne(pre: seq<nat>, id: nat, post: seq<nat>)
    requires id !in pre && id !in post
    ensures Remove(pre + [id] + post, id) == pre + post
  {
    var all := pre + [id] + post;
    if post == [] {
      assert all[..|pre|] == pre;
      RemoveNone(pre, id);
    } else {
      var n := |post| - 1;
      assert all[..|all| - 1] == pre + [id] + post[..n];
      RemoveOne(pre, id, post[..n]);
      assert post == post[..n] + [post[n]];
    }
  }

  lemma {:induction false} RemoveNone(m: seq<nat>, id: nat)
    requires id !in m
    ensures Remove(m, id) == m
  {
    if m != [] {
      RemoveNone(m[..|m| - 1], id);
    }
  }

  lemma {:induction false} RemoveKeeps(m: seq<nat>, id: nat)
    requires forall a, b | 0 <= a < b < |m| :: m[a] != m[b]
    ensures forall a, b | 0 <= a < b < |Remove(m, id)| :: Remove(m, id)[a] != Remove(m, id)[b]
    ensures forall x | x in Remove(m, id) :: x in m
  {
    if m != [] {
      var n := |m| - 1;
      var kept := Remove(m[..n], id);
      RemoveKeeps(m[..n], id);
      forall a | 0 <= a < |kept| ensures kept[a] != m[n] {
        assert kept[a] in m[..n];
      }
    }
  }

  lemma {:induction false} MembersDistinct(log: seq<Event>)
    ensures forall a, b | 0 <= a < b < |Members(log)| :: Members(log)[a] != Members(log)[b]
  {
    if log != [] {
      var n := |log| - 1;
      MembersDistinct(log[..n]);
      if log[n].Effect? && log[n].op.Unsubscribe? {
        RemoveKeeps(Members(log[..n]), log[n].op.sid);
      }
    }
  }

  /** What each call returns and does to the ordered set at its effect. Subscribing a new id
      appends it and returns it, subscribing a member returns zero; unsubscribing takes out
      exactly the id and tells whether it was there; a send is for the members in their order.
      Nothing else changes the set. */
  lemma EffectsAre(s: State, k: nat)
    requires Reachable(s) && k < |s.log|
    ensures Members([]) == []
    ensures var before, after := Members(s.log[..k]), Members(s.log[..k + 1]);
            match s.log[k]
            case Effect(_, Subscribe(sid), ret) =>
              if sid in before then ret == Id(0) && after == before else ret == Id(sid) && after == before + [sid]
            case Effect(_, Unsubscribe(id), ret) =>
              && ret == Flag(id in before)
              && (id !in before ==> after == before)
              && (forall pre, post | before == pre + [id] + post :: after == pre + post)
            case Effect(_, Send, ret) => ret == To(before) && after == before
            case _ => after == before
  {
    hide Reachable, Inv;
    RefinesOrderedSet(s);
    var before := Members(s.log[..k]);
    assert s.log[..k + 1][..k] == s.log[..k];
    MembersDistinct(s.log[..k]);
    if s.log[k].Effect? && s.log[k].op.Unsubscribe? {
      var id := s.log[k].op.sid;
      if id !in before {
        RemoveNone(before, id);
      }
      forall pre, post | before == pre + [id] + post ensures Remove(before, id) == pre + post {
        SplitDistinct(before, pre, id, post);
        RemoveOne(pre, id, post);
      }
    }
  }

  lemma SplitDistinct(m: seq<nat>, pre: seq<nat>, id: nat, post: seq<nat>)
    requires m == pre + [id] + post && forall a, b | 0 <= a < b < |m| :: m[a] != m[b]
    ensures id !in pre && id !in post
  {
    assert m[|pre|] == id;
    forall a | 0 <= a < |pre| ensures pre[a] != id {
      assert m[a] == pre[a];
    }
    forall b | 0 <= b < |post| ensures post[b] != id {
      assert m[|pre| + 1 + b] == post[b];
    }
  }

  lemma SendFinished(s: State, t: nat, f: Frame)
    requires FrameOk(s, t, f) && f.op.Send? && Finished(f)
    ensures Delivered(s.log, t) == f.snap && EffectsBy(s.log, t) == [(Send, To(Sids(s.ids, f.snap)))]
  {
  }

  /** A finished send has entered MessageHandler exactly once for each member of the
      ordered set at the point where it took effect, in subscription order. */
  lemma SendDeliversToMembers(s: State, t: nat) returns (k: nat)
    requires Reachable(s) && t < |s.frames| && s.frames[t].op.Send? && Finished(s.frames[t])
    ensures k < |s.log| && s.log[k] == Effect(t, Send, To(Members(s.log[..k])))
    ensures Sids(s.ids, Delivered(s.log, t)) == Members(s.log[..k])
  {
    ReachableInv(s);
    SendFinished(s, t, s.frames[t]);
    k := EffectPosition(s.log, t);
    assert Agrees(s.log);
  }

  lemma NoEffectElsewhere(log: seq<Event>, t: nat, n: nat, k: nat)
    requires n <= k < |log| && EffectsBy(log[..n], t) != [] && |EffectsBy(log, t)| == 1
    ensures !(log[k].Effect? && log[k].tid == t)
  {
    EffectsMonotone(log, t, n, k);
    EffectsMonotone(log, t, k + 1, |log|);
    assert log[..k + 1][..k] == log[..k];
    assert log[..|log|] == log;
  }

  lemma {:induction false} EffectsMonotone(log: seq<Event>, t: nat, n: nat, m: nat)
    requires n <= m <= |log|
    ensures |EffectsBy(log[..n], t)| <= |EffectsBy(log[..m], t)|
  {
    if n < m {
      EffectsMonotone(log, t, n, m - 1);
      assert log[..m][..m - 1] == log[..m - 1];
    }
  }

  lemma EffectsInOrder(log: seq<Event>, log': seq<Event>, frames: nat, t: nat, u: nat, k: nat, j: nat)
    requires log <= log' && forall i | 0 <= i < |log| :: log[i].tid < frames
    requires t < frames <= u && EffectsBy(log, t) != [] && |EffectsBy(log', t)| <= 1
    requires k < |log'| && log'[k].Effect? && log'[k].tid == t
    requires j < |log'| && log'[j].Effect? && log'[j].tid == u
    ensures k < j
  {
    assert log'[..|log|] == log;
    EffectsMonotone(log', t, |log|, |log'|);
    assert log'[..|log'|] == log';
    if k >= |log| {
      NoEffectElsewhere(log', t, |log|, k);
    }
  }

  lemma AtMostOneEffect(s: State, t: nat)
    requires Inv(s) && t < |s.frames|
    ensures |EffectsBy(s.log, t)| <= 1
    ensures Finished(s.frames[t]) ==> EffectsBy(s.log, t) != []
  {
    assert FrameOk(s, t, s.frames[t]);
  }

  /** The order of effects respects real time: a call that had returned before another
      one began took effect first. */
  lemma RealTimeOrder(s: State, acts: seq<Action>, s': State, t: nat, u: nat, k: nat, j: nat)
    requires Reachable(s) && s' == RunFrom(s, acts)
    requires t < |s.frames| <= u && Finished(s.frames[t])
    requires k < |s'.log| && s'.log[k].Effect? && s'.log[k].tid == t
    requires j < |s'.log| && s'.log[j].Effect? && s'.log[j].tid == u
    ensures k < j
  {
    ReachableInv(s);
    RunLater(s, acts);
    RunKeepsInv(s, acts);
    AtMostOneEffect(s, t);
    AtMostOneEffect(s', t);
    EffectsInOrder(s.log, s'.log, |s.frames|, t, u, k, j);
  }

  // ----- waiting

  /** The frame that holds m_Lock never waits for anything. */
  lemma LockHolderCanMove(s: State, t: nat)
    requires Reachable(s) && s.lock == Some(t)
    ensures Enabled(s, t)
  {
    ReachableInv(s);
  }

  /** A listener handles one message at a time. */
  lemma ListenersAreSerialised(s: State, t: nat, u: nat)
    requires Reachable(s) && t < |s.frames| && u < |s.frames|
    requires s.frames[t].pc.InHandler? && s.frames[u].pc.InHandler?
    ensures s.frames[t].pc.i < |s.frames[t].snap| && s.frames[u].pc.i < |s.frames[u].snap|
    ensures var sid := SidOf(s.ids, s.frames[t].snap[s.frames[t].pc.i]);
            sid in s.listeners && SidOf(s.ids, s.frames[u].snap[s.frames[u].pc.i]) == sid ==> t == u
  {
    ReachableInv(s);
    assert FrameOk(s, t, s.frames[t]) && FrameOk(s, u, s.frames[u]);
  }
}
