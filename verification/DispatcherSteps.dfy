/** Every step of the dispatcher machine keeps the invariant. */
module DispatcherSteps {
  import opened Options
  import opened Sums
  import opened Dispatcher
  import opened DispatcherInvariant

  // ----- how a step of frame `t` carries the counts, the others and the globals over

  ghost predicate OneFrame(s: State, s': State, t: nat) {
    t < |s.frames| && |s'.frames| == |s.frames| && s'.frames == s.frames[t := s'.frames[t]]
  }

  ghost predicate OneList(ls: seq<SubList>, ls': seq<SubList>, k: nat) {
    ls' == ls || (k < |ls| && |ls'| == |ls| && ls' == ls[k := ls'[k]])
  }

  /** The change of a list's references to item `i`, when only list `k` changed. */
  ghost function ListDelta(ls: seq<SubList>, ls': seq<SubList>, k: nat, i: nat): int
    requires OneList(ls, ls', k)
  {
    if ls' == ls then 0 else ListHolds(ls'[k], i) - ListHolds(ls[k], i)
  }

  lemma ItemCountsKept(s: State, s': State, t: nat, k: nat)
    requires ItemCounts(s) && OneFrame(s, s', t) && OneList(s.lists, s'.lists, k)
    requires forall i: nat :: Rc(s'.itemRc, i) - Rc(s.itemRc, i)
                == FrameHolds(s'.frames[t], i) - FrameHolds(s.frames[t], i) + ListDelta(s.lists, s'.lists, k, i)
    ensures ItemCounts(s')
  {
    forall i: nat ensures Rc(s'.itemRc, i) == Sum(s'.lists, ByList(i)) + Sum(s'.frames, ByFrame(i)) {
      assert Rc(s.itemRc, i) == Sum(s.lists, ByList(i)) + Sum(s.frames, ByFrame(i));
      SumUpdate(s.frames, t, s'.frames[t], ByFrame(i));
      if s'.lists != s.lists { SumUpdate(s.lists, k, s'.lists[k], ByList(i)); }
    }
  }

  lemma ListCountsKept(s: State, s': State, t: nat)
    requires ListCounts(s) && OneFrame(s, s', t)
    requires forall l: nat :: ListRc(s'.lists, l) - ListRc(s.lists, l)
                == One(s'.frames[t].list, l) - One(s.frames[t].list, l) + One(s'.current, l) - One(s.current, l)
    ensures ListCounts(s')
  {
    forall l: nat ensures ListRc(s'.lists, l) == One(s'.current, l) + Sum(s'.frames, ByHandle(l)) {
      assert ListRc(s.lists, l) == One(s.current, l) + Sum(s.frames, ByHandle(l));
      SumUpdate(s.frames, t, s'.frames[t], ByHandle(l));
    }
  }

  lemma DeathsKept(s: State, s': State, t: nat)
    requires Deaths(s) && OneFrame(s, s', t)
    requires forall i: nat :: Dead(s'.itemRc, i) - Dead(s.itemRc, i)
                == GoneCount(s'.log, i) - GoneCount(s.log, i)
                   + One(s'.frames[t].dying, i) - One(s.frames[t].dying, i)
    ensures Deaths(s')
  {
    forall i: nat ensures Dead(s'.itemRc, i) == GoneCount(s'.log, i) + Sum(s'.frames, ByDeath(i)) {
      assert Dead(s.itemRc, i) == GoneCount(s.log, i) + Sum(s.frames, ByDeath(i));
      SumUpdate(s.frames, t, s'.frames[t], ByDeath(i));
    }
  }

  lemma LockKept(s: State, s': State, t: nat)
    requires LockOk(s) && OneFrame(s, s', t) && s'.lock == s.lock
    requires Locked(s'.frames[t].pc) == Locked(s.frames[t].pc)
    ensures LockOk(s')
  {
  }

  /** Steps that publish nothing and keep the lock and the effects as they are. */
  lemma GlobalKept(s: State, s': State, t: nat)
    requires Global(s) && OneFrame(s, s', t)
    requires s.ids <= s'.ids && |s'.ids| == |s'.itemRc| && s'.current == s.current && s'.published == s.published
    requires |s.lists| <= |s'.lists| && CurItems(s') == CurItems(s) && s'.lock == s.lock
    requires Locked(s'.frames[t].pc) == Locked(s.frames[t].pc)
    requires forall x | x in CurItems(s) :: LiveItem(s, x)
    requires LogOk(s'.log, |s.frames|, Members(s.log))
    ensures Global(s')
  {
    var cur := CurItems(s);
    SidsSame(s.ids, s'.ids, cur);
    LockKept(s, s', t);
    forall k | 0 <= k < |cur| ensures SidOf(s'.ids, cur[k]) == SidOf(s.ids, cur[k]) {
      assert cur[k] in cur;
    }
  }

  /** As GlobalKept, for a step that logs nothing. */
  lemma GlobalSameLog(s: State, s': State, t: nat)
    requires Global(s) && OneFrame(s, s', t) && s'.log == s.log
    requires s.ids <= s'.ids && |s'.ids| == |s'.itemRc| && s'.current == s.current && s'.published == s.published
    requires |s.lists| <= |s'.lists| && CurItems(s') == CurItems(s) && s'.lock == s.lock
    requires Locked(s'.frames[t].pc) == Locked(s.frames[t].pc)
    requires forall x | x in CurItems(s) :: LiveItem(s, x)
    ensures Global(s')
  {
    GlobalKept(s, s', t);
  }

  /** What `t` knows about another frame `u`. */
  ghost predicate Apart(s: State, t: nat, u: nat)
    requires t < |s.frames| && u < |s.frames|
  {
    var f, g := s.frames[t], s.frames[u];
    && Shape(g)
    && (Building(g) ==> Private(s, g.list.value) && g.list != f.list)
    && (Building(f) ==> g.list != f.list)
    && (Seen(s.published, g))
    && BusyOk(s.listeners, s.busy, s.ids, u, g)
    && (g.list.Some? ==> g.list.value < |s.lists|)
    && (Locked(f.pc) ==> !Locked(g.pc))
  }

  /** What the invariant says where frame `t` is about to act. */
  ghost predicate Here(s: State, t: nat) {
    && t < |s.frames|
    && FrameOk(s, t, s.frames[t]) && Safe(s, s.frames[t])
    && (s.frames[t].list.Some? ==> s.frames[t].list.value < |s.lists| && s.lists[s.frames[t].list.value].rc > 0)
    && (s.current.Some? ==> s.current.value < |s.lists| && s.lists[s.current.value].rc > 0)
    && (forall x | x in CurItems(s) :: LiveItem(s, x))
  }

  ghost predicate At(s: State, t: nat) {
    Here(s, t) && forall u | 0 <= u < |s.frames| && u != t :: Apart(s, t, u)
  }

  lemma InvAt(s: State, t: nat)
    requires Inv(s) && t < |s.frames|
    ensures At(s, t) && Here(s, t) && Counts(s) && FramesOk(s) && Global(s)
  {
    InvIsSafe(s, t);
    CurInRange(s);
    if s.frames[t].list.Some? { HandleIsLive(s, t); }
    if s.current.Some? { CurrentIsLive(s); }
    forall u | 0 <= u < |s.frames| && u != t
      ensures Apart(s, t, u)
    {
      assert FrameOk(s, u, s.frames[u]);
      if s.frames[u].list.Some? { HandleIsLive(s, u); }
      if Building(s.frames[u]) { PrivateUnshared(s, t, u); }
      if Building(s.frames[t]) { PrivateUnshared(s, u, t); }
    }
  }

  ghost predicate Others(s: State, s': State, t: nat) {
    |s'.frames| == |s.frames| && forall u | 0 <= u < |s.frames| && u != t :: Shape(s.frames[u]) && Untouched(s, s', u)
  }

  /** What a step of frame `t` may change: its own frame and list, the references to the
      published list, the published list itself if it holds the lock, the listener locks
      it holds, and one event of its own at the end of the log. */
  ghost predicate Quiet(s: State, s': State, t: nat) {
    && OneFrame(s, s', t)
    && s.ids <= s'.ids && s'.listeners == s.listeners && |s.lists| <= |s'.lists|
    && (forall l | 0 <= l < |s.lists| && s.frames[t].list != Some(l) ::
          && s'.lists[l].items == s.lists[l].items
          && (s.current != Some(l) ==> s'.lists[l].rc == s.lists[l].rc))
    && (forall l | 0 <= l < |s.lists| && !Building(s.frames[t]) :: s'.lists[l].items == s.lists[l].items)
    && (s'.current == s.current || (Locked(s.frames[t].pc) && s'.current == s.frames[t].list))
    && (s'.published == s.published
        || (s.frames[t].list.Some? && s'.published == s.published + {s.frames[t].list.value}))
    && (forall b | b in s.busy && s.busy[b] != t :: b in s'.busy && s'.busy[b] == s.busy[b])
    && (s'.log == s.log
        || (|s'.log| == |s.log| + 1 && s'.log[..|s.log|] == s.log && s'.log[|s.log|].tid == t))
  }

  /** The frame's own record of what it delivered and returned moves with the log. */
  ghost predicate Recorded(s: State, s': State, t: nat)
    requires OneFrame(s, s', t)
  {
    var f, f' := s.frames[t], s'.frames[t];
    && f'.op == f.op
    && (s'.log == s.log ==> DeliveredSoFar(f') == DeliveredSoFar(f) && f'.ret == f.ret)
    && (|s'.log| == |s.log| + 1 ==>
          var e := s'.log[|s.log|];
          && DeliveredSoFar(f') == DeliveredSoFar(f) + (if e.Begun? then [e.item] else [])
          && (if e.Effect? then f.ret.None? && f'.ret == Some(e.ret) && e.op == f.op else f'.ret == f.ret))
  }

  lemma RecordedTraced(s: State, s': State, t: nat)
    requires Quiet(s, s', t) && Recorded(s, s', t) && Traced(s.log, t, s.frames[t])
    ensures Traced(s'.log, t, s'.frames[t])
  {
    if s'.log != s.log {
      assert s'.log == s.log + [s'.log[|s.log|]];
      TraceAppend(s.log, s'.log[|s.log|], t);
    }
  }

  lemma TraceSame(s: State, s': State, t: nat, u: nat, f: Frame)
    requires Quiet(s, s', t) && u != t && Traced(s.log, u, f)
    ensures Traced(s'.log, u, f)
  {
    if s'.log != s.log {
      assert s'.log == s.log + [s'.log[|s.log|]];
      TraceAppend(s.log, s'.log[|s.log|], u);
    }
  }

  lemma OthersQuiet(s: State, s': State, t: nat)
    requires At(s, t) && Quiet(s, s', t)
    ensures Others(s, s', t)
  {
    forall u | 0 <= u < |s.frames| && u != t ensures Shape(s.frames[u]) && Untouched(s, s', u) {
      assert Apart(s, t, u);
      QuietUntouched(s, s', t, u);
    }
  }

  lemma QuietUntouched(s: State, s': State, t: nat, u: nat)
    requires Here(s, t) && Quiet(s, s', t) && u < |s.frames| && u != t && Apart(s, t, u)
    ensures Untouched(s, s', u)
  {
    hide LiveList, LiveItem, Progress, SnapOk, Safe, Seen, Guarded, Sids, Traced;
    if Traced(s.log, u, s.frames[u]) { TraceSame(s, s', t, u, s.frames[u]); }
  }

  /** The parts of a step put together. */
  lemma Finish(s: State, s': State, t: nat)
    requires Counts(s) && FramesOk(s) && At(s, t) && Quiet(s, s', t) && Recorded(s, s', t)
    requires Counts(s') && Global(s') && Placed(s', t, s'.frames[t])
    ensures Inv(s')
  {
    RecordedTraced(s, s', t);
    OthersQuiet(s, s', t);
    forall u | 0 <= u < |s'.frames|
      ensures FrameOk(s', u, s'.frames[u])
    {
      if u != t {
        FrameRule(s, s', u);
      }
    }
  }

  // ----- destruction

  lemma DestructorCounts(s: State, t: nat)
    requires Counts(s) && t < |s.frames| && s.frames[t].dying.Some?
    ensures Counts(RunDestructor(s, t))
  {
    var s' := RunDestructor(s, t);
    ItemCountsKept(s, s', t, 0);
    ListCountsKept(s, s', t);
    LogAppend(s.log, s'.log[|s.log|]);
    DeathsKept(s, s', t);
  }

  lemma DestructorGlobal(s: State, t: nat)
    requires Global(s) && Here(s, t) && s.frames[t].dying.Some?
    ensures Global(RunDestructor(s, t))
  {
    hide Traced, Progress, SnapOk, Seen, BusyOk, Without, NoSid, HeldOk, LiveList;
    var s' := RunDestructor(s, t);
    LogAppend(s.log, s'.log[|s.log|]);
    GlobalKept(s, s', t);
  }

  lemma DestructorOwn(s: State, t: nat)
    requires Here(s, t) && s.frames[t].dying.Some?
    ensures Placed(RunDestructor(s, t), t, RunDestructor(s, t).frames[t])
  {
    hide Traced, Sids, LiveList;
  }

  lemma DestructorQuiet(s: State, t: nat)
    requires Here(s, t) && s.frames[t].dying.Some?
    ensures Quiet(s, RunDestructor(s, t), t) && Recorded(s, RunDestructor(s, t), t)
  {
    hide Traced, Progress, Guarded, SnapOk, Seen, Without, NoSid, HeldOk, LiveList;
  }

  lemma DestructorKeeps(s: State, t: nat)
    requires Inv(s) && t < |s.frames| && s.frames[t].dying.Some?
    ensures Inv(RunDestructor(s, t))
  {
    hide *;
    InvAt(s, t);
    DestructorCounts(s, t);
    DestructorGlobal(s, t);
    DestructorOwn(s, t);
    DestructorQuiet(s, t);
    Finish(s, RunDestructor(s, t), t);
  }

  lemma DropOneCounts(s: State, t: nat)
    requires Counts(s) && Here(s, t) && s.frames[t].dying.None? && s.frames[t].drops != []
    ensures Counts(DropOne(s, t))
  {
    hide Progress, Traced, Guarded, Seen, BusyOk, SnapOk, LiveList, Placed;
    var f := s.frames[t];
    var x := f.drops[0];
    var s' := DropOne(s, t);
    assert f.drops == [x] + f.drops[1..];
    ItemCountsKept(s, s', t, 0);
    ListCountsKept(s, s', t);
    SumMember(s.frames, t, ByFrame(x));
    assert Rc(s.itemRc, x) >= 1;
    DeathsKept(s, s', t);
  }

  /** Under the lock no release is the last one. */
  lemma LockedDropIsNotLast(s: State, t: nat)
    requires Counts(s) && Here(s, t) && s.frames[t].drops != [] && Locked(s.frames[t].pc)
    ensures s.frames[t].drops[0] < |s.itemRc| && s.itemRc[s.frames[t].drops[0]] >= 2
  {
    var f := s.frames[t];
    var x := f.drops[0];
    assert x in multiset(f.drops);
    if f.held == Some(x) {
      SumMember(s.frames, t, ByFrame(x));
      assert Rc(s.itemRc, x) >= 2;
    } else {
      ListedAndHeld(s, s.current.value, t, x);
    }
  }

  lemma DropOneOwn(s: State, t: nat)
    requires Here(s, t)
    requires s.frames[t].dying.None? && s.frames[t].drops != []
    requires Locked(s.frames[t].pc) ==> s.itemRc[s.frames[t].drops[0]] >= 2
    ensures Placed(DropOne(s, t), t, DropOne(s, t).frames[t])
  {
    hide Traced, Sids, LiveList, Without, NoSid, HeldOk;
    var f, s' := s.frames[t], DropOne(s, t);
    assert forall x | x in f.drops[1..] :: x in f.drops;
  }

  lemma DropOneQuiet(s: State, t: nat)
    requires Here(s, t) && s.frames[t].dying.None? && s.frames[t].drops != []
    ensures Quiet(s, DropOne(s, t), t) && Recorded(s, DropOne(s, t), t)
  {
    hide Traced, Progress, Guarded, SnapOk, Seen, Without, NoSid, HeldOk, LiveList;
  }

  lemma DropOneGlobal(s: State, t: nat)
    requires Global(s) && Here(s, t) && s.frames[t].dying.None? && s.frames[t].drops != []
    ensures Global(DropOne(s, t))
  {
    hide Traced, Progress, Guarded, SnapOk, Seen, BusyOk, Without, NoSid, HeldOk, LiveList;
    GlobalSameLog(s, DropOne(s, t), t);
  }

  lemma DropOneKeeps(s: State, t: nat)
    requires Inv(s) && t < |s.frames| && s.frames[t].dying.None? && s.frames[t].drops != [] && Safe(s, s.frames[t])
    ensures Inv(DropOne(s, t))
  {
    hide *;
    InvAt(s, t);
    DropOneCounts(s, t);
    DropOneGlobal(s, t);
    if Locked(s.frames[t].pc) { LockedDropIsNotLast(s, t); }
    DropOneOwn(s, t);
    DropOneQuiet(s, t);
    Finish(s, DropOne(s, t), t);
  }

  // ----- allocation and the lock

  lemma NewListCounts(s: State, t: nat, pc: Pc)
    requires Counts(s) && t < |s.frames| && s.frames[t].list.None?
    requires s.current.Some? ==> s.current.value < |s.lists|
    ensures Counts(NewList(s, t, pc))
  {
    var s' := NewList(s, t, pc);
    forall i: nat ensures Rc(s'.itemRc, i) == Sum(s'.lists, ByList(i)) + Sum(s'.frames, ByFrame(i)) {
      assert Rc(s.itemRc, i) == Sum(s.lists, ByList(i)) + Sum(s.frames, ByFrame(i));
      SumUpdate(s.frames, t, s'.frames[t], ByFrame(i));
      SumAppend(s.lists, SubList([], 1), ByList(i));
    }
    ListCountsKept(s, s', t);
    DeathsKept(s, s', t);
  }

  lemma SubAllocOwn(s: State, t: nat)
    requires t < |s.frames| && FrameOk(s, t, s.frames[t]) && Global(s)
    requires Work(s.frames[t]) && s.frames[t].pc.SubAlloc?
    ensures Placed(NewList(s, t, Acquire), t, NewList(s, t, Acquire).frames[t])
  {
    hide Traced, Sids, LiveList;
  }

  lemma SubAllocQuiet(s: State, t: nat)
    requires Here(s, t) && Work(s.frames[t]) && s.frames[t].pc.SubAlloc?
    ensures Quiet(s, NewList(s, t, Acquire), t) && Recorded(s, NewList(s, t, Acquire), t)
  {
    hide Traced, Progress, Guarded, SnapOk, Seen, Without, NoSid, HeldOk, LiveList;
  }

  lemma SubAllocCounts(s: State, t: nat)
    requires Counts(s) && Here(s, t) && Work(s.frames[t]) && s.frames[t].pc.SubAlloc?
    ensures Counts(NewList(s, t, Acquire))
  {
    hide Progress, Traced, Guarded, Seen, BusyOk, SnapOk, LiveList;
    NewListCounts(s, t, Acquire);
  }

  lemma SubAllocGlobal(s: State, t: nat)
    requires Global(s) && Here(s, t) && Work(s.frames[t]) && s.frames[t].pc.SubAlloc?
    ensures Global(NewList(s, t, Acquire))
  {
    hide Traced, Progress, Guarded, SnapOk, Seen, BusyOk, Without, NoSid, HeldOk, LiveList;
    GlobalSameLog(s, NewList(s, t, Acquire), t);
  }

  lemma SubAllocKeeps(s: State, t: nat)
    requires Inv(s) && t < |s.frames| && Work(s.frames[t]) && s.frames[t].pc.SubAlloc?
    ensures Inv(NewList(s, t, Acquire))
  {
    hide *;
    InvAt(s, t);
    SubAllocCounts(s, t);
    SubAllocGlobal(s, t);
    SubAllocOwn(s, t);
    SubAllocQuiet(s, t);
    Finish(s, NewList(s, t, Acquire), t);
  }

  /** A step that takes and gives up no reference. */
  lemma LocalCounts(s: State, s': State, t: nat)
    requires Counts(s) && OneFrame(s, s', t)
    requires s'.ids == s.ids && s'.itemRc == s.itemRc && s'.lists == s.lists && s'.current == s.current
    requires forall i: nat :: FrameHolds(s'.frames[t], i) == FrameHolds(s.frames[t], i)
    requires s'.frames[t].list == s.frames[t].list && s'.frames[t].dying == s.frames[t].dying
    requires forall i: nat :: GoneCount(s'.log, i) == GoneCount(s.log, i)
    ensures Counts(s')
  {
    ItemCountsKept(s, s', t, 0);
    ListCountsKept(s, s', t);
    DeathsKept(s, s', t);
  }

  lemma GlobalLock(s: State, s': State, t: nat)
    requires Global(s) && OneFrame(s, s', t)
    requires s' == s.(frames := s'.frames, lock := s'.lock)
    requires LockOk(s')
    ensures Global(s')
  {
  }

  lemma AcquireQuiet(s: State, t: nat)
    requires Here(s, t) && Work(s.frames[t]) && s.frames[t].pc.Acquire?
    ensures Quiet(s, DoAcquire(s, t), t) && Recorded(s, DoAcquire(s, t), t)
  {
    hide Traced, Progress, Guarded, SnapOk, Seen, Without, NoSid, HeldOk, LiveList;
  }

  lemma AcquireCounts(s: State, t: nat)
    requires Counts(s) && Here(s, t) && Work(s.frames[t]) && s.frames[t].pc.Acquire?
    ensures Counts(DoAcquire(s, t))
  {
    hide Progress, Traced, Guarded, Seen, BusyOk, SnapOk, LiveList;
    LocalCounts(s, DoAcquire(s, t), t);
  }

  lemma AcquireGlobal(s: State, t: nat)
    requires Global(s) && Here(s, t) && Work(s.frames[t]) && s.frames[t].pc.Acquire? && s.lock.None?
    ensures Global(DoAcquire(s, t))
  {
    hide Traced, Progress, Guarded, SnapOk, Seen, BusyOk, Without, NoSid, HeldOk, LiveList;
    GlobalLock(s, DoAcquire(s, t), t);
  }

  lemma AcquireOwn(s: State, t: nat)
    requires Here(s, t) && Work(s.frames[t]) && s.frames[t].pc.Acquire?
    ensures Placed(DoAcquire(s, t), t, DoAcquire(s, t).frames[t])
  {
    hide Traced, Sids, LiveList;
  }

  lemma AcquireKeeps(s: State, t: nat)
    requires Inv(s) && t < |s.frames| && Work(s.frames[t]) && s.frames[t].pc.Acquire? && s.lock.None?
    ensures Inv(DoAcquire(s, t))
  {
    hide *;
    InvAt(s, t);
    AcquireCounts(s, t);
    AcquireGlobal(s, t);
    AcquireOwn(s, t);
    AcquireQuiet(s, t);
    Finish(s, DoAcquire(s, t), t);
  }

  lemma UnlockQuiet(s: State, t: nat)
    requires Here(s, t) && Work(s.frames[t]) && s.frames[t].pc.Unlock?
    ensures Quiet(s, DoUnlock(s, t), t) && Recorded(s, DoUnlock(s, t), t)
  {
    hide Traced, Guarded, SnapOk, Seen, Without, NoSid, HeldOk, LiveList;
  }

  lemma UnlockCounts(s: State, t: nat)
    requires Counts(s) && Here(s, t) && Work(s.frames[t]) && s.frames[t].pc.Unlock?
    ensures Counts(DoUnlock(s, t))
  {
    hide Progress, Traced, Guarded, Seen, BusyOk, SnapOk, LiveList;
    LocalCounts(s, DoUnlock(s, t), t);
  }

  lemma UnlockGlobal(s: State, t: nat)
    requires Global(s) && Here(s, t) && Work(s.frames[t]) && s.frames[t].pc.Unlock?
    ensures Global(DoUnlock(s, t))
  {
    hide Traced, Progress, Guarded, SnapOk, Seen, BusyOk, Without, NoSid, HeldOk, LiveList;
    GlobalLock(s, DoUnlock(s, t), t);
  }

  lemma UnlockOwn(s: State, t: nat)
    requires Here(s, t) && Work(s.frames[t]) && s.frames[t].pc.Unlock?
    ensures Placed(DoUnlock(s, t), t, DoUnlock(s, t).frames[t])
  {
    hide Traced, Sids, LiveList;
  }

  lemma UnlockKeeps(s: State, t: nat)
    requires Inv(s) && t < |s.frames| && Work(s.frames[t]) && s.frames[t].pc.Unlock?
    ensures Inv(DoUnlock(s, t))
  {
    hide *;
    InvAt(s, t);
    UnlockCounts(s, t);
    UnlockGlobal(s, t);
    UnlockOwn(s, t);
    UnlockQuiet(s, t);
    Finish(s, DoUnlock(s, t), t);
  }

  // ----- Subscribe

  /** Appending a copy of `x` to the frame's own list. */
  lemma PushCounts(s: State, t: nat, x: nat, g: Frame)
    requires Counts(s) && t < |s.frames| && x < |s.itemRc|
    requires g.list.Some? && g.list == s.frames[t].list && g.dying == s.frames[t].dying && g.list.value < |s.lists|
    requires s.lists[g.list.value].rc > 0 && s.itemRc[x] > 0
    requires forall i: nat :: FrameHolds(g, i) == FrameHolds(s.frames[t], i)
    ensures Counts(Push(s, t, x, g))
  {
    var s' := Push(s, t, x, g);
    ItemCountsKept(s, s', t, g.list.value);
    ListCountsKept(s, s', t);
    DeathsKept(s, s', t);
  }

  lemma SubCopyCounts(s: State, t: nat)
    requires Counts(s) && Here(s, t) && Work(s.frames[t]) && s.frames[t].pc.SubCopy?
    ensures Counts(DoSubCopy(s, t))
  {
    hide Traced, Guarded, Seen, BusyOk, SnapOk, LiveList;
    var f := s.frames[t];
    if f.pc.i < |CurItems(s)| {
      assert CurItems(s)[f.pc.i] in CurItems(s);
      PushCounts(s, t, CurItems(s)[f.pc.i], f.(pc := SubCopy(f.pc.i + 1)));
    } else {
      LocalCounts(s, DoSubCopy(s, t), t);
    }
  }

  lemma SubCopyOwn(s: State, t: nat)
    requires Here(s, t) && Work(s.frames[t]) && s.frames[t].pc.SubCopy?
    ensures Placed(DoSubCopy(s, t), t, DoSubCopy(s, t).frames[t])
  {
    hide Traced, Sids, LiveList;
    var f, cur := s.frames[t], CurItems(s);
    if f.pc.i < |cur| {
      assert cur[..f.pc.i + 1] == cur[..f.pc.i] + [cur[f.pc.i]];
    }
  }

  lemma SubCopyQuiet(s: State, t: nat)
    requires Here(s, t) && Work(s.frames[t]) && s.frames[t].pc.SubCopy?
    ensures Quiet(s, DoSubCopy(s, t), t) && Recorded(s, DoSubCopy(s, t), t)
  {
    hide Traced, Progress, Guarded, SnapOk, Seen, Without, NoSid, HeldOk, LiveList;
  }

  lemma SubCopyGlobal(s: State, t: nat)
    requires Global(s) && Here(s, t) && Work(s.frames[t]) && s.frames[t].pc.SubCopy?
    ensures Global(DoSubCopy(s, t))
  {
    hide Traced, Progress, Guarded, SnapOk, Seen, BusyOk, Without, NoSid, HeldOk;
    GlobalSameLog(s, DoSubCopy(s, t), t);
  }

  lemma SubCopyKeeps(s: State, t: nat)
    requires Inv(s) && t < |s.frames| && Work(s.frames[t]) && s.frames[t].pc.SubCopy? && Safe(s, s.frames[t])
    ensures Inv(DoSubCopy(s, t))
  {
    hide *;
    InvAt(s, t);
    SubCopyCounts(s, t);
    SubCopyGlobal(s, t);
    SubCopyOwn(s, t);
    SubCopyQuiet(s, t);
    Finish(s, DoSubCopy(s, t), t);
  }

  lemma TakeLoopCounts(s: State, t: nat, x: nat, pc: Pc)
    requires Counts(s) && t < |s.frames| && x < |s.itemRc| && s.itemRc[x] > 0 && s.frames[t].loop.None?
    ensures Counts(TakeLoop(s, t, x, pc))
  {
    var s' := TakeLoop(s, t, x, pc);
    ItemCountsKept(s, s', t, 0);
    ListCountsKept(s, s', t);
    DeathsKept(s, s', t);
  }

  lemma SubScanQuiet(s: State, t: nat)
    requires Here(s, t) && Work(s.frames[t]) && s.frames[t].pc.SubScan?
    ensures Quiet(s, DoSubScan(s, t), t) && Recorded(s, DoSubScan(s, t), t)
  {
    hide Traced, Progress, Guarded, SnapOk, Seen, Without, NoSid, HeldOk, LiveList;
  }

  lemma SubScanGlobal(s: State, t: nat)
    requires Global(s) && Here(s, t) && Work(s.frames[t]) && s.frames[t].pc.SubScan?
    ensures Global(DoSubScan(s, t))
  {
    hide Traced, Progress, Guarded, SnapOk, Seen, BusyOk, Without, NoSid, HeldOk;
    GlobalSameLog(s, DoSubScan(s, t), t);
  }

  lemma SubScanKeeps(s: State, t: nat)
    requires Inv(s) && t < |s.frames| && Work(s.frames[t]) && s.frames[t].pc.SubScan? && Safe(s, s.frames[t])
    ensures Inv(DoSubScan(s, t))
  {
    hide *;
    InvAt(s, t);
    SubScanCounts(s, t);
    SubScanGlobal(s, t);
    SubScanOwn(s, t);
    SubScanQuiet(s, t);
    Finish(s, DoSubScan(s, t), t);
  }

  lemma SubScanCounts(s: State, t: nat)
    requires Counts(s) && Here(s, t) && Work(s.frames[t]) && s.frames[t].pc.SubScan?
    ensures Counts(DoSubScan(s, t))
  {
    hide Traced, Guarded, Seen, BusyOk, SnapOk, LiveList;
    var s', f, cur := DoSubScan(s, t), s.frames[t], CurItems(s);
    if f.pc.i < |cur| {
      assert cur[f.pc.i] in cur;
      TakeLoopCounts(s, t, cur[f.pc.i], SubCompare(f.pc.i));
    } else {
      LocalCounts(s, s', t);
    }
  }

  lemma SubScanOwn(s: State, t: nat)
    requires Here(s, t) && Work(s.frames[t]) && s.frames[t].pc.SubScan?
    ensures Placed(DoSubScan(s, t), t, DoSubScan(s, t).frames[t])
  {
    hide Traced, Sids, LiveList;
    assert CurItems(s)[..|CurItems(s)|] == CurItems(s);
  }

  /** A local goes out of scope: its reference moves to the frame's releases. */
  lemma ReleaseCounts(s: State, s': State, t: nat)
    requires Counts(s) && OneFrame(s, s', t)
    requires s'.ids == s.ids && s'.itemRc == s.itemRc && s'.lists == s.lists && s'.current == s.current
    requires s'.frames[t].list == s.frames[t].list && s'.frames[t].dying == s.frames[t].dying
    requires s.frames[t].drops == [] && forall i: nat :: FrameHolds(s'.frames[t], i) == FrameHolds(s.frames[t], i)
    requires s'.log == s.log || exists e: Event :: s'.log == s.log + [e] && !e.Gone?
    ensures Counts(s')
  {
    forall i: nat ensures GoneCount(s'.log, i) == GoneCount(s.log, i) {
      if s'.log != s.log {
        LogAppend(s.log, s'.log[|s.log|]);
      }
    }
    LocalCounts(s, s', t);
  }

  lemma SubCompareOwn(s: State, t: nat)
    requires Here(s, t) && Work(s.frames[t]) && s.frames[t].pc.SubCompare?
    ensures Placed(DoSubCompare(s, t), t, DoSubCompare(s, t).frames[t])
  {
    hide Traced, Sids, LiveList;
    var f, cur := s.frames[t], CurItems(s);
    assert cur[..f.pc.i + 1] == cur[..f.pc.i] + [cur[f.pc.i]];
  }

  lemma SubCompareLog(s: State, t: nat)
    requires Here(s, t) && Work(s.frames[t]) && s.frames[t].pc.SubCompare?
    requires LogOk(s.log, |s.frames|, Sids(s.ids, CurItems(s)))
    ensures LogOk(DoSubCompare(s, t).log, |s.frames|, Sids(s.ids, CurItems(s)))
  {
    hide Traced, Guarded, SnapOk, Seen, BusyOk, LiveList, NoneAfterGone, NeverLocked, Agrees, Members;
    var f, cur := s.frames[t], CurItems(s);
    assert Sids(s.ids, cur)[f.pc.i] == SidOf(s.ids, cur[f.pc.i]);
    if SidOf(s.ids, f.loop.value) == f.op.sid {
      LogGrows(s.log, Effect(t, f.op, Id(0)), |s.frames|, Sids(s.ids, cur));
    }
  }

  lemma SubCompareGlobal(s: State, t: nat)
    requires Here(s, t) && Global(s) && Work(s.frames[t]) && s.frames[t].pc.SubCompare?
    ensures Global(DoSubCompare(s, t))
  {
    hide Traced, Guarded, SnapOk, Seen, BusyOk, LiveList, Progress, NoneAfterGone, NeverLocked, Agrees;
    SubCompareLog(s, t);
    GlobalKept(s, DoSubCompare(s, t), t);
  }

  lemma SubCompareQuiet(s: State, t: nat)
    requires Here(s, t) && Work(s.frames[t]) && s.frames[t].pc.SubCompare?
    ensures Quiet(s, DoSubCompare(s, t), t) && Recorded(s, DoSubCompare(s, t), t)
  {
    hide Traced, Progress, Guarded, SnapOk, Seen, Without, NoSid, HeldOk, LiveList;
  }

  lemma SubCompareCounts(s: State, t: nat)
    requires Counts(s) && Here(s, t) && Work(s.frames[t]) && s.frames[t].pc.SubCompare?
    ensures Counts(DoSubCompare(s, t))
  {
    hide Progress, Traced, Guarded, Seen, BusyOk, SnapOk, LiveList;
    ReleaseCounts(s, DoSubCompare(s, t), t);
  }

  lemma SubCompareKeeps(s: State, t: nat)
    requires Inv(s) && t < |s.frames| && Work(s.frames[t]) && s.frames[t].pc.SubCompare? && Safe(s, s.frames[t])
    ensures Inv(DoSubCompare(s, t))
  {
    hide *;
    InvAt(s, t);
    SubCompareCounts(s, t);
    SubCompareGlobal(s, t);
    SubCompareOwn(s, t);
    SubCompareQuiet(s, t);
    Finish(s, DoSubCompare(s, t), t);
  }

  lemma SubAppendCounts(s: State, t: nat)
    requires Counts(s) && Here(s, t) && Work(s.frames[t]) && s.frames[t].pc.SubAppend?
    ensures Counts(DoSubAppend(s, t))
  {
    hide Progress, Traced, Guarded, Seen, BusyOk, SnapOk, LiveList;
    var s' := DoSubAppend(s, t);
    ItemCountsKept(s, s', t, s.frames[t].list.value);
    ListCountsKept(s, s', t);
    DeathsKept(s, s', t);
  }

  lemma SubAppendOwn(s: State, t: nat)
    requires Here(s, t) && Work(s.frames[t]) && s.frames[t].pc.SubAppend? && |s.ids| == |s.itemRc|
    ensures Placed(DoSubAppend(s, t), t, DoSubAppend(s, t).frames[t])
  {
    hide Traced, LiveList;
    var f, cur, s' := s.frames[t], CurItems(s), DoSubAppend(s, t);
    forall k | 0 <= k < |cur| ensures SidOf(s'.ids, cur[k]) == SidOf(s.ids, cur[k]) {
      assert cur[k] in cur;
    }
    SidsSame(s.ids, s'.ids, f.snap);
  }

  lemma SubAppendQuiet(s: State, t: nat)
    requires Here(s, t) && Work(s.frames[t]) && s.frames[t].pc.SubAppend?
    ensures Quiet(s, DoSubAppend(s, t), t) && Recorded(s, DoSubAppend(s, t), t)
  {
    hide Traced, Progress, Guarded, SnapOk, Seen, Without, NoSid, HeldOk, LiveList;
  }

  lemma SubAppendGlobal(s: State, t: nat)
    requires Global(s) && Here(s, t) && Work(s.frames[t]) && s.frames[t].pc.SubAppend?
    ensures Global(DoSubAppend(s, t))
  {
    hide Traced, Progress, Guarded, SnapOk, Seen, BusyOk, Without, NoSid, HeldOk, LiveList;
    GlobalSameLog(s, DoSubAppend(s, t), t);
  }

  lemma SubAppendKeeps(s: State, t: nat)
    requires Inv(s) && t < |s.frames| && Work(s.frames[t]) && s.frames[t].pc.SubAppend? && Safe(s, s.frames[t])
    ensures Inv(DoSubAppend(s, t))
  {
    hide *;
    InvAt(s, t);
    SubAppendCounts(s, t);
    SubAppendGlobal(s, t);
    SubAppendOwn(s, t);
    SubAppendQuiet(s, t);
    Finish(s, DoSubAppend(s, t), t);
  }

  // ----- Unsubscribe

  lemma UnsubCheckQuiet(s: State, t: nat)
    requires Here(s, t) && Work(s.frames[t]) && s.frames[t].pc.UnsubCheck?
    ensures Quiet(s, DoUnsubCheck(s, t), t) && Recorded(s, DoUnsubCheck(s, t), t)
  {
    hide Traced, Progress, Guarded, SnapOk, Seen, Without, NoSid, HeldOk, LiveList;
  }

  lemma UnsubCheckCounts(s: State, t: nat)
    requires Counts(s) && Here(s, t) && Work(s.frames[t]) && s.frames[t].pc.UnsubCheck?
    ensures Counts(DoUnsubCheck(s, t))
  {
    hide Progress, Traced, Guarded, Seen, BusyOk, SnapOk, LiveList;
    if s.current.None? {
      GoneSame(s.log, Effect(t, s.frames[t].op, Flag(false)));
      LocalCounts(s, DoUnsubCheck(s, t), t);
    } else {
      NewListCounts(s, t, UnsubScan(0));
    }
  }

  lemma UnsubCheckGlobal(s: State, t: nat)
    requires Global(s) && Here(s, t) && Work(s.frames[t]) && s.frames[t].pc.UnsubCheck?
    ensures Global(DoUnsubCheck(s, t))
  {
    hide Traced, Progress, Guarded, SnapOk, Seen, BusyOk, Without, NoSid, HeldOk, LiveList;
    if s.current.None? {
      UnsubNoneGlobal(s, t);
    } else {
      GlobalSameLog(s, DoUnsubCheck(s, t), t);
    }
  }

  lemma UnsubCheckKeeps(s: State, t: nat)
    requires Inv(s) && t < |s.frames| && Work(s.frames[t]) && s.frames[t].pc.UnsubCheck?
    ensures Inv(DoUnsubCheck(s, t))
  {
    hide *;
    InvAt(s, t);
    UnsubCheckCounts(s, t);
    UnsubCheckGlobal(s, t);
    if s.current.None? { UnsubCheckNone(s, t); } else { UnsubCheckSome(s, t); }
    UnsubCheckQuiet(s, t);
    Finish(s, DoUnsubCheck(s, t), t);
  }

  lemma UnsubCheckNone(s: State, t: nat)
    requires Here(s, t) && Work(s.frames[t]) && s.frames[t].pc.UnsubCheck? && s.current.None?
    ensures Placed(DoUnsubCheck(s, t), t, DoUnsubCheck(s, t).frames[t])
  {
    hide Traced, Sids, LiveList;
  }

  lemma UnsubNoneGlobal(s: State, t: nat)
    requires t < |s.frames| && s.frames[t].op.Unsubscribe? && Global(s) && s.frames[t].pc.UnsubCheck? && s.current.None?
    ensures Global(DoUnsubCheck(s, t))
  {
    hide Traced, Guarded, SnapOk, Seen, BusyOk, Without, HeldOk, Progress, LiveList;
    LogAppend(s.log, Effect(t, s.frames[t].op, Flag(false)));
    GlobalKept(s, DoUnsubCheck(s, t), t);
  }

  lemma UnsubCheckSome(s: State, t: nat)
    requires Here(s, t) && Global(s) && Work(s.frames[t]) && s.frames[t].pc.UnsubCheck? && s.current.Some?
    ensures Placed(DoUnsubCheck(s, t), t, DoUnsubCheck(s, t).frames[t])
  {
    hide Traced, Sids, LiveList;
    assert CurItems(s)[..0] == [];
  }

  lemma UnsubScanCounts(s: State, t: nat)
    requires Counts(s) && Here(s, t) && Work(s.frames[t]) && s.frames[t].pc.UnsubScan?
    ensures Counts(DoUnsubScan(s, t))
  {
    hide Traced, Guarded, Seen, BusyOk, SnapOk, LiveList;
    var s', f, cur := DoUnsubScan(s, t), s.frames[t], CurItems(s);
    if f.pc.i < |cur| {
      assert cur[f.pc.i] in cur;
      TakeLoopCounts(s, t, cur[f.pc.i], UnsubCompare(f.pc.i));
    } else {
      LocalCounts(s, s', t);
    }
  }

  lemma UnsubScanOwn(s: State, t: nat)
    requires Here(s, t) && Work(s.frames[t]) && s.frames[t].pc.UnsubScan?
    ensures Placed(DoUnsubScan(s, t), t, DoUnsubScan(s, t).frames[t])
  {
    hide Traced, Sids, LiveList, Without;
    assert CurItems(s)[..|CurItems(s)|] == CurItems(s);
  }

  lemma UnsubScanQuiet(s: State, t: nat)
    requires Here(s, t) && Work(s.frames[t]) && s.frames[t].pc.UnsubScan?
    ensures Quiet(s, DoUnsubScan(s, t), t) && Recorded(s, DoUnsubScan(s, t), t)
  {
    hide Traced, Progress, Guarded, SnapOk, Seen, Without, NoSid, HeldOk, LiveList;
  }

  lemma UnsubScanGlobal(s: State, t: nat)
    requires Global(s) && Here(s, t) && Work(s.frames[t]) && s.frames[t].pc.UnsubScan?
    ensures Global(DoUnsubScan(s, t))
  {
    hide Traced, Progress, Guarded, SnapOk, Seen, BusyOk, Without, NoSid, HeldOk;
    GlobalSameLog(s, DoUnsubScan(s, t), t);
  }

  lemma UnsubScanKeeps(s: State, t: nat)
    requires Inv(s) && t < |s.frames| && Work(s.frames[t]) && s.frames[t].pc.UnsubScan? && Safe(s, s.frames[t])
    ensures Inv(DoUnsubScan(s, t))
  {
    hide *;
    InvAt(s, t);
    UnsubScanCounts(s, t);
    UnsubScanGlobal(s, t);
    UnsubScanOwn(s, t);
    UnsubScanQuiet(s, t);
    Finish(s, DoUnsubScan(s, t), t);
  }

  lemma HeldCounts(s: State, t: nat)
    requires Counts(s) && Here(s, t) && Work(s.frames[t]) && s.frames[t].pc.UnsubCompare?
    requires SidOf(s.ids, s.frames[t].loop.value) == s.frames[t].op.sid
    ensures Counts(DoUnsubCompare(s, t))
  {
    hide Progress, Traced, Guarded, Seen, BusyOk, SnapOk, LiveList;
    var s' := DoUnsubCompare(s, t);
    ItemCountsKept(s, s', t, 0);
    ListCountsKept(s, s', t);
    DeathsKept(s, s', t);
  }

  /** Only one item can match, so pSubscriberItemToRelease is still null at a match. */
  lemma OnlyOneMatch(s: State, t: nat)
    requires Here(s, t) && DistinctIds(s) && Work(s.frames[t]) && s.frames[t].pc.UnsubCompare?
    requires SidOf(s.ids, s.frames[t].loop.value) == s.frames[t].op.sid
    ensures s.frames[t].held.None?
  {
  }

  lemma WithoutStep(ids: seq<nat>, cur: seq<nat>, i: nat, id: nat)
    requires i < |cur|
    ensures Without(ids, cur[..i + 1], id)
            == Without(ids, cur[..i], id) + (if SidOf(ids, cur[i]) == id then [] else [cur[i]])
    ensures NoSid(ids, cur[..i], id) && SidOf(ids, cur[i]) != id ==> NoSid(ids, cur[..i + 1], id)
    ensures forall x :: x in cur[..i + 1] <==> x in cur[..i] || x == cur[i]
  {
    assert cur[..i + 1][..i] == cur[..i];
    assert cur[..i + 1] == cur[..i] + [cur[i]];
  }

  lemma UnsubCompareHeld(s: State, t: nat)
    requires Here(s, t) && DistinctIds(s) && Work(s.frames[t]) && s.frames[t].pc.UnsubCompare?
    requires SidOf(s.ids, s.frames[t].loop.value) == s.frames[t].op.sid
    ensures Placed(DoUnsubCompare(s, t), t, DoUnsubCompare(s, t).frames[t])
  {
    hide Traced, Sids, LiveList;
    OnlyOneMatch(s, t);
    UnsubHeldOwn(s, t);
  }

  lemma HeldProgress(ids: seq<nat>, cur: seq<nat>, own: seq<nat>, f: Frame, g: Frame)
    requires Shape(f) && f.pc.UnsubCompare? && f.held.None? && Progress(ids, true, cur, own, f)
    requires SidOf(ids, f.loop.value) == f.op.sid
    requires g == f.(pc := UnsubScan(f.pc.i + 1), loop := None, held := f.loop, drops := g.drops) && Shape(g)
    ensures Progress(ids, true, cur, own, g) && f.loop.value in cur
  {
    WithoutStep(ids, cur, f.pc.i, f.op.sid);
  }

  lemma KeptProgress(ids: seq<nat>, cur: seq<nat>, own: seq<nat>, f: Frame, g: Frame)
    requires Shape(f) && f.pc.UnsubCompare? && Progress(ids, true, cur, own, f)
    requires SidOf(ids, f.loop.value) != f.op.sid
    requires g == f.(pc := UnsubScan(f.pc.i + 1), loop := None, drops := g.drops) && Shape(g)
    ensures Progress(ids, true, cur, own + [f.loop.value], g) && f.loop.value in cur
  {
    WithoutStep(ids, cur, f.pc.i, f.op.sid);
  }

  lemma UnsubHeldOwn(s: State, t: nat)
    requires Here(s, t) && Work(s.frames[t]) && s.frames[t].pc.UnsubCompare? && s.frames[t].held.None?
    requires SidOf(s.ids, s.frames[t].loop.value) == s.frames[t].op.sid
    ensures Placed(DoUnsubCompare(s, t), t, DoUnsubCompare(s, t).frames[t])
  {
    hide Traced, Progress, Sids, LiveList;
    var s' := DoUnsubCompare(s, t);
    HeldProgress(s.ids, CurItems(s), OwnItems(s, s.frames[t]), s.frames[t], s'.frames[t]);
  }

  lemma UnsubCompareOwn(s: State, t: nat)
    requires Here(s, t) && Work(s.frames[t]) && s.frames[t].pc.UnsubCompare?
    requires SidOf(s.ids, s.frames[t].loop.value) != s.frames[t].op.sid
    ensures Placed(DoUnsubCompare(s, t), t, DoUnsubCompare(s, t).frames[t])
  {
    hide Traced, Progress, Sids, LiveList;
    var s' := DoUnsubCompare(s, t);
    KeptProgress(s.ids, CurItems(s), OwnItems(s, s.frames[t]), s.frames[t], s'.frames[t]);
  }

  lemma UnsubCompareCounts(s: State, t: nat)
    requires Counts(s) && Here(s, t) && Work(s.frames[t]) && s.frames[t].pc.UnsubCompare?
    ensures Counts(DoUnsubCompare(s, t))
  {
    hide Progress, Traced, Guarded, Seen, BusyOk, SnapOk, LiveList;
    if SidOf(s.ids, s.frames[t].loop.value) == s.frames[t].op.sid {
      HeldCounts(s, t);
    } else {
      PushCounts(s, t, s.frames[t].loop.value, DoUnsubCompare(s, t).frames[t]);
    }
  }

  lemma UnsubCompareQuiet(s: State, t: nat)
    requires Here(s, t) && Work(s.frames[t]) && s.frames[t].pc.UnsubCompare?
    ensures Quiet(s, DoUnsubCompare(s, t), t) && Recorded(s, DoUnsubCompare(s, t), t)
  {
    hide Traced, Progress, Guarded, SnapOk, Seen, Without, NoSid, HeldOk, LiveList;
  }

  lemma UnsubCompareGlobal(s: State, t: nat)
    requires Global(s) && Here(s, t) && Work(s.frames[t]) && s.frames[t].pc.UnsubCompare?
    ensures Global(DoUnsubCompare(s, t))
  {
    hide Traced, Progress, Guarded, SnapOk, Seen, BusyOk, Without, NoSid, HeldOk, LiveList;
    GlobalSameLog(s, DoUnsubCompare(s, t), t);
  }

  lemma UnsubCompareBoth(s: State, t: nat)
    requires Here(s, t) && DistinctIds(s) && Work(s.frames[t]) && s.frames[t].pc.UnsubCompare?
    ensures Placed(DoUnsubCompare(s, t), t, DoUnsubCompare(s, t).frames[t])
  {
    if SidOf(s.ids, s.frames[t].loop.value) == s.frames[t].op.sid {
      UnsubCompareHeld(s, t);
    } else {
      UnsubCompareOwn(s, t);
    }
  }

  lemma UnsubCompareKeeps(s: State, t: nat)
    requires Inv(s) && t < |s.frames| && Work(s.frames[t]) && s.frames[t].pc.UnsubCompare? && Safe(s, s.frames[t])
    ensures Inv(DoUnsubCompare(s, t))
  {
    hide *;
    InvAt(s, t);
    UnsubCompareCounts(s, t);
    UnsubCompareGlobal(s, t);
    UnsubCompareBoth(s, t);
    UnsubCompareQuiet(s, t);
    Finish(s, DoUnsubCompare(s, t), t);
  }

  // ----- publication

  /** The two list counts DoPublish changes: the new list is up by one, the replaced
      one is down by one and, if that was its last owner, releases its items. */
  lemma PublishItemCounts(s: State, t: nat)
    requires ItemCounts(s) && Here(s, t) && Work(s.frames[t]) && s.frames[t].pc.Publish?
    ensures ItemCounts(DoPublish(s, t))
  {
    hide Progress, Traced, Guarded, Seen, BusyOk, SnapOk, LiveList;
    var f, s' := s.frames[t], DoPublish(s, t);
    var l := f.list.value;
    var up := AddListRef(s.lists, l, 1);
    forall i: nat ensures Rc(s'.itemRc, i) == Sum(s'.lists, ByList(i)) + Sum(s'.frames, ByFrame(i)) {
      assert Rc(s.itemRc, i) == Sum(s.lists, ByList(i)) + Sum(s.frames, ByFrame(i));
      SumUpdate(s.frames, t, s'.frames[t], ByFrame(i));
      SumUpdate(s.lists, l, up[l], ByList(i));
      if s.current.Some? { SumUpdate(up, s.current.value, s'.lists[s.current.value], ByList(i)); }
    }
  }

  lemma PublishListCounts(s: State, t: nat)
    requires ListCounts(s) && Here(s, t) && Work(s.frames[t]) && s.frames[t].pc.Publish?
    ensures ListCounts(DoPublish(s, t))
  {
    hide Progress, Traced, Guarded, Seen, BusyOk, SnapOk, LiveList;
    ListCountsKept(s, DoPublish(s, t), t);
  }

  lemma PublishDeaths(s: State, t: nat)
    requires Deaths(s) && t < |s.frames| && Work(s.frames[t]) && s.frames[t].pc.Publish? && Safe(s, s.frames[t])
    ensures Deaths(DoPublish(s, t))
  {
    LogAppend(s.log, DoPublish(s, t).log[|s.log|]);
    DeathsKept(s, DoPublish(s, t), t);
  }

  /** What is released under the lock is in the new list or in pSubscriberItemToRelease. */
  lemma PublishGuarded(s: State, t: nat)
    requires Here(s, t) && DistinctIds(s) && Work(s.frames[t]) && s.frames[t].pc.Publish?
    ensures Guarded(CurItems(DoPublish(s, t)), DoPublish(s, t).frames[t])
  {
    hide Traced, Sids, SnapOk, BusyOk, LiveList;
    var f, s', cur := s.frames[t], DoPublish(s, t), CurItems(s);
    var own := OwnItems(s, f);
    assert CurItems(s') == own;
    if f.op.Subscribe? {
      assert own == cur + [own[|cur|]];
    } else {
      WithoutInside(s.ids, cur, f.op.sid);
      forall x | x in cur ensures x in own || f.held == Some(x) {
        if SidOf(s.ids, x) == f.op.sid {
          OnlyHolder(s.ids, cur, x, f.held, f.op.sid);
        }
      }
    }
  }

  lemma OnlyHolder(ids: seq<nat>, cur: seq<nat>, x: nat, held: Option<nat>, id: nat)
    requires Distinct(ids, cur) && HeldOk(ids, cur, held, id) && x in cur && SidOf(ids, x) == id
    ensures held == Some(x)
  {
    var k :| 0 <= k < |cur| && cur[k] == x;
    assert held.Some?;
    var j :| 0 <= j < |cur| && cur[j] == held.value;
  }

  lemma PublishOwn(s: State, t: nat)
    requires Here(s, t) && DistinctIds(s) && Work(s.frames[t]) && s.frames[t].pc.Publish?
    ensures Placed(DoPublish(s, t), t, DoPublish(s, t).frames[t])
  {
    hide Traced, Sids, LiveList;
    PublishGuarded(s, t);
  }

  /** The published list stays free of duplicate ids and follows the ordered set. */
  lemma PublishMembers(s: State, t: nat)
    requires Here(s, t) && DistinctIds(s) && Work(s.frames[t]) && s.frames[t].pc.Publish?
    ensures DistinctIds(DoPublish(s, t))
    ensures var f := s.frames[t];
            Apply(Sids(s.ids, CurItems(s)), f.op)
            == (Sids(s.ids, CurItems(DoPublish(s, t))), DoPublish(s, t).frames[t].ret.value)
  {
    var f, s', cur := s.frames[t], DoPublish(s, t), CurItems(s);
    var own := OwnItems(s, f);
    assert CurItems(s') == own;
    if f.op.Subscribe? {
      assert own == cur + [own[|cur|]];
      assert Sids(s.ids, own) == Sids(s.ids, cur) + [f.op.sid];
      assert forall k | 0 <= k < |cur| :: own[k] == cur[k];
      assert f.op.sid !in Sids(s.ids, cur);
    } else {
      SidsOfWithout(s.ids, cur, f.op.sid);
      DistinctWithout(s.ids, cur, f.op.sid);
      SidsMembership(s.ids, cur, f.held, f.op.sid);
    }
  }

  lemma SidsMembership(ids: seq<nat>, cur: seq<nat>, held: Option<nat>, id: nat)
    requires HeldOk(ids, cur, held, id)
    ensures held.Some? <==> id in Sids(ids, cur)
  {
    if held.Some? {
      var j :| 0 <= j < |cur| && cur[j] == held.value;
      assert Sids(ids, cur)[j] == id;
    }
  }

  lemma {:induction false} DistinctWithout(ids: seq<nat>, xs: seq<nat>, id: nat)
    requires Distinct(ids, xs)
    ensures Distinct(ids, Without(ids, xs, id))
  {
    if xs != [] {
      var head, last := xs[..|xs| - 1], xs[|xs| - 1];
      assert Distinct(ids, head);
      DistinctWithout(ids, head, id);
      WithoutInside(ids, head, id);
      var w := Without(ids, head, id);
      forall k | 0 <= k < |w| ensures SidOf(ids, w[k]) != SidOf(ids, last) {
        assert w[k] in w;
        var j :| 0 <= j < |head| && head[j] == w[k];
        assert SidOf(ids, xs[j]) != SidOf(ids, xs[|xs| - 1]);
      }
    }
  }

  lemma PublishLog(s: State, t: nat)
    requires Here(s, t) && DistinctIds(s) && Work(s.frames[t]) && s.frames[t].pc.Publish?
    requires LogOk(s.log, |s.frames|, Sids(s.ids, CurItems(s)))
    ensures LogOk(DoPublish(s, t).log, |s.frames|, Sids(s.ids, CurItems(DoPublish(s, t))))
    ensures DistinctIds(DoPublish(s, t))
  {
    var s', f := DoPublish(s, t), s.frames[t];
    PublishMembers(s, t);
    LogGrows(s.log, Effect(t, f.op, s'.frames[t].ret.value), |s.frames|, Sids(s.ids, CurItems(s)));
  }

  /** An effect with the answer of the ordered set extends the log. */
  lemma LogGrows(log: seq<Event>, e: Event, frames: nat, members: seq<nat>)
    requires LogOk(log, frames, members) && e.tid < frames
    requires e.Effect? && e.ret == Apply(members, e.op).1
    ensures LogOk(log + [e], frames, Apply(members, e.op).0)
  {
    LogAppend(log, e);
  }

  lemma PublishGlobal(s: State, t: nat)
    requires Here(s, t) && Global(s) && Work(s.frames[t]) && s.frames[t].pc.Publish?
    ensures Global(DoPublish(s, t))
  {
    hide Traced, Guarded, SnapOk, Seen, BusyOk, Without, HeldOk, Progress, LiveList;
    PublishLog(s, t);
    LockKept(s, DoPublish(s, t), t);
  }

  lemma PublishQuiet(s: State, t: nat)
    requires Here(s, t) && Work(s.frames[t]) && s.frames[t].pc.Publish?
    ensures Quiet(s, DoPublish(s, t), t) && Recorded(s, DoPublish(s, t), t)
  {
    hide Traced, Progress, Guarded, SnapOk, Seen, Without, NoSid, HeldOk, LiveList;
  }

  lemma PublishCounts(s: State, t: nat)
    requires Counts(s) && Here(s, t) && Work(s.frames[t]) && s.frames[t].pc.Publish?
    ensures Counts(DoPublish(s, t))
  {
    hide Progress, Traced, Guarded, Seen, BusyOk, SnapOk, LiveList;
    PublishItemCounts(s, t);
    PublishListCounts(s, t);
    PublishDeaths(s, t);
  }

  lemma PublishKeeps(s: State, t: nat)
    requires Inv(s) && t < |s.frames| && Work(s.frames[t]) && s.frames[t].pc.Publish? && Safe(s, s.frames[t])
    ensures Inv(DoPublish(s, t))
  {
    hide *;
    InvAt(s, t);
    PublishCounts(s, t);
    PublishGlobal(s, t);
    PublishOwn(s, t);
    PublishQuiet(s, t);
    Finish(s, DoPublish(s, t), t);
  }

  // ----- SendMessageLP

  lemma SnapshotDeaths(s: State, t: nat)
    requires Deaths(s) && t < |s.frames| && Work(s.frames[t]) && s.frames[t].pc.Snapshot? && Safe(s, s.frames[t])
    ensures Deaths(DoSnapshot(s, t))
  {
    hide LiveItem, Sids;
    var e := DoSnapshot(s, t).log[|s.log|];
    assert DoSnapshot(s, t).log == s.log + [e];
    GoneSame(s.log, e);
    DeathsKept(s, DoSnapshot(s, t), t);
  }

  lemma SnapshotRefs(s: State, t: nat)
    requires ItemCounts(s) && ListCounts(s) && t < |s.frames| && FrameOk(s, t, s.frames[t])
    requires Work(s.frames[t]) && s.frames[t].pc.Snapshot? && Safe(s, s.frames[t])
    ensures ItemCounts(DoSnapshot(s, t)) && ListCounts(DoSnapshot(s, t))
  {
    var s' := DoSnapshot(s, t);
    ItemCountsKept(s, s', t, if s.current.Some? then s.current.value else 0);
    ListCountsKept(s, s', t);
  }

  lemma SnapshotOwn(s: State, t: nat)
    requires Here(s, t) && Global(s) && Work(s.frames[t]) && s.frames[t].pc.Snapshot?
    ensures Placed(DoSnapshot(s, t), t, DoSnapshot(s, t).frames[t])
  {
    hide Traced, LiveList;
  }

  lemma SnapshotGlobal(s: State, t: nat)
    requires Here(s, t) && Global(s) && Work(s.frames[t]) && s.frames[t].pc.Snapshot?
    ensures Global(DoSnapshot(s, t))
  {
    hide Traced, Progress, Guarded, SnapOk, Seen, BusyOk, Without, NoSid, HeldOk, LiveList;
    var s' := DoSnapshot(s, t);
    var m := Sids(s.ids, CurItems(s));
    LogGrows(s.log, Effect(t, Send, To(m)), |s.frames|, m);
    LogAppend(s.log, Effect(t, Send, To(m)));
    GlobalKept(s, s', t);
  }

  lemma SnapshotQuiet(s: State, t: nat)
    requires Here(s, t) && Work(s.frames[t]) && s.frames[t].pc.Snapshot?
    ensures Quiet(s, DoSnapshot(s, t), t) && Recorded(s, DoSnapshot(s, t), t)
  {
    hide Traced, Progress, Guarded, SnapOk, Seen, Without, NoSid, HeldOk, LiveList;
  }

  lemma SnapshotCounts(s: State, t: nat)
    requires Counts(s) && Here(s, t) && Work(s.frames[t]) && s.frames[t].pc.Snapshot?
    ensures Counts(DoSnapshot(s, t))
  {
    hide Progress, Traced, Guarded, Seen, BusyOk, SnapOk, LiveList;
    SnapshotRefs(s, t);
    SnapshotDeaths(s, t);
  }

  lemma SnapshotKeeps(s: State, t: nat)
    requires Inv(s) && t < |s.frames| && Work(s.frames[t]) && s.frames[t].pc.Snapshot? && Safe(s, s.frames[t])
    ensures Inv(DoSnapshot(s, t))
  {
    hide *;
    InvAt(s, t);
    SnapshotCounts(s, t);
    SnapshotGlobal(s, t);
    SnapshotOwn(s, t);
    SnapshotQuiet(s, t);
    Finish(s, DoSnapshot(s, t), t);
  }

  lemma CountsDeaths(s: State)
    requires Counts(s)
    ensures Deaths(s)
  {
  }

  lemma GoneSame(log: seq<Event>, e: Event)
    requires !e.Gone?
    ensures forall i: nat :: GoneCount(log + [e], i) == GoneCount(log, i)
  {
    LogAppend(log, e);
  }

  /** A delivery extends the log: the item is alive, so it is not among the gone. */
  lemma DeliveryLog(s: State, e: Event)
    requires Deaths(s) && LogOk(s.log, |s.frames|, Members(s.log))
    requires (e.Begun? || e.Ended?) && LiveItem(s, e.item) && e.tid < |s.frames|
    ensures LogOk(s.log + [e], |s.frames|, Members(s.log))
  {
    LogAppend(s.log, e);
    assert Dead(s.itemRc, e.item) == 0;
    forall k | 0 <= k < |s.log| && s.log[k].Gone? ensures s.log[k].item != e.item {
      GoneIsCounted(s.log, k);
    }
  }

  lemma DeliverOwn(s: State, t: nat)
    requires Here(s, t) && Work(s.frames[t]) && s.frames[t].pc.Deliver?
    ensures Placed(DoDeliver(s, t), t, DoDeliver(s, t).frames[t])
  {
    hide Traced, Sids, LiveList;
  }

  lemma DeliverCounts(s: State, t: nat)
    requires Counts(s) && Here(s, t) && Work(s.frames[t]) && s.frames[t].pc.Deliver?
    ensures Counts(DoDeliver(s, t))
  {
    hide BusyOk, Seen, Guarded, Sids, SnapOk, Traced, LiveList, LiveItem;
    var f := s.frames[t];
    if f.pc.i < |f.snap| { GoneSame(s.log, Begun(t, f.snap[f.pc.i])); }
    LocalCounts(s, DoDeliver(s, t), t);
  }

  lemma DeliverLog(s: State, t: nat)
    requires Deaths(s) && Global(s) && Here(s, t) && Work(s.frames[t]) && s.frames[t].pc.Deliver?
    ensures LogOk(DoDeliver(s, t).log, |s.frames|, Members(s.log))
  {
    hide BusyOk, Seen, Guarded, Without, NoSid, HeldOk, Traced, NoneAfterGone, NeverLocked, Agrees;
    var f := s.frames[t];
    if f.pc.i < |f.snap| { DeliveryLog(s, Begun(t, f.snap[f.pc.i])); }
  }

  lemma DeliverGlobal(s: State, t: nat)
    requires Deaths(s) && Global(s) && Here(s, t) && Work(s.frames[t]) && s.frames[t].pc.Deliver?
    ensures Global(DoDeliver(s, t))
  {
    hide BusyOk, Seen, Guarded, Without, NoSid, HeldOk, Traced, SnapOk, NoneAfterGone, NeverLocked, Agrees, Progress,
      LiveList, LiveItem, Safe, Sids, Members, DistinctIds, LogOk;
    DeliverLog(s, t);
    GlobalKept(s, DoDeliver(s, t), t);
  }

  lemma DeliverQuiet(s: State, t: nat)
    requires Here(s, t) && Work(s.frames[t]) && s.frames[t].pc.Deliver? && Enabled(s, t)
    ensures Quiet(s, DoDeliver(s, t), t) && Recorded(s, DoDeliver(s, t), t)
  {
    hide Traced, LiveItem, SnapOk, BusyOk, Guarded, Without, NoSid, HeldOk, Sids, LiveList;
    var f := s.frames[t];
    if f.pc.i < |f.snap| {
      assert f.snap[..f.pc.i + 1] == f.snap[..f.pc.i] + [f.snap[f.pc.i]];
    } else {
      assert f.snap[..f.pc.i] == f.snap;
    }
  }

  lemma DeliverKeeps(s: State, t: nat)
    requires Inv(s) && t < |s.frames| && Work(s.frames[t]) && s.frames[t].pc.Deliver? && Safe(s, s.frames[t])
    requires Enabled(s, t)
    ensures Inv(DoDeliver(s, t))
  {
    hide *;
    InvAt(s, t);
    DeliverCounts(s, t);
    CountsDeaths(s);
    DeliverGlobal(s, t);
    DeliverOwn(s, t);
    DeliverQuiet(s, t);
    Finish(s, DoDeliver(s, t), t);
  }

  lemma ReturnOwn(s: State, t: nat)
    requires Here(s, t) && Work(s.frames[t]) && s.frames[t].pc.InHandler?
    ensures Placed(DoReturn(s, t), t, DoReturn(s, t).frames[t])
  {
    hide Traced, Sids, LiveList;
    var f := s.frames[t];
  }

  lemma ReturnCounts(s: State, t: nat)
    requires Counts(s) && Here(s, t) && Work(s.frames[t]) && s.frames[t].pc.InHandler?
    ensures Counts(DoReturn(s, t))
  {
    hide BusyOk, Seen, Guarded, Sids, SnapOk, Traced, LiveList, LiveItem;
    var f := s.frames[t];
    GoneSame(s.log, Ended(t, f.snap[f.pc.i]));
    LocalCounts(s, DoReturn(s, t), t);
  }

  lemma ReturnLog(s: State, t: nat)
    requires Deaths(s) && Global(s) && Here(s, t) && Work(s.frames[t]) && s.frames[t].pc.InHandler?
    ensures LogOk(DoReturn(s, t).log, |s.frames|, Members(s.log))
  {
    hide BusyOk, Seen, Guarded, Without, NoSid, HeldOk, Traced, NoneAfterGone, NeverLocked, Agrees;
    DeliveryLog(s, Ended(t, s.frames[t].snap[s.frames[t].pc.i]));
  }

  lemma ReturnGlobal(s: State, t: nat)
    requires Deaths(s) && Global(s) && Here(s, t) && Work(s.frames[t]) && s.frames[t].pc.InHandler?
    ensures Global(DoReturn(s, t))
  {
    hide BusyOk, Seen, Guarded, Without, NoSid, HeldOk, Traced, SnapOk, NoneAfterGone, NeverLocked, Agrees, Progress,
      LiveList, LiveItem, Safe, Sids, Members, DistinctIds, LogOk;
    ReturnLog(s, t);
    GlobalKept(s, DoReturn(s, t), t);
  }

  lemma ReturnQuiet(s: State, t: nat)
    requires Here(s, t) && Work(s.frames[t]) && s.frames[t].pc.InHandler?
    ensures Quiet(s, DoReturn(s, t), t) && Recorded(s, DoReturn(s, t), t)
  {
    hide Traced, LiveItem, SnapOk, Guarded, Without, NoSid, HeldOk, Sids, LiveList;
  }

  lemma ReturnKeeps(s: State, t: nat)
    requires Inv(s) && t < |s.frames| && Work(s.frames[t]) && s.frames[t].pc.InHandler? && Safe(s, s.frames[t])
    ensures Inv(DoReturn(s, t))
  {
    hide *;
    InvAt(s, t);
    ReturnCounts(s, t);
    CountsDeaths(s);
    ReturnGlobal(s, t);
    ReturnOwn(s, t);
    ReturnQuiet(s, t);
    Finish(s, DoReturn(s, t), t);
  }

  // ----- leaving a call

  lemma DropListCounts(s: State, t: nat)
    requires Counts(s) && Here(s, t) && Work(s.frames[t]) && s.frames[t].pc.DropList?
    ensures Counts(DoDropList(s, t))
  {
    hide Progress, Traced, Guarded, Seen, BusyOk, SnapOk, LiveList;
    var s', f := DoDropList(s, t), s.frames[t];
    ItemCountsKept(s, s', t, if f.list.Some? then f.list.value else 0);
    ListCountsKept(s, s', t);
    DeathsKept(s, s', t);
  }

  lemma DropListOwn(s: State, t: nat)
    requires Here(s, t) && Work(s.frames[t]) && s.frames[t].pc.DropList?
    ensures Placed(DoDropList(s, t), t, DoDropList(s, t).frames[t])
  {
    hide Traced, Sids, LiveList;
  }

  lemma DropListQuiet(s: State, t: nat)
    requires Here(s, t) && Work(s.frames[t]) && s.frames[t].pc.DropList?
    ensures Quiet(s, DoDropList(s, t), t) && Recorded(s, DoDropList(s, t), t)
  {
    hide Traced, Progress, Guarded, SnapOk, Seen, Without, NoSid, HeldOk, LiveList;
  }

  lemma DropListGlobal(s: State, t: nat)
    requires Global(s) && Here(s, t) && Work(s.frames[t]) && s.frames[t].pc.DropList?
    ensures Global(DoDropList(s, t))
  {
    hide Traced, Progress, Guarded, SnapOk, Seen, BusyOk, Without, NoSid, HeldOk, LiveList;
    GlobalSameLog(s, DoDropList(s, t), t);
  }

  lemma DropListKeeps(s: State, t: nat)
    requires Inv(s) && t < |s.frames| && Work(s.frames[t]) && s.frames[t].pc.DropList? && Safe(s, s.frames[t])
    ensures Inv(DoDropList(s, t))
  {
    hide *;
    InvAt(s, t);
    DropListCounts(s, t);
    DropListGlobal(s, t);
    DropListOwn(s, t);
    DropListQuiet(s, t);
    Finish(s, DoDropList(s, t), t);
  }

  lemma DropHeldOwn(s: State, t: nat)
    requires t < |s.frames| && FrameOk(s, t, s.frames[t]) && Work(s.frames[t]) && s.frames[t].pc.DropHeld?
    ensures Placed(DoDropHeld(s, t), t, DoDropHeld(s, t).frames[t])
  {
    hide Traced, Sids, LiveList;
  }

  lemma DropHeldQuiet(s: State, t: nat)
    requires Here(s, t) && Work(s.frames[t]) && s.frames[t].pc.DropHeld?
    ensures Quiet(s, DoDropHeld(s, t), t) && Recorded(s, DoDropHeld(s, t), t)
  {
    hide Traced, Progress, Guarded, SnapOk, Seen, Without, NoSid, HeldOk, LiveList;
  }

  lemma DropHeldCounts(s: State, t: nat)
    requires Counts(s) && Here(s, t) && Work(s.frames[t]) && s.frames[t].pc.DropHeld?
    ensures Counts(DoDropHeld(s, t))
  {
    hide Progress, Traced, Guarded, Seen, BusyOk, SnapOk, LiveList;
    ReleaseCounts(s, DoDropHeld(s, t), t);
  }

  lemma DropHeldGlobal(s: State, t: nat)
    requires Global(s) && Here(s, t) && Work(s.frames[t]) && s.frames[t].pc.DropHeld?
    ensures Global(DoDropHeld(s, t))
  {
    hide Traced, Progress, Guarded, SnapOk, Seen, BusyOk, Without, NoSid, HeldOk, LiveList;
    GlobalSameLog(s, DoDropHeld(s, t), t);
  }

  lemma DropHeldKeeps(s: State, t: nat)
    requires Inv(s) && t < |s.frames| && Work(s.frames[t]) && s.frames[t].pc.DropHeld?
    ensures Inv(DoDropHeld(s, t))
  {
    hide *;
    InvAt(s, t);
    DropHeldCounts(s, t);
    DropHeldGlobal(s, t);
    DropHeldOwn(s, t);
    DropHeldQuiet(s, t);
    Finish(s, DoDropHeld(s, t), t);
  }

  // ----- a new call, and all steps together

  lemma {:induction false} NotYetInLog(log: seq<Event>, t: nat)
    requires forall k | 0 <= k < |log| :: log[k].tid < t
    ensures Delivered(log, t) == [] && EffectsBy(log, t) == []
  {
    if log != [] {
      NotYetInLog(log[..|log| - 1], t);
    }
  }

  lemma CallCounts(s: State, op: Op)
    requires Counts(s)
    ensures Counts(s.(frames := s.frames + [NewFrame(op)]))
  {
    var s' := s.(frames := s.frames + [NewFrame(op)]);
    forall i: nat ensures Rc(s'.itemRc, i) == Sum(s'.lists, ByList(i)) + Sum(s'.frames, ByFrame(i)) {
      assert Rc(s.itemRc, i) == Sum(s.lists, ByList(i)) + Sum(s.frames, ByFrame(i));
      SumAppend(s.frames, NewFrame(op), ByFrame(i));
    }
    forall l: nat ensures ListRc(s'.lists, l) == One(s'.current, l) + Sum(s'.frames, ByHandle(l)) {
      assert ListRc(s.lists, l) == One(s.current, l) + Sum(s.frames, ByHandle(l));
      SumAppend(s.frames, NewFrame(op), ByHandle(l));
    }
    forall i: nat ensures Dead(s'.itemRc, i) == GoneCount(s'.log, i) + Sum(s'.frames, ByDeath(i)) {
      assert Dead(s.itemRc, i) == GoneCount(s.log, i) + Sum(s.frames, ByDeath(i));
      SumAppend(s.frames, NewFrame(op), ByDeath(i));
    }
  }

  lemma FrameOkSameWorld(s: State, s': State, u: nat, f: Frame)
    requires FrameOk(s, u, f) && s' == s.(frames := s'.frames)
    ensures FrameOk(s', u, f)
  {
  }

  lemma CallFrames(s: State, op: Op)
    requires FramesOk(s) && Global(s)
    ensures FramesOk(s.(frames := s.frames + [NewFrame(op)]))
  {
    var s' := s.(frames := s.frames + [NewFrame(op)]);
    NotYetInLog(s.log, |s.frames|);
    NewFrameOk(s, |s.frames|, op);
    forall u | 0 <= u < |s'.frames| ensures FrameOk(s', u, s'.frames[u]) {
      FrameOkSameWorld(s, s', u, s'.frames[u]);
    }
  }

  lemma NewFrameOk(s: State, t: nat, op: Op)
    requires Delivered(s.log, t) == [] && EffectsBy(s.log, t) == []
    ensures FrameOk(s, t, NewFrame(op))
  {
  }

  lemma CallGlobal(s: State, op: Op)
    requires Global(s)
    ensures Global(s.(frames := s.frames + [NewFrame(op)]))
  {
  }

  lemma MoveKeepsInv(s: State, t: nat)
    requires Inv(s) && t < |s.frames| && Safe(s, s.frames[t]) && Enabled(s, t)
    ensures Inv(Move(s, t))
  {
    var f := s.frames[t];
    if f.dying.Some? { DestructorKeeps(s, t); }
    else if f.drops != [] { DropOneKeeps(s, t); }
    else {
      match f.pc
      case SubAlloc => SubAllocKeeps(s, t);
      case Acquire => AcquireKeeps(s, t);
      case SubCopy(_) => SubCopyKeeps(s, t);
      case SubScan(_) => SubScanKeeps(s, t);
      case SubCompare(_) => SubCompareKeeps(s, t);
      case SubAppend => SubAppendKeeps(s, t);
      case UnsubCheck => UnsubCheckKeeps(s, t);
      case UnsubScan(_) => UnsubScanKeeps(s, t);
      case UnsubCompare(_) => UnsubCompareKeeps(s, t);
      case Publish => PublishKeeps(s, t);
      case Snapshot => SnapshotKeeps(s, t);
      case Unlock => UnlockKeeps(s, t);
      case Deliver(_) => DeliverKeeps(s, t);
      case InHandler(_) => ReturnKeeps(s, t);
      case DropList => DropListKeeps(s, t);
      case DropHeld => DropHeldKeeps(s, t);
      case Done =>
    }
  }

  /** Whatever step a frame takes, it changes no more than Quiet allows. */
  lemma MoveQuiet(s: State, t: nat)
    requires Inv(s) && t < |s.frames| && Safe(s, s.frames[t]) && Enabled(s, t)
    ensures s.frames[t].pc != Done || !Work(s.frames[t]) ==> Quiet(s, Move(s, t), t)
  {
    hide Here, Quiet, Recorded, Safe, Enabled;
    var f := s.frames[t];
    InvAt(s, t);
    if f.dying.Some? { DestructorQuiet(s, t); }
    else if f.drops != [] { DropOneQuiet(s, t); }
    else {
      match f.pc
      case SubAlloc => SubAllocQuiet(s, t);
      case Acquire => AcquireQuiet(s, t);
      case SubCopy(_) => SubCopyQuiet(s, t);
      case SubScan(_) => SubScanQuiet(s, t);
      case SubCompare(_) => SubCompareQuiet(s, t);
      case SubAppend => SubAppendQuiet(s, t);
      case UnsubCheck => UnsubCheckQuiet(s, t);
      case UnsubScan(_) => UnsubScanQuiet(s, t);
      case UnsubCompare(_) => UnsubCompareQuiet(s, t);
      case Publish => PublishQuiet(s, t);
      case Snapshot => SnapshotQuiet(s, t);
      case Unlock => UnlockQuiet(s, t);
      case Deliver(_) => DeliverQuiet(s, t);
      case InHandler(_) => ReturnQuiet(s, t);
      case DropList => DropListQuiet(s, t);
      case DropHeld => DropHeldQuiet(s, t);
      case Done =>
    }
  }

  lemma ExecKeepsInv(s: State, a: Action)
    requires Inv(s)
    ensures Inv(Exec(s, a))
  {
    match a
    case Call(op) =>
      CallCounts(s, op);
      CallFrames(s, op);
      CallGlobal(s, op);
    case Step(t) =>
      if Enabled(s, t) && Safe(s, s.frames[t]) { MoveKeepsInv(s, t); }
  }
}
