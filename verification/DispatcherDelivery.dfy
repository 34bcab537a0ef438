/** Every call of the dispatcher returns when nobody stands in its way: left to itself, it
    waits only for m_Lock and for listeners that are inside another call's message. */
module DispatcherDelivery {
  import opened Options
  import opened Dispatcher
  import opened DispatcherInvariant
  import opened DispatcherSteps
  import opened DispatcherTheorems
  import opened DispatcherProgress

  // ----- who holds a listener's lock

  /** Frame u is inside the MessageHandler of this subscriber. */
  ghost predicate Handling(s: State, u: nat, sid: nat) {
    && u < |s.frames| && s.frames[u].pc.InHandler? && s.frames[u].pc.i < |s.frames[u].snap|
    && SidOf(s.ids, s.frames[u].snap[s.frames[u].pc.i]) == sid
  }

  /** A listener's lock is held only from inside its MessageHandler. */
  ghost predicate BusyHeld(s: State) {
    forall sid | sid in s.busy :: sid in s.listeners && Handling(s, s.busy[sid], sid)
  }

  /** What a step does to the listener locks. */
  ghost predicate BusyStep(s: State, s': State, t: nat) {
    && t < |s.frames| && t < |s'.frames|
    && (forall sid | sid in s'.busy && s'.busy[sid] != t :: sid in s.busy && s.busy[sid] == s'.busy[sid])
    && (forall sid | sid in s'.busy && s'.busy[sid] == t :: sid in s.listeners && Handling(s', t, sid))
  }

  lemma ReleaseBusy(s: State, t: nat)
    requires Here(s, t) && BusyHeld(s) && !Work(s.frames[t])
    ensures BusyStep(s, Move(s, t), t)
  {
    hide LiveList, LiveItem, Placed, Traced;
  }

  lemma DeliverBusy(s: State, t: nat)
    requires Here(s, t) && BusyHeld(s) && Work(s.frames[t]) && s.frames[t].pc.Deliver?
    ensures BusyStep(s, Move(s, t), t)
  {
    hide LiveList, LiveItem, Traced, Seen, BusyOk, SnapOk, Guarded, Sids;
  }

  lemma ReturnBusy(s: State, t: nat)
    requires Here(s, t) && BusyHeld(s) && Work(s.frames[t]) && s.frames[t].pc.InHandler?
    ensures BusyStep(s, Move(s, t), t)
  {
    hide LiveList, LiveItem, Traced, Seen, BusyOk, SnapOk, Guarded, Sids;
  }

  lemma OtherBusy(s: State, t: nat)
    requires Here(s, t) && BusyHeld(s) && Work(s.frames[t])
    requires !s.frames[t].pc.Deliver? && !s.frames[t].pc.InHandler?
    ensures BusyStep(s, Move(s, t), t)
  {
    hide Move, LiveList, LiveItem, Placed, Traced, Sids, Safe;
    OtherSame(s, t);
  }

  lemma OtherSame(s: State, t: nat)
    requires t < |s.frames| && Safe(s, s.frames[t]) && Work(s.frames[t])
    requires !s.frames[t].pc.Deliver? && !s.frames[t].pc.InHandler?
    ensures Move(s, t).busy == s.busy && |Move(s, t).frames| == |s.frames|
  {
    hide LiveList, LiveItem, Sids, CurItems, SidOf, Released, AddRef, AddListRef;
  }

  lemma MoveBusy(s: State, t: nat)
    requires Inv(s) && BusyHeld(s) && t < |s.frames| && Safe(s, s.frames[t])
    ensures BusyStep(s, Move(s, t), t)
  {
    hide *;
    InvAt(s, t);
    if !Work(s.frames[t]) {
      ReleaseBusy(s, t);
    } else if s.frames[t].pc.Deliver? {
      DeliverBusy(s, t);
    } else if s.frames[t].pc.InHandler? {
      ReturnBusy(s, t);
    } else {
      OtherBusy(s, t);
    }
  }

  lemma HandlingStays(s: State, s': State, t: nat, u: nat, sid: nat)
    requires Inv(s) && OneFrame(s, s', t) && s.ids <= s'.ids && u != t && Handling(s, u, sid)
    ensures Handling(s', u, sid)
  {
    assert FrameOk(s, u, s.frames[u]);
    assert s.frames[u].snap[s.frames[u].pc.i] in s.frames[u].snap;
  }

  lemma MoveKeepsBusy(s: State, t: nat)
    requires Inv(s) && BusyHeld(s) && t < |s.frames| && Safe(s, s.frames[t]) && Enabled(s, t)
    ensures BusyHeld(Move(s, t))
  {
    hide Inv, Move, Safe, Enabled, Handling;
    var s' := Move(s, t);
    MoveBusy(s, t);
    if s.frames[t].pc == Done && Work(s.frames[t]) {
      DoneStays(s, t);
    } else {
      MoveQuiet(s, t);
      forall sid | sid in s'.busy ensures sid in s'.listeners && Handling(s', s'.busy[sid], sid) {
        if s'.busy[sid] != t {
          HandlingStays(s, s', t, s'.busy[sid], sid);
        }
      }
    }
  }

  lemma DoneStays(s: State, t: nat)
    requires t < |s.frames| && Safe(s, s.frames[t]) && s.frames[t].pc == Done && Work(s.frames[t])
    ensures Move(s, t) == s
  {
  }

  lemma ExecKeepsBusy(s: State, a: Action)
    requires Inv(s) && BusyHeld(s)
    ensures BusyHeld(Exec(s, a))
  {
    hide Inv, Move, Safe;
    if a.Step? && Enabled(s, a.tid) && Safe(s, s.frames[a.tid]) {
      MoveKeepsBusy(s, a.tid);
    } else if a.Call? {
      forall sid | sid in s.busy ensures Handling(Exec(s, a), s.busy[sid], sid) {
        assert Handling(s, s.busy[sid], sid);
      }
    }
  }

  lemma {:induction false} RunKeepsBusy(s: State, acts: seq<Action>)
    requires Inv(s) && BusyHeld(s)
    ensures BusyHeld(RunFrom(s, acts))
    decreases |acts|
  {
    hide Inv, Exec, BusyHeld;
    if acts != [] {
      ExecKeepsInv(s, acts[0]);
      ExecKeepsBusy(s, acts[0]);
      RunKeepsBusy(Exec(s, acts[0]), acts[1..]);
    }
  }

  /** In every reachable state a listener's lock is held only by a call inside its handler. */
  lemma ReachableBusy(s: State)
    requires Reachable(s)
    ensures BusyHeld(s)
  {
    var acts :| RunFrom(Init(s.listeners), acts) == s;
    StartInv(s.listeners);
    RunKeepsBusy(Init(s.listeners), acts);
  }

  // ----- a call on its own comes nearer to its return

  /** Steps to the return from a program point, for a published list of c items, a list
      handle on o items and p items to deliver to; two for each reference given up. */
  function StepsAfter(pc: Pc, c: nat, o: nat, p: nat): nat {
    match pc
    case SubAlloc => 10 * c + 14
    case Acquire => 10 * c + 13
    case SubCopy(i) => (if i <= c then c - i else 0) + 8 * c + 12
    case SubScan(i) => (if i <= c then 4 * (c - i) else 0) + 4 * c + 11
    case SubCompare(i) => (if i <= c then 4 * (c - i) else 0) + 4 * c + 10
    case SubAppend => 4 * c + 10
    case UnsubCheck => 10 * c + 9
    case UnsubScan(i) => (if i <= c then 6 * (c - i) else 0) + 4 * c + 8
    case UnsubCompare(i) => (if i <= c then 6 * (c - i) else 0) + 4 * c + 7
    case Publish => 2 * c + 2 * o + 7
    case Snapshot => 4 * c + 7
    case Unlock => 2 * p + 2 * o + 6
    case Deliver(i) => (if i <= p then 2 * (p - i) else 0) + 2 * o + 5
    case InHandler(i) => (if i <= p then 2 * (p - i) else 0) + 2 * o + 4
    case DropList => 2 * o + 4
    case DropHeld => 3
    case Done => 0
  }

  ghost function StepsLeft(s: State, t: nat): nat
    requires t < |s.frames|
  {
    var f := s.frames[t];
    2 * |f.drops| + (if f.dying.Some? then 1 else 0) + StepsAfter(f.pc, |CurItems(s)|, |OwnItems(s, f)|, |f.snap|)
  }

  /** The subscribers a send is going to deliver to, all told. */
  ghost function Aim(s: State, f: Frame): seq<nat> {
    if !f.op.Send? then [] else if f.ret.None? then Sids(s.ids, CurItems(s)) else Sids(s.ids, f.snap)
  }

  /** Those of them whose MessageHandler it has not entered yet. */
  ghost function Awaited(s: State, f: Frame): seq<nat> {
    if !f.op.Send? then []
    else
      var aim := Aim(s, f);
      match f.pc
      case Deliver(i) => if i <= |aim| then aim[i..] else []
      case InHandler(i) => if i < |aim| then aim[i + 1..] else []
      case DropList => []
      case DropHeld => []
      case Done => []
      case _ => aim
  }

  /** A step of the call brings it nearer to its return and gives it nobody new to wait for. */
  ghost predicate Onward(s: State, s': State, t: nat)
    requires t < |s.frames|
  {
    && t < |s'.frames| && s'.frames[t].op == s.frames[t].op
    && StepsLeft(s', t) < StepsLeft(s, t)
    && (s.lock == None || s.lock == Some(t) ==> s'.lock == None || s'.lock == Some(t))
    && Aim(s', s'.frames[t]) == Aim(s, s.frames[t])
    && forall sid | sid in Awaited(s', s'.frames[t]) :: sid in Awaited(s, s.frames[t])
  }

  lemma ReleaseOnward(s: State, t: nat)
    requires Here(s, t) && !Work(s.frames[t])
    ensures Onward(s, Move(s, t), t)
  {
    hide LiveList, LiveItem, Placed, Traced, Sids;
  }

  lemma StartOnward(s: State, t: nat)
    requires Here(s, t) && Work(s.frames[t]) && s.frames[t].pc.SubAlloc?
    ensures Onward(s, Move(s, t), t)
  {
    hide LiveList, LiveItem, Traced, Sids, Progress, BusyOk, Seen, Guarded, SnapOk;
  }

  lemma AcquireOnward(s: State, t: nat)
    requires Here(s, t) && Work(s.frames[t]) && s.frames[t].pc.Acquire?
    ensures Onward(s, Move(s, t), t)
  {
    hide LiveList, LiveItem, Traced, Sids, BusyOk, Seen, Guarded, SnapOk;
  }

  lemma SubCopyOnward(s: State, t: nat)
    requires Here(s, t) && Work(s.frames[t]) && s.frames[t].pc.SubCopy?
    ensures Onward(s, Move(s, t), t)
  {
    hide LiveList, LiveItem, Traced, Sids, BusyOk, Seen, Guarded, SnapOk, NoSid, HeldOk, Without;
  }

  lemma SubScanOnward(s: State, t: nat)
    requires Here(s, t) && Work(s.frames[t]) && s.frames[t].pc.SubScan?
    ensures Onward(s, Move(s, t), t)
  {
    hide LiveList, LiveItem, Traced, Sids, BusyOk, Seen, Guarded, SnapOk, NoSid, HeldOk, Without, Private;
  }

  lemma SubCompareOnward(s: State, t: nat)
    requires Here(s, t) && Work(s.frames[t]) && s.frames[t].pc.SubCompare?
    ensures Onward(s, Move(s, t), t)
  {
    hide LiveList, LiveItem, Traced, Sids, BusyOk, Seen, Guarded, SnapOk, NoSid, HeldOk, Without, Private;
  }

  lemma SubAppendOnward(s: State, t: nat)
    requires Here(s, t) && Work(s.frames[t]) && s.frames[t].pc.SubAppend?
    ensures Onward(s, Move(s, t), t)
  {
    hide LiveList, LiveItem, Traced, Sids, BusyOk, Seen, Guarded, SnapOk, NoSid, HeldOk, Without;
  }

  lemma UnsubCheckOnward(s: State, t: nat)
    requires Here(s, t) && Work(s.frames[t]) && s.frames[t].pc.UnsubCheck?
    ensures Onward(s, Move(s, t), t)
  {
    hide LiveList, LiveItem, Traced, Sids, BusyOk, Seen, Guarded, SnapOk, NoSid, HeldOk, Without;
  }

  lemma UnsubScanOnward(s: State, t: nat)
    requires Here(s, t) && Work(s.frames[t]) && s.frames[t].pc.UnsubScan?
    ensures Onward(s, Move(s, t), t)
  {
    hide LiveList, LiveItem, Traced, Sids, BusyOk, Seen, Guarded, SnapOk, NoSid, HeldOk, Private, Without;
    WithoutSize(s.ids, CurItems(s)[..s.frames[t].pc.i], s.frames[t].op.sid);
  }

  lemma {:induction false} WithoutSize(ids: seq<nat>, xs: seq<nat>, id: nat)
    ensures |Without(ids, xs, id)| <= |xs|
  {
    if xs != [] {
      WithoutSize(ids, xs[..|xs| - 1], id);
    }
  }

  lemma UnsubCompareOnward(s: State, t: nat)
    requires Here(s, t) && Work(s.frames[t]) && s.frames[t].pc.UnsubCompare?
    ensures Onward(s, Move(s, t), t)
  {
    hide LiveList, LiveItem, Traced, Sids, BusyOk, Seen, Guarded, SnapOk, NoSid, HeldOk, Without;
  }

  lemma PublishOnward(s: State, t: nat)
    requires Here(s, t) && Work(s.frames[t]) && s.frames[t].pc.Publish?
    ensures Onward(s, Move(s, t), t)
  {
    hide LiveList, LiveItem, Traced, Sids, BusyOk, Seen, Guarded, SnapOk, NoSid, HeldOk, Without;
  }

  lemma SnapshotOnward(s: State, t: nat)
    requires Here(s, t) && Work(s.frames[t]) && s.frames[t].pc.Snapshot?
    ensures Onward(s, Move(s, t), t)
  {
    hide LiveList, LiveItem, Traced, Sids, BusyOk, Seen, Guarded, NoSid, HeldOk, Without, Private;
  }

  lemma UnlockOnward(s: State, t: nat)
    requires Here(s, t) && Work(s.frames[t]) && s.frames[t].pc.Unlock?
    ensures Onward(s, Move(s, t), t)
  {
    hide LiveList, LiveItem, Traced, Sids, BusyOk, Seen, Guarded, NoSid, HeldOk, Without, Private;
  }

  lemma DeliverOnward(s: State, t: nat)
    requires Here(s, t) && Work(s.frames[t]) && s.frames[t].pc.Deliver?
    ensures Onward(s, Move(s, t), t)
  {
    hide LiveList, LiveItem, Traced, BusyOk, Seen, Guarded, NoSid, HeldOk, Without, Private;
  }

  lemma ReturnOnward(s: State, t: nat)
    requires Here(s, t) && Work(s.frames[t]) && s.frames[t].pc.InHandler?
    ensures Onward(s, Move(s, t), t)
  {
    hide LiveList, LiveItem, Traced, BusyOk, Seen, Guarded, NoSid, HeldOk, Without, Private;
  }

  lemma DropListOnward(s: State, t: nat)
    requires Here(s, t) && Work(s.frames[t]) && s.frames[t].pc.DropList?
    ensures Onward(s, Move(s, t), t)
  {
    hide LiveList, LiveItem, Traced, Sids, BusyOk, Seen, Guarded, NoSid, HeldOk, Without, Private;
  }

  lemma DropHeldOnward(s: State, t: nat)
    requires Here(s, t) && Work(s.frames[t]) && s.frames[t].pc.DropHeld?
    ensures Onward(s, Move(s, t), t)
  {
    hide LiveList, LiveItem, Traced, Sids, BusyOk, Seen, Guarded, NoSid, HeldOk, Without, Private;
  }

  lemma MoveOnward(s: State, t: nat)
    requires Inv(s) && t < |s.frames| && Safe(s, s.frames[t]) && !Finished(s.frames[t])
    ensures Onward(s, Move(s, t), t)
  {
    hide Here, Onward, Move, Safe, Inv;
    InvAt(s, t);
    var f := s.frames[t];
    if !Work(f) { ReleaseOnward(s, t); }
    else {
      match f.pc
      case SubAlloc => StartOnward(s, t);
      case Acquire => AcquireOnward(s, t);
      case SubCopy(_) => SubCopyOnward(s, t);
      case SubScan(_) => SubScanOnward(s, t);
      case SubCompare(_) => SubCompareOnward(s, t);
      case SubAppend => SubAppendOnward(s, t);
      case UnsubCheck => UnsubCheckOnward(s, t);
      case UnsubScan(_) => UnsubScanOnward(s, t);
      case UnsubCompare(_) => UnsubCompareOnward(s, t);
      case Publish => PublishOnward(s, t);
      case Snapshot => SnapshotOnward(s, t);
      case Unlock => UnlockOnward(s, t);
      case Deliver(_) => DeliverOnward(s, t);
      case InHandler(_) => ReturnOnward(s, t);
      case DropList => DropListOnward(s, t);
      case DropHeld => DropHeldOnward(s, t);
    }
  }

  // ----- and so it returns

  /** No other call holds the lock of a listener that this one has still to deliver to. */
  ghost predicate Clear(s: State, t: nat)
    requires t < |s.frames|
  {
    forall sid | sid in Awaited(s, s.frames[t]) && sid in s.busy :: s.busy[sid] == t
  }

  lemma ClearIsEnabled(s: State, t: nat)
    requires Here(s, t) && BusyHeld(s) && Clear(s, t) && !Finished(s.frames[t])
    requires s.lock == None || (s.lock == Some(t) && Locked(s.frames[t].pc))
    ensures Enabled(s, t)
  {
    hide LiveList, LiveItem, Traced, BusyOk, Seen, Guarded, NoSid, HeldOk, Without, Private, SnapOk;
    var f := s.frames[t];
    if Work(f) && f.pc.Deliver? && f.pc.i < |f.snap| {
      assert Awaited(s, f)[0] == SidOf(s.ids, f.snap[f.pc.i]);
      assert SidOf(s.ids, f.snap[f.pc.i]) in Awaited(s, f);
    }
  }

  lemma ClearStays(s: State, s': State, t: nat)
    requires t < |s.frames| && Clear(s, t) && Onward(s, s', t) && BusyStep(s, s', t)
    ensures t < |s'.frames| && Clear(s', t)
  {
    hide Awaited, Handling;
  }

  lemma LockSide(s: State, t: nat)
    requires Inv(s) && s.lock == Some(t)
    ensures t < |s.frames| && Locked(s.frames[t].pc)
  {
  }

  lemma {:induction false} RunsToReturn(s: State, t: nat) returns (n: nat)
    requires Inv(s) && BusyHeld(s) && t < |s.frames| && Clear(s, t) && (s.lock == None || s.lock == Some(t))
    ensures n <= StepsLeft(s, t)
    ensures var s' := Alone(s, t, n);
            && t < |s'.frames| && Finished(s'.frames[t]) && s'.frames[t].op == s.frames[t].op
            && Inv(s') && Aim(s', s'.frames[t]) == Aim(s, s.frames[t])
    decreases StepsLeft(s, t)
  {
    hide Inv, Move, Safe, Enabled, StepsLeft, Finished, BusyHeld, Clear, Aim, Awaited;
    if Finished(s.frames[t]) {
      n := 0;
    } else {
      InvAt(s, t);
      if s.lock == Some(t) {
        LockSide(s, t);
      }
      ClearIsEnabled(s, t);
      MoveOnward(s, t);
      MoveBusy(s, t);
      ClearStays(s, Move(s, t), t);
      MoveKeepsBusy(s, t);
      MoveKeepsInv(s, t);
      var m := RunsToReturn(Move(s, t), t);
      n := m + 1;
    }
  }

  /** No other call is inside the MessageHandler of a listener this one has still to
      deliver to. */
  ghost predicate Unobstructed(s: State, t: nat)
    requires t < |s.frames|
  {
    forall u, sid | u != t && sid in s.listeners && Handling(s, u, sid) :: sid !in Awaited(s, s.frames[t])
  }

  lemma StepsBounded(s: State, t: nat)
    requires t < |s.frames|
    ensures StepsLeft(s, t)
            <= 10 * |CurItems(s)| + 2 * |OwnItems(s, s.frames[t])| + 2 * |s.frames[t].snap|
               + 2 * |s.frames[t].drops| + 15
  {
  }

  /** Every call returns. Take any reachable state in which m_Lock is free or held by the call,
      and no other call is inside the handler of a listener the call still has to deliver to:
      left to itself it returns, in a number of steps that is linear in the lists it looks at.
      A send has then delivered to every member of the set at its snapshot. */
  lemma CallReturns(s: State, t: nat) returns (n: nat)
    requires Reachable(s) && t < |s.frames| && (s.lock == None || s.lock == Some(t)) && Unobstructed(s, t)
    ensures n <= 10 * |CurItems(s)| + 2 * |OwnItems(s, s.frames[t])| + 2 * |s.frames[t].snap|
                 + 2 * |s.frames[t].drops| + 15
    ensures var s' := Alone(s, t, n);
            && t < |s'.frames| && Finished(s'.frames[t])
            && (s.frames[t].op.Send? && s.frames[t].ret.None? ==> Sids(s'.ids, Delivered(s'.log, t)) == Members(s.log))
            && (s.frames[t].op.Send? && s.frames[t].ret.Some? ==>
                  s.frames[t].ret == Some(To(Sids(s'.ids, Delivered(s'.log, t)))))
  {
    hide Inv, Reachable, StepsLeft, Awaited, Alone, Sids, Delivered, Members;
    ReachableInv(s);
    ReachableBusy(s);
    n := RunsToReturn(s, t);
    StepsBounded(s, t);
    if s.frames[t].op.Send? {
      Delivers(s, t, Alone(s, t, n));
    }
  }

  lemma Delivers(s: State, t: nat, s': State)
    requires Inv(s) && Inv(s') && t < |s.frames| && t < |s'.frames| && Finished(s'.frames[t])
    requires s.frames[t].op.Send? && s'.frames[t].op.Send? && Aim(s', s'.frames[t]) == Aim(s, s.frames[t])
    ensures s.frames[t].ret.None? ==> Sids(s'.ids, Delivered(s'.log, t)) == Members(s.log)
    ensures s.frames[t].ret.Some? ==> s.frames[t].ret == Some(To(Sids(s'.ids, Delivered(s'.log, t))))
  {
    assert FrameOk(s, t, s.frames[t]) && FrameOk(s', t, s'.frames[t]);
    SendFinished(s', t, s'.frames[t]);
  }
}
