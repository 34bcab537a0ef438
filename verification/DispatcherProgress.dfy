/** The lock of the dispatcher is always given back: left to itself, the call that holds it
    unlocks within a number of steps that is linear in the published list and in the references
    it is giving up. */
module DispatcherProgress {
  import opened Options
  import opened Dispatcher
  import opened DispatcherInvariant
  import opened DispatcherSteps
  import opened DispatcherTheorems

  /** Only frame `t` takes its next n steps. */
  ghost function Alone(s: State, t: nat, n: nat): State
    decreases n
  {
    if n == 0 then s else Alone(Exec(s, Step(t)), t, n - 1)
  }

  /** Steps to the unlock from a program point under the lock, for a published list of n
      items, counting two for each reference given up on the way. */
  function StepsFrom(pc: Pc, n: nat): nat {
    match pc
    case Unlock => 1
    case Snapshot => 2
    case Publish => 2 * n + 2
    case SubAppend => 2 * n + 3
    case SubScan(i) => (if i <= n then 5 * (n - i) else 0) + 2 * n + 4
    case SubCompare(i) => (if i <= n then 5 * (n - i) else 0) + 2 * n + 3
    case SubCopy(i) => (if i <= n then n - i else 0) + 7 * n + 5
    case UnsubScan(i) => (if i <= n then 7 * (n - i) else 0) + 2 * n + 3
    case UnsubCompare(i) => (if i <= n then 7 * (n - i) else 0) + 2 * n + 2
    case UnsubCheck => 9 * n + 4
    case _ => 0
  }

  function Remaining(s: State, t: nat): nat
    requires t < |s.frames|
  {
    var f := s.frames[t];
    2 * |f.drops| + (if f.dying.Some? then 1 else 0) + StepsFrom(f.pc, |CurItems(s)|)
  }

  /** A step of the holder unlocks or brings it nearer to doing so. */
  ghost predicate Nearer(s: State, s': State, t: nat)
    requires t < |s.frames|
  {
    s'.lock.None? || (s'.lock == Some(t) && t < |s'.frames| && Remaining(s', t) < Remaining(s, t))
  }

  lemma ReleaseIsNearer(s: State, t: nat)
    requires Here(s, t) && s.lock == Some(t) && !Work(s.frames[t])
    ensures Nearer(s, Move(s, t), t)
  {
    hide Placed, LiveList, LiveItem, Traced;
  }

  lemma SubCopyIsNearer(s: State, t: nat)
    requires Here(s, t) && s.lock == Some(t) && Work(s.frames[t]) && s.frames[t].pc.SubCopy?
    ensures Nearer(s, Move(s, t), t)
  {
    hide LiveList, LiveItem, NoSid, HeldOk, Without, Traced, Seen, BusyOk, SnapOk, Guarded, Sids;
  }

  lemma SubScanIsNearer(s: State, t: nat)
    requires Here(s, t) && s.lock == Some(t) && Work(s.frames[t]) && s.frames[t].pc.SubScan?
    ensures Nearer(s, Move(s, t), t)
  {
    hide LiveList, LiveItem, NoSid, HeldOk, Without, Private, Traced, Seen, BusyOk, SnapOk, Guarded, Sids;
  }

  lemma SubCompareIsNearer(s: State, t: nat)
    requires Here(s, t) && s.lock == Some(t) && Work(s.frames[t]) && s.frames[t].pc.SubCompare?
    ensures Nearer(s, Move(s, t), t)
  {
    hide LiveList, LiveItem, NoSid, HeldOk, Without, Private, Traced, Seen, BusyOk, SnapOk, Guarded, Sids;
  }

  lemma SubAppendIsNearer(s: State, t: nat)
    requires Here(s, t) && s.lock == Some(t) && Work(s.frames[t]) && s.frames[t].pc.SubAppend?
    ensures Nearer(s, Move(s, t), t)
  {
    hide LiveList, LiveItem, NoSid, HeldOk, Without, Traced, Seen, BusyOk, SnapOk, Guarded, Sids;
  }

  lemma UnsubCheckIsNearer(s: State, t: nat)
    requires Here(s, t) && s.lock == Some(t) && Work(s.frames[t]) && s.frames[t].pc.UnsubCheck?
    ensures Nearer(s, Move(s, t), t)
  {
    hide LiveList, LiveItem, NoSid, HeldOk, Without, Traced, Seen, BusyOk, SnapOk, Guarded, Sids;
  }

  lemma UnsubScanIsNearer(s: State, t: nat)
    requires Here(s, t) && s.lock == Some(t) && Work(s.frames[t]) && s.frames[t].pc.UnsubScan?
    ensures Nearer(s, Move(s, t), t)
  {
    hide LiveList, LiveItem, NoSid, HeldOk, Without, Private, Traced, Seen, BusyOk, SnapOk, Guarded, Sids;
  }

  lemma UnsubCompareIsNearer(s: State, t: nat)
    requires Here(s, t) && s.lock == Some(t) && Work(s.frames[t]) && s.frames[t].pc.UnsubCompare?
    ensures Nearer(s, Move(s, t), t)
  {
    hide LiveList, LiveItem, NoSid, HeldOk, Without, Traced, Seen, BusyOk, SnapOk, Guarded, Sids;
  }

  lemma PublishIsNearer(s: State, t: nat)
    requires Here(s, t) && s.lock == Some(t) && Work(s.frames[t]) && s.frames[t].pc.Publish?
    ensures Nearer(s, Move(s, t), t)
  {
    hide LiveList, LiveItem, NoSid, HeldOk, Without, Private, Traced, Seen, BusyOk, SnapOk, Guarded, Sids;
  }

  lemma SnapshotIsNearer(s: State, t: nat)
    requires Here(s, t) && s.lock == Some(t) && Work(s.frames[t]) && s.frames[t].pc.Snapshot?
    ensures Nearer(s, Move(s, t), t)
  {
    hide LiveList, LiveItem, NoSid, HeldOk, Without, Private, Traced, Seen, BusyOk, SnapOk, Guarded, Sids;
  }

  lemma UnlockIsNearer(s: State, t: nat)
    requires Here(s, t) && s.lock == Some(t) && Work(s.frames[t]) && s.frames[t].pc.Unlock?
    ensures Nearer(s, Move(s, t), t)
  {
    hide LiveList, LiveItem, NoSid, HeldOk, Without, Private, Traced, Seen, BusyOk, SnapOk, Guarded, Sids;
  }

  lemma HolderIsNearer(s: State, t: nat)
    requires Inv(s) && s.lock == Some(t)
    ensures t < |s.frames| && Enabled(s, t) && Safe(s, s.frames[t]) && Nearer(s, Move(s, t), t)
  {
    hide Here, Nearer, Move, Safe;
    LockHeld(s, t);
    InvAt(s, t);
    InvIsSafe(s, t);
    var f := s.frames[t];
    if !Work(f) { ReleaseIsNearer(s, t); }
    else {
      match f.pc
      case SubCopy(_) => SubCopyIsNearer(s, t);
      case SubScan(_) => SubScanIsNearer(s, t);
      case SubCompare(_) => SubCompareIsNearer(s, t);
      case SubAppend => SubAppendIsNearer(s, t);
      case UnsubCheck => UnsubCheckIsNearer(s, t);
      case UnsubScan(_) => UnsubScanIsNearer(s, t);
      case UnsubCompare(_) => UnsubCompareIsNearer(s, t);
      case Publish => PublishIsNearer(s, t);
      case Snapshot => SnapshotIsNearer(s, t);
      case Unlock => UnlockIsNearer(s, t);
    }
  }

  lemma LockHeld(s: State, t: nat)
    requires Inv(s) && s.lock == Some(t)
    ensures t < |s.frames| && Locked(s.frames[t].pc) && Enabled(s, t)
  {
  }

  lemma {:induction false} HolderUnlocks(s: State, t: nat) returns (n: nat)
    requires Inv(s) && s.lock == Some(t)
    ensures t < |s.frames| && n <= Remaining(s, t) && Alone(s, t, n).lock.None?
    ensures forall j | 0 <= j < n :: Alone(s, t, j).lock == Some(t)
    decreases if t < |s.frames| then Remaining(s, t) else 0
  {
    hide Inv, Move, Safe, Enabled, Remaining;
    HolderIsNearer(s, t);
    ExecKeepsInv(s, Step(t));
    var s' := Exec(s, Step(t));
    if s'.lock.None? {
      n := 1;
      RemainingIsPositive(s, t);
      assert Alone(s', t, 0) == s';
    } else {
      var m := HolderUnlocks(s', t);
      n := m + 1;
      forall j | 0 <= j < n ensures Alone(s, t, j).lock == Some(t) {
        if j > 0 { assert Alone(s, t, j) == Alone(s', t, j - 1); }
      }
    }
  }

  lemma RemainingIsPositive(s: State, t: nat)
    requires Inv(s) && s.lock == Some(t) && t < |s.frames|
    ensures Remaining(s, t) > 0
  {
    LockHeld(s, t);
  }

  lemma StepsBound(pc: Pc, n: nat)
    ensures StepsFrom(pc, n) <= 9 * n + 5
  {
  }

  /** The call that holds m_Lock gives it back within a number of its own steps that is
      linear in the published list and in the references it is already giving up, and keeps
      it until then: it never waits, for a handler or for anything else. */
  lemma LockIsGivenBack(s: State, t: nat) returns (n: nat)
    requires Reachable(s) && s.lock == Some(t)
    ensures t < |s.frames| && n <= 9 * |CurItems(s)| + 2 * |s.frames[t].drops| + 6
    ensures Alone(s, t, n).lock.None? && forall j | 0 <= j < n :: Alone(s, t, j).lock == Some(t)
  {
    hide Inv, Reachable, StepsFrom, Alone;
    ReachableInv(s);
    n := HolderUnlocks(s, t);
    StepsBound(s.frames[t].pc, |CurItems(s)|);
  }
}
