/** The queue's mutex is always given back, and a call left to itself returns unless it is a
    wait_and_pop with nothing to wait for. */
module BlockingQueueProgress {
  import opened Options
  import opened BlockingQueue
  import opened BlockingQueueProofs

  /** Which waiter notify_one wakes, whenever there is one. */
  type Picker<!T> = State<T> -> nat

  ghost predicate Picks<T(!new)>(pick: Picker<T>) {
    forall s: State<T> | SomeoneBlocked(s) :: pick(s) < |s.frames| && s.frames[pick(s)].pc.Blocked?
  }

  /** Only frame `t` takes its next n steps. */
  ghost function Alone<T>(s: State<T>, t: nat, pick: Picker<T>, n: nat): State<T>
    decreases n
  {
    if n == 0 then s else Alone(Exec(s, Step(t, pick(s))), t, pick, n - 1)
  }

  /** Steps to the return from a program point, when nothing makes the call wait. */
  function StepsLeft<T>(pc: Pc<T>): nat {
    match pc
    case PushCheck(_) => 6
    case PushLock(_) => 5
    case PushEnqueue(_) => 4
    case PushDrop => 3
    case PushNotify => 2
    case WaitLock => 4
    case Woken => 4
    case WaitCheck => 3
    case WaitPop => 2
    case TryLock => 3
    case TryTake => 2
    case TermLock => 4
    case TermSet => 3
    case TermNotify => 2
    case Unlock => 1
    case _ => 0
  }

  /** The call holds the mutex exactly between taking and releasing it, and is not in wait. */
  ghost predicate Running<T>(s: State<T>, t: nat) {
    && t < |s.frames| && !s.frames[t].pc.Blocked?
    && s.lock == if Locked(s.frames[t].pc) then Some(t) else None
  }

  predicate WillPop<T>(pc: Pc<T>) {
    pc.WaitLock? || pc.Woken? || pc.WaitCheck? || pc.WaitPop? || pc.TryLock? || pc.TryTake?
  }

  /** The wait predicate holds, if the call is going to evaluate it. */
  predicate Served<T>(s: State<T>, pc: Pc<T>) {
    pc.WaitLock? || pc.Woken? || pc.WaitCheck? ==> s.queue != [] || s.terminated
  }

  function Front<T>(s: State<T>): Option<Entry<T>> {
    if s.queue == [] then None else Some(s.queue[0])
  }

  /** What the call is going to return. */
  function Outlook<T>(s: State<T>, t: nat): Option<Entry<T>>
    requires t < |s.frames|
  {
    if WillPop(s.frames[t].pc) then Front(s) else s.frames[t].got
  }

  /** A step brings the call nearer to its return, and changes nothing about the outcome. */
  ghost predicate Nearer<T>(s: State<T>, s': State<T>, t: nat)
    requires t < |s.frames|
  {
    && Running(s', t) && Served(s', s'.frames[t].pc)
    && StepsLeft(s'.frames[t].pc) < StepsLeft(s.frames[t].pc)
    && (WillPop(s'.frames[t].pc) ==> s'.frames[t].got.None?)
    && Outlook(s', t) == Outlook(s, t)
  }

  lemma MoveIsNearer<T>(s: State<T>, t: nat, wake: nat)
    requires Running(s, t) && !s.frames[t].pc.Done? && Enabled(s, t, wake) && Served(s, s.frames[t].pc)
    requires WillPop(s.frames[t].pc) ==> s.frames[t].got.None?
    ensures Nearer(s, Move(s, t, wake), t)
  {
    hide Nearer, Move, Enabled;
    var pc := s.frames[t].pc;
    if pc.PushNotify? || pc.TermNotify? {
      NotifyIsNearer(s, t, wake);
    } else if pc.WaitPop? || pc.TryTake? {
      TakeIsNearer(s, t, wake);
    } else if WillPop(pc) {
      WaitIsNearer(s, t, wake);
    } else {
      PlainIsNearer(s, t, wake);
    }
  }

  lemma NotifyIsNearer<T>(s: State<T>, t: nat, wake: nat)
    requires Running(s, t) && (s.frames[t].pc.PushNotify? || s.frames[t].pc.TermNotify?)
    ensures Nearer(s, Move(s, t, wake), t)
  {
  }

  lemma TakeIsNearer<T>(s: State<T>, t: nat, wake: nat)
    requires Running(s, t) && (s.frames[t].pc.WaitPop? || s.frames[t].pc.TryTake?) && s.frames[t].got.None?
    ensures Nearer(s, Move(s, t, wake), t)
  {
    hide WakeAll, NotifyOne, DropOldest;
  }

  lemma WaitIsNearer<T>(s: State<T>, t: nat, wake: nat)
    requires Running(s, t) && WillPop(s.frames[t].pc) && !s.frames[t].pc.WaitPop? && !s.frames[t].pc.TryTake?
    requires Served(s, s.frames[t].pc) && s.frames[t].got.None?
    ensures Nearer(s, Move(s, t, wake), t)
  {
    hide WakeAll, NotifyOne, DropOldest, Take;
  }

  lemma PlainIsNearer<T>(s: State<T>, t: nat, wake: nat)
    requires Running(s, t) && !WillPop(s.frames[t].pc) && !s.frames[t].pc.Done?
    requires !s.frames[t].pc.PushNotify? && !s.frames[t].pc.TermNotify?
    ensures Nearer(s, Move(s, t, wake), t)
  {
    hide WakeAll, NotifyOne, Take;
  }

  lemma PickIsEnabled<T(!new)>(s: State<T>, t: nat, pick: Picker<T>)
    requires Picks(pick) && Running(s, t) && !s.frames[t].pc.Done?
    ensures Enabled(s, t, pick(s))
  {
  }

  lemma {:induction false} RunsToItsEnd<T(!new)>(s: State<T>, t: nat, pick: Picker<T>) returns (n: nat)
    requires Picks(pick) && Running(s, t) && Served(s, s.frames[t].pc)
    requires WillPop(s.frames[t].pc) ==> s.frames[t].got.None?
    ensures n <= StepsLeft(s.frames[t].pc)
    ensures var s' := Alone(s, t, pick, n);
            t < |s'.frames| && s'.frames[t].pc.Done? && s'.frames[t].got == Outlook(s, t) && s'.lock.None?
    decreases StepsLeft(s.frames[t].pc)
  {
    hide Picks, Move, Enabled, Served, StepsLeft;
    if s.frames[t].pc.Done? {
      n := 0;
    } else {
      PickIsEnabled(s, t, pick);
      MoveIsNearer(s, t, pick(s));
      var m := RunsToItsEnd(Move(s, t, pick(s)), t, pick);
      n := m + 1;
    }
  }

  /** Left to itself while the mutex is free, any call that is not in wait returns within six
      steps of its own, whichever waiter it wakes: wait_and_pop provided there is an item or the
      queue has been terminated, the others always. A pop returns the front of the queue. */
  lemma LeftAloneItReturns<T(!new)>(s: State<T>, t: nat, pick: Picker<T>) returns (n: nat)
    requires Reachable(s) && Picks(pick) && s.lock.None? && t < |s.frames|
    requires !s.frames[t].pc.Blocked? && (s.frames[t].op.WaitAndPop? ==> s.queue != [] || s.terminated)
    ensures n <= 6
    ensures var s' := Alone(s, t, pick, n);
            && t < |s'.frames| && s'.frames[t].pc.Done? && s'.lock.None?
            && (!s.frames[t].pc.Done? && (s.frames[t].op.WaitAndPop? || s.frames[t].op.TryPop?) ==>
                  s'.frames[t].got == Front(s))
  {
    hide Reachable, Picks;
    ReachableInv(s);
    assert FrameOk(s, t, s.frames[t]);
    n := RunsToItsEnd(s, t, pick);
  }

  /** After termination nothing needs to be woken: as soon as the mutex is free, every call
      returns when left to itself. */
  lemma TerminatedCallsReturn<T(!new)>(s: State<T>, t: nat, pick: Picker<T>) returns (n: nat)
    requires Reachable(s) && Picks(pick) && s.terminated && s.lock.None? && t < |s.frames|
    ensures n <= 6 && t < |Alone(s, t, pick, n).frames| && Alone(s, t, pick, n).frames[t].pc.Done?
  {
    hide Reachable, Picks, Alone;
    TerminationUnblocks(s);
    n := LeftAloneItReturns(s, t, pick);
  }

  /** The holder of the mutex releases it within four of its own steps, by returning or by
      going to wait. */
  lemma MutexIsGivenBack<T(!new)>(s: State<T>, t: nat, pick: Picker<T>) returns (n: nat)
    requires Reachable(s) && Picks(pick) && s.lock == Some(t)
    ensures n <= 4 && Alone(s, t, pick, n).lock.None?
    ensures forall j | 0 <= j < n :: Alone(s, t, pick, j).lock == Some(t)
  {
    hide Reachable, Picks, Inv, Alone, StepsLeft, Locked;
    ReachableInv(s);
    HolderIsInside(s, t);
    n := HolderReleases(s, t, pick);
  }

  lemma HolderIsInside<T>(s: State<T>, t: nat)
    requires Inv(s) && s.lock == Some(t)
    ensures t < |s.frames| && Locked(s.frames[t].pc) && StepsLeft(s.frames[t].pc) <= 4
  {
    hide LogOk, FrameOk, WakeupsOk;
  }

  lemma {:induction false} HolderReleases<T(!new)>(s: State<T>, t: nat, pick: Picker<T>) returns (n: nat)
    requires Picks(pick) && s.lock == Some(t) && t < |s.frames| && Locked(s.frames[t].pc)
    ensures n <= StepsLeft(s.frames[t].pc) && Alone(s, t, pick, n).lock.None?
    ensures forall j | 0 <= j < n :: Alone(s, t, pick, j).lock == Some(t)
    decreases StepsLeft(s.frames[t].pc)
  {
    hide Picks, Move, Enabled;
    PickIsEnabled(s, t, pick);
    HolderMoves(s, t, pick(s));
    var s' := Move(s, t, pick(s));
    if s'.lock.None? {
      n := 1;
      assert Alone(s', t, pick, 0) == s';
    } else {
      var m := HolderReleases(s', t, pick);
      n := m + 1;
      forall j | 0 <= j < n ensures Alone(s, t, pick, j).lock == Some(t) {
        if j > 0 { assert Alone(s, t, pick, j) == Alone(s', t, pick, j - 1); }
      }
    }
  }

  lemma HolderMoves<T>(s: State<T>, t: nat, wake: nat)
    requires s.lock == Some(t) && t < |s.frames| && Locked(s.frames[t].pc) && Enabled(s, t, wake)
    ensures var s' := Move(s, t, wake);
            || s'.lock.None?
            || (s'.lock == Some(t) && t < |s'.frames| && Locked(s'.frames[t].pc)
                && StepsLeft(s'.frames[t].pc) < StepsLeft(s.frames[t].pc))
  {
  }

  // ----- termination takes effect

  /** A terminating call that has got past setting the flag has set it. */
  ghost predicate FlagSet<T>(s: State<T>) {
    forall t | 0 <= t < |s.frames| && s.frames[t].op.Terminate? ::
      s.frames[t].pc.TermLock? || s.frames[t].pc.TermSet? || s.terminated
  }

  lemma MoveKeepsFlag<T>(s: State<T>, t: nat, wake: nat)
    requires t < |s.frames| && Shape(t, s.frames[t]) && FlagSet(s)
    ensures FlagSet(Move(s, t, wake)) && (s.terminated ==> Move(s, t, wake).terminated)
  {
    hide Awake;
  }

  lemma ExecKeepsFlag<T>(s: State<T>, a: Action<T>)
    requires Inv(s) && FlagSet(s)
    ensures FlagSet(Exec(s, a))
  {
    hide Move, Enabled, LogOk, WakeupsOk, LockOk;
    if a.Step? && Enabled(s, a.tid, a.wake) && a.tid < |s.frames| {
      assert FrameOk(s, a.tid, s.frames[a.tid]);
      MoveKeepsFlag(s, a.tid, a.wake);
    } else if a.Step? && Enabled(s, a.tid, a.wake) {
      EnabledExists(s, a.tid, a.wake);
    }
  }

  lemma EnabledExists<T>(s: State<T>, t: nat, wake: nat)
    requires Enabled(s, t, wake)
    ensures t < |s.frames|
  {
  }

  lemma {:induction false} RunKeepsFlag<T>(s: State<T>, acts: seq<Action<T>>)
    requires Inv(s) && FlagSet(s)
    ensures FlagSet(RunFrom(s, acts))
    decreases |acts|
  {
    hide Inv, FlagSet, Exec;
    if acts != [] {
      ExecKeepsInv(s, acts[0]);
      ExecKeepsFlag(s, acts[0]);
      RunKeepsFlag(Exec(s, acts[0]), acts[1..]);
    }
  }

  /** Once a terminating call has returned the queue is terminated, and it is terminated only
      when some terminating call has set the flag. */
  lemma TerminateTerminates<T(!new)>(s: State<T>)
    requires Reachable(s)
    ensures forall t | 0 <= t < |s.frames| && s.frames[t].op.Terminate? && s.frames[t].pc.Done? :: s.terminated
    ensures s.terminated <==> exists k :: 0 <= k < |s.log| && s.log[k].Terminated?
  {
    hide Inv;
    var acts: seq<Action<T>> :| RunFrom(Init(s.limit), acts) == s;
    InitInv<T>(s.limit);
    RunKeepsFlag(Init(s.limit), acts);
    ReachableInv(s);
    FlagLogged(s);
  }

  lemma FlagLogged<T>(s: State<T>)
    requires Inv(s)
    ensures s.terminated <==> exists k :: 0 <= k < |s.log| && s.log[k].Terminated?
  {
  }
}
