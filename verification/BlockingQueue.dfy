/** ThreadsafeQueue (src/core/ThreadsafeQueue.h) as a machine of interleaved steps: one
    frame per call, the mutex `mut`, the condition variable, and the termination flag,
    which push reads before it takes the mutex. */
module BlockingQueue {
  import opened Options

  /** A queued item: the shared_ptr made by the push with this frame number. */
  datatype Entry<T> = Entry(tid: nat, value: T)

  datatype Op<T> = Push(value: T) | WaitAndPop | TryPop | Terminate

  datatype Pc<T> =
    | PushCheck(value: T)         // about to read the flag, without the mutex
    | PushLock(data: Entry<T>)    // the flag was clear
    | PushEnqueue(data: Entry<T>)
    | PushDrop
    | PushNotify
    | WaitLock
    | WaitCheck                   // about to evaluate the wait predicate
    | Blocked                     // inside wait, mutex released
    | Woken                       // notified or woken spuriously, waiting for the mutex
    | WaitPop
    | TryLock
    | TryTake
    | TermLock
    | TermSet
    | TermNotify
    | Unlock
    | Done

  datatype Frame<T> = Frame(op: Op<T>, pc: Pc<T>, got: Option<Entry<T>>)

  /** What happened, in order. `Passed` is a push that found the flag clear; `Nothing`
      is a pop that returned nullptr. */
  datatype Event<T> =
    | Passed(tid: nat)
    | Enqueued(entry: Entry<T>)
    | Dropped(entry: Entry<T>)
    | Popped(tid: nat, entry: Entry<T>)
    | Nothing(tid: nat)
    | Terminated(tid: nat)

  datatype State<T> = State(
    queue: seq<Entry<T>>, limit: nat, terminated: bool, dropped: nat,
    lock: Option<nat>, frames: seq<Frame<T>>, log: seq<Event<T>>)

  /** `wake` is the waiter notify_one picks; only a notifying step looks at it. */
  datatype Action<T> = Call(op: Op<T>) | Step(tid: nat, wake: nat) | Spurious(tid: nat)

  /** std::atomic_size_t wraps around. */
  const SIZE_MODULUS: nat := 0x1_0000_0000_0000_0000

  function Init<T>(limit: nat): State<T> {
    State([], limit, false, 0, None, [], [])
  }

  function Start<T>(op: Op<T>): Frame<T> {
    var pc := match op
      case Push(v) => PushCheck(v)
      case WaitAndPop => WaitLock
      case TryPop => TryLock
      case Terminate => TermLock;
    Frame(op, pc, None)
  }

  /** The program points at which a frame holds the mutex. */
  predicate Locked<T>(pc: Pc<T>) {
    pc.PushEnqueue? || pc.PushDrop? || pc.PushNotify? || pc.WaitCheck? || pc.WaitPop?
    || pc.TryTake? || pc.TermSet? || pc.TermNotify? || pc.Unlock?
  }

  predicate NeedsLock<T>(pc: Pc<T>) {
    pc.PushLock? || pc.WaitLock? || pc.Woken? || pc.TryLock? || pc.TermLock?
  }

  predicate SomeoneBlocked<T>(s: State<T>) {
    exists t :: 0 <= t < |s.frames| && s.frames[t].pc.Blocked?
  }

  /** notify_one must wake a waiter if there is one. */
  predicate Enabled<T>(s: State<T>, t: nat, wake: nat) {
    t < |s.frames| &&
    var pc := s.frames[t].pc;
    && !pc.Done? && !pc.Blocked?
    && (NeedsLock(pc) ==> s.lock.None?)
    && (pc.PushNotify? && SomeoneBlocked(s) ==> wake < |s.frames| && s.frames[wake].pc.Blocked?)
  }

  function Goto<T>(s: State<T>, t: nat, pc: Pc<T>): State<T>
    requires t < |s.frames|
  {
    s.(frames := s.frames[t := s.frames[t].(pc := pc)])
  }

  function Take<T>(s: State<T>, t: nat): State<T>
    requires t < |s.frames|
  {
    var f := s.frames[t];
    if s.queue != [] then
      s.(queue := s.queue[1..], log := s.log + [Popped(t, s.queue[0])],
         frames := s.frames[t := f.(pc := Unlock, got := Some(s.queue[0]))])
    else
      Goto(s, t, Unlock).(log := s.log + [Nothing(t)])
  }

  function DropOldest<T>(s: State<T>, t: nat): State<T>
    requires t < |s.frames|
  {
    if |s.queue| > s.limit then
      Goto(s, t, PushNotify).(queue := s.queue[1..], dropped := (s.dropped + 1) % SIZE_MODULUS,
                              log := s.log + [Dropped(s.queue[0])])
    else
      Goto(s, t, PushNotify)
  }

  /** notify_all: every waiter leaves the condition variable. */
  function WakeAll<T>(frames: seq<Frame<T>>): seq<Frame<T>> {
    seq(|frames|, k requires 0 <= k < |frames| =>
      if frames[k].pc.Blocked? then frames[k].(pc := Woken) else frames[k])
  }

  function NotifyOne<T>(s: State<T>, t: nat, wake: nat): State<T>
    requires t < |s.frames|
  {
    var s' := Goto(s, t, Unlock);
    if wake < |s.frames| && s.frames[wake].pc.Blocked? && wake != t then Goto(s', wake, Woken) else s'
  }

  function Move<T>(s: State<T>, t: nat, wake: nat): State<T>
    requires t < |s.frames|
  {
    match s.frames[t].pc
    case PushCheck(v) =>
      if s.terminated then Goto(s, t, Done)
      else Goto(s, t, PushLock(Entry(t, v))).(log := s.log + [Passed(t)])
    case PushLock(data) => Goto(s, t, PushEnqueue(data)).(lock := Some(t))
    case PushEnqueue(data) =>
      Goto(s, t, PushDrop).(queue := s.queue + [data], log := s.log + [Enqueued(data)])
    case PushDrop => DropOldest(s, t)
    case PushNotify => NotifyOne(s, t, wake)
    case WaitLock => Goto(s, t, WaitCheck).(lock := Some(t))
    case Woken => Goto(s, t, WaitCheck).(lock := Some(t))
    case WaitCheck =>
      if s.queue != [] || s.terminated then Goto(s, t, WaitPop)
      else Goto(s, t, Blocked).(lock := None)
    case WaitPop => Take(s, t)
    case TryLock => Goto(s, t, TryTake).(lock := Some(t))
    case TryTake => Take(s, t)
    case TermLock => Goto(s, t, TermSet).(lock := Some(t))
    case TermSet => Goto(s, t, TermNotify).(terminated := true, log := s.log + [Terminated(t)])
    case TermNotify => var s' := Goto(s, t, Unlock); s'.(frames := WakeAll(s'.frames))
    case Unlock => Goto(s, t, Done).(lock := None)
    case Blocked => s
    case Done => s
  }

  function Exec<T>(s: State<T>, a: Action<T>): State<T> {
    match a
    case Call(op) => s.(frames := s.frames + [Start(op)])
    case Step(t, wake) => if Enabled(s, t, wake) then Move(s, t, wake) else s
    case Spurious(t) => if t < |s.frames| && s.frames[t].pc.Blocked? then Goto(s, t, Woken) else s
  }

  function RunFrom<T>(s: State<T>, acts: seq<Action<T>>): State<T>
    decreases |acts|
  {
    if acts == [] then s else RunFrom(Exec(s, acts[0]), acts[1..])
  }

  ghost predicate Reachable<T(!new)>(s: State<T>) {
    exists acts: seq<Action<T>> :: RunFrom(Init(s.limit), acts) == s
  }
}
