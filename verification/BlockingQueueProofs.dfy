/** The invariant of the queue machine and what follows from it in every run. */
module BlockingQueueProofs {
  import opened Options
  import opened Sums
  import opened BlockingQueue
  import opened FiniteSets

  // ----- reading the log

  function After<T>(q: seq<Entry<T>>, e: Event<T>): seq<Entry<T>> {
    if e.Enqueued? then q + [e.entry]
    else if (e.Dropped? || e.Popped?) && q != [] then q[1..]
    else q
  }

  /** The queue the log leaves behind. */
  ghost function Replay<T>(log: seq<Event<T>>): seq<Entry<T>> {
    if log == [] then [] else After(Replay(log[..|log| - 1]), log[|log| - 1])
  }

  ghost function AllEnqueued<T>(log: seq<Event<T>>): seq<Entry<T>> {
    if log == [] then []
    else AllEnqueued(log[..|log| - 1])
         + (if log[|log| - 1].Enqueued? then [log[|log| - 1].entry] else [])
  }

  /** Entries taken out of the queue, popped or dropped, in the order they left. */
  ghost function AllRemoved<T>(log: seq<Event<T>>): seq<Entry<T>> {
    if log == [] then []
    else AllRemoved(log[..|log| - 1])
         + (var e := log[|log| - 1]; if e.Dropped? || e.Popped? then [e.entry] else [])
  }

  ghost function Drops<T>(log: seq<Event<T>>): nat {
    if log == [] then 0 else Drops(log[..|log| - 1]) + (if log[|log| - 1].Dropped? then 1 else 0)
  }

  ghost function EnqueuedBy<T>(log: seq<Event<T>>, t: nat): seq<Entry<T>> {
    if log == [] then []
    else EnqueuedBy(log[..|log| - 1], t)
         + (var e := log[|log| - 1]; if e.Enqueued? && e.entry.tid == t then [e.entry] else [])
  }

  /** What the pops of frame `t` obtained; None for nullptr. */
  ghost function TakenBy<T>(log: seq<Event<T>>, t: nat): seq<Option<Entry<T>>> {
    if log == [] then []
    else TakenBy(log[..|log| - 1], t)
         + TakenIn(log[|log| - 1], t)
  }

  function TakenIn<T>(e: Event<T>, t: nat): seq<Option<Entry<T>>> {
    if e.Popped? && e.tid == t then [Some(e.entry)]
    else if e.Nothing? && e.tid == t then [None]
    else []
  }

  /** Items leave at the head, nullptr is returned only on an empty queue, and an item is
      dropped only from a queue over its limit. */
  ghost predicate Orderly<T>(log: seq<Event<T>>, limit: nat) {
    forall k | 0 <= k < |log| ::
      && (log[k].Popped? ==> Replay(log[..k]) != [] && Replay(log[..k])[0] == log[k].entry)
      && (log[k].Dropped? ==> |Replay(log[..k])| == limit + 1 && Replay(log[..k])[0] == log[k].entry)
      && (log[k].Nothing? ==> Replay(log[..k]) == [])
  }

  ghost predicate HasTerminated<T>(log: seq<Event<T>>) {
    exists j :: 0 <= j < |log| && log[j].Terminated?
  }

  /** Frame `t` found the flag clear. */
  ghost predicate HasPassed<T>(log: seq<Event<T>>, t: nat) {
    exists j :: 0 <= j < |log| && log[j] == Passed(t)
  }

  /** Frame `t` found the flag clear, and nobody had set it yet. */
  ghost predicate PassedEarly<T>(log: seq<Event<T>>, t: nat) {
    exists j :: 0 <= j < |log| && log[j] == Passed(t) && !HasTerminated(log[..j])
  }

  function Owner<T>(e: Event<T>): nat {
    match e
    case Enqueued(x) => x.tid
    case Dropped(x) => x.tid
    case Passed(t) => t
    case Popped(t, _) => t
    case Nothing(t) => t
    case Terminated(t) => t
  }

  lemma LogAppend<T>(log: seq<Event<T>>, e: Event<T>, t: nat)
    ensures Replay(log + [e]) == After(Replay(log), e)
    ensures Drops(log + [e]) == Drops(log) + (if e.Dropped? then 1 else 0)
    ensures EnqueuedBy(log + [e], t) == EnqueuedBy(log, t) + (if e.Enqueued? && e.entry.tid == t then [e.entry] else [])
    ensures TakenBy(log + [e], t) == TakenBy(log, t) + TakenIn(e, t)
    ensures HasTerminated(log + [e]) <==> HasTerminated(log) || e.Terminated?
    ensures PassedEarly(log, t) ==> PassedEarly(log + [e], t)
    ensures e == Passed(t) && !HasTerminated(log) ==> PassedEarly(log + [e], t)
    ensures HasPassed(log + [e], t) <==> HasPassed(log, t) || e == Passed(t)
  {
    var log' := log + [e];
    assert log'[..|log|] == log;
    assert log'[|log|] == e;
    if HasTerminated(log) {
      var j :| 0 <= j < |log| && log[j].Terminated?;
      assert log'[j].Terminated?;
    }
    if PassedEarly(log, t) {
      var j :| 0 <= j < |log| && log[j] == Passed(t) && !HasTerminated(log[..j]);
      assert log'[j] == Passed(t) && log'[..j] == log[..j];
    }
    if HasPassed(log, t) {
      var j :| 0 <= j < |log| && log[j] == Passed(t);
      assert log'[j] == Passed(t);
    }
  }

  lemma OrderlyAppend<T>(log: seq<Event<T>>, e: Event<T>, limit: nat)
    requires Orderly(log, limit)
    requires e.Popped? ==> Replay(log) != [] && Replay(log)[0] == e.entry
    requires e.Dropped? ==> |Replay(log)| == limit + 1 && Replay(log)[0] == e.entry
    requires e.Nothing? ==> Replay(log) == []
    ensures Orderly(log + [e], limit)
  {
    var log' := log + [e];
    forall k | 0 <= k < |log'|
      ensures log'[k].Popped? ==> Replay(log'[..k]) != [] && Replay(log'[..k])[0] == log'[k].entry
      ensures log'[k].Dropped? ==> |Replay(log'[..k])| == limit + 1 && Replay(log'[..k])[0] == log'[k].entry
      ensures log'[k].Nothing? ==> Replay(log'[..k]) == []
    {
      assert log'[..k] == log[..k];
      assert log[..|log|] == log;
    }
  }

  // ----- the invariant

  /** The pcs a call of each kind can be at, and the locals it has there. */
  predicate Shape<T(==)>(t: nat, f: Frame<T>) {
    match f.op
    case Push(v) =>
      && f.got.None?
      && (match f.pc
          case PushCheck(w) => w == v
          case PushLock(d) => d == Entry(t, v)
          case PushEnqueue(d) => d == Entry(t, v)
          case _ => f.pc.PushDrop? || f.pc.PushNotify? || f.pc.Unlock? || f.pc.Done?)
    case WaitAndPop =>
      && (f.pc.WaitLock? || f.pc.WaitCheck? || f.pc.Blocked? || f.pc.Woken? || f.pc.WaitPop?
          || f.pc.Unlock? || f.pc.Done?)
      && (f.got.Some? ==> f.pc.Unlock? || f.pc.Done?)
    case TryPop =>
      && (f.pc.TryLock? || f.pc.TryTake? || f.pc.Unlock? || f.pc.Done?)
      && (f.got.Some? ==> f.pc.Unlock? || f.pc.Done?)
    case Terminate =>
      f.got.None? && (f.pc.TermLock? || f.pc.TermSet? || f.pc.TermNotify? || f.pc.Unlock? || f.pc.Done?)
  }

  /** The pushes of this frame, as a function of how far it has got. */
  ghost predicate PushTrace<T>(log: seq<Event<T>>, terminated: bool, t: nat, f: Frame<T>) {
    var mine := EnqueuedBy(log, t);
    match f.op
    case Push(v) =>
      && (f.pc.PushCheck? || f.pc.PushLock? || f.pc.PushEnqueue? ==> mine == [])
      && (f.pc.PushDrop? || f.pc.PushNotify? || f.pc.Unlock? ==> mine == [Entry(t, v)])
      && (f.pc.Done? ==> mine == [Entry(t, v)] || (mine == [] && terminated))
      && (if f.pc.PushCheck? || (f.pc.Done? && mine == []) then !HasPassed(log, t) else PassedEarly(log, t))
    case _ => mine == [] && !HasPassed(log, t)
  }

  ghost predicate PopTrace<T>(log: seq<Event<T>>, terminated: bool, t: nat, f: Frame<T>) {
    var taken := TakenBy(log, t);
    if (f.op.WaitAndPop? || f.op.TryPop?) && (f.pc.Unlock? || f.pc.Done?) then
      taken == [f.got] && (f.op.WaitAndPop? && f.got.None? ==> terminated)
    else
      taken == []
  }

  ghost predicate FrameOk<T>(s: State<T>, t: nat, f: Frame<T>) {
    && Shape(t, f)
    && PushTrace(s.log, s.terminated, t, f)
    && PopTrace(s.log, s.terminated, t, f)
    && (f.pc.WaitPop? ==> s.queue != [] || s.terminated)
  }

  ghost predicate LockOk<T>(s: State<T>) {
    && (forall t | 0 <= t < |s.frames| :: Locked(s.frames[t].pc) ==> s.lock == Some(t))
    && (s.lock.Some? ==> s.lock.value < |s.frames| && Locked(s.frames[s.lock.value].pc))
  }

  predicate AtDrop<T>(s: State<T>) {
    s.lock.Some? && s.lock.value < |s.frames| && s.frames[s.lock.value].pc.PushDrop?
  }

  predicate AtNotify<T>(s: State<T>) {
    s.lock.Some? && s.lock.value < |s.frames| && s.frames[s.lock.value].pc.PushNotify?
  }

  predicate AtTermNotify<T>(s: State<T>) {
    s.lock.Some? && s.lock.value < |s.frames| && s.frames[s.lock.value].pc.TermNotify?
  }

  /** Consumers that are going to evaluate the predicate again or have just seen it hold. */
  ghost function Awake<T>(): Frame<T> -> nat {
    (f: Frame<T>) => if f.pc.Woken? || f.pc.WaitCheck? || f.pc.WaitPop? then 1 else 0
  }

  /** No lost wakeup: while a consumer is blocked there are, for the queued items, at least
      as many consumers awake, counting the wakeup a push is about to send. */
  ghost predicate WakeupsOk<T>(s: State<T>) {
    SomeoneBlocked(s) ==>
      |s.queue| <= Sum(s.frames, Awake<T>()) + (if AtDrop(s) || AtNotify(s) then 1 else 0)
  }

  ghost predicate LogOk<T>(s: State<T>) {
    && Replay(s.log) == s.queue
    && Orderly(s.log, s.limit)
    && s.dropped == Drops(s.log) % SIZE_MODULUS
    && (s.terminated <==> HasTerminated(s.log))
    && (forall k | 0 <= k < |s.log| :: Owner(s.log[k]) < |s.frames|)
    && (forall k | 0 <= k < |s.log| && s.log[k].Nothing? ::
          s.frames[s.log[k].tid].op.WaitAndPop? ==> HasTerminated(s.log[..k]))
    && (forall e | e in s.queue :: e.tid < |s.frames|)
  }

  ghost predicate Inv<T>(s: State<T>) {
    && LockOk(s)
    && LogOk(s)
    && (forall t | 0 <= t < |s.frames| :: FrameOk(s, t, s.frames[t]))
    && |s.queue| <= s.limit + (if AtDrop(s) then 1 else 0)
    && WakeupsOk(s)
    && (s.terminated && SomeoneBlocked(s) ==> AtTermNotify(s))
  }

  // ----- what the plain steps do

  predicate Notifies<T>(pc: Pc<T>) { pc.PushNotify? || pc.TermNotify? }

  predicate Takes<T>(pc: Pc<T>) { pc.WaitPop? || pc.TryTake? }

  /** Where a step that neither notifies nor takes leads. */
  function NextPc<T>(s: State<T>, t: nat): Pc<T>
    requires t < |s.frames|
  {
    match s.frames[t].pc
    case PushCheck(v) => if s.terminated then Done else PushLock(Entry(t, v))
    case PushLock(data) => PushEnqueue(data)
    case PushEnqueue(_) => PushDrop
    case PushDrop => PushNotify
    case WaitLock => WaitCheck
    case Woken => WaitCheck
    case WaitCheck => if s.queue != [] || s.terminated then WaitPop else Blocked
    case TryLock => TryTake
    case TermLock => TermSet
    case TermSet => TermNotify
    case Unlock => Done
    case pc => pc
  }

  lemma MoveGoes<T>(s: State<T>, t: nat, wake: nat)
    requires t < |s.frames| && !Notifies(s.frames[t].pc) && !Takes(s.frames[t].pc)
    ensures Move(s, t, wake).frames == s.frames[t := s.frames[t].(pc := NextPc(s, t))]
    ensures !s.frames[t].pc.PushDrop? && !s.frames[t].pc.PushEnqueue? ==> Move(s, t, wake).queue == s.queue
    ensures s.terminated ==> Move(s, t, wake).terminated
  {
    hide SomeoneBlocked, WakeAll, NotifyOne, Take;
  }

  /** What such a step writes to the log. */
  function NextEvents<T>(s: State<T>, t: nat): (events: seq<Event<T>>)
    requires t < |s.frames|
    ensures events == [] || events == [events[0]]
  {
    match s.frames[t].pc
    case PushCheck(_) => if s.terminated then [] else [Passed(t)]
    case PushEnqueue(data) => [Enqueued(data)]
    case PushDrop => if |s.queue| > s.limit then [Dropped(s.queue[0])] else []
    case TermSet => [Terminated(t)]
    case _ => []
  }

  function AfterAny<T>(q: seq<Entry<T>>, events: seq<Event<T>>): seq<Entry<T>> {
    if events == [] then q else After(q, events[0])
  }

  lemma MoveLogs<T>(s: State<T>, t: nat, wake: nat)
    requires t < |s.frames| && !Notifies(s.frames[t].pc) && !Takes(s.frames[t].pc)
    ensures Move(s, t, wake).log == s.log + NextEvents(s, t)
    ensures Move(s, t, wake).terminated == (s.terminated || s.frames[t].pc.TermSet?)
    ensures Move(s, t, wake).limit == s.limit
    ensures Move(s, t, wake).queue == AfterAny(s.queue, NextEvents(s, t))
    ensures Move(s, t, wake).dropped
            == if |NextEvents(s, t)| == 1 && NextEvents(s, t)[0].Dropped? then (s.dropped + 1) % SIZE_MODULUS
               else s.dropped
  {
    hide SomeoneBlocked, WakeAll, NotifyOne, Take;
  }

  // ----- one step of frame `t`

  /** What a step of `t` does to the log and to the frames other than its own: at most one
      event, of its own, and blocked frames may be woken. */
  ghost predicate StepOf<T>(s: State<T>, s': State<T>, t: nat) {
    && t < |s.frames| && |s'.frames| == |s.frames| && s'.limit == s.limit
    && (s.terminated ==> s'.terminated)
    && (forall u | 0 <= u < |s.frames| && u != t ::
          s'.frames[u] == s.frames[u]
          || (s.frames[u].pc.Blocked? && s'.frames[u] == s.frames[u].(pc := Woken)))
    && (s'.log == s.log
        || (|s'.log| == |s.log| + 1 && s'.log == s.log + [s'.log[|s.log|]] && Concerns(s'.log[|s.log|], t)))
    && (s'.queue == s.queue || s.lock == Some(t))
  }

  /** The event is an enqueue or a pop by `t`, or concerns no frame's trace. */
  predicate Concerns<T>(e: Event<T>, t: nat) {
    match e
    case Enqueued(x) => x.tid == t
    case Passed(u) => u == t
    case Popped(u, _) => u == t
    case Nothing(u) => u == t
    case Dropped(_) => true
    case Terminated(u) => u == t
  }

  lemma OtherFrames<T>(s: State<T>, s': State<T>, t: nat, u: nat)
    requires StepOf(s, s', t) && LockOk(s) && u < |s.frames| && u != t && FrameOk(s, u, s.frames[u])
    ensures FrameOk(s', u, s'.frames[u])
  {
    hide Replay, Drops, EnqueuedBy, TakenBy, HasTerminated, PassedEarly, HasPassed;
    if s'.log != s.log {
      LogAppend(s.log, s'.log[|s.log|], u);
    }
  }

  lemma OwnEvent<T>(s: State<T>, t: nat, e: Event<T>)
    requires LogOk(s) && Owner(e) < |s.frames|
    requires e.Popped? ==> s.queue != [] && s.queue[0] == e.entry
    requires e.Dropped? ==> |s.queue| == s.limit + 1 && s.queue[0] == e.entry
    requires e.Nothing? ==> s.queue == [] && (s.frames[e.tid].op.WaitAndPop? ==> s.terminated)
    ensures var log := s.log + [e];
            && Orderly(log, s.limit)
            && (forall k | 0 <= k < |log| :: Owner(log[k]) < |s.frames|)
            && (forall k | 0 <= k < |log| && log[k].Nothing? ::
                  s.frames[log[k].tid].op.WaitAndPop? ==> HasTerminated(log[..k]))
            && Drops(log) == Drops(s.log) + (if e.Dropped? then 1 else 0)
            && (HasTerminated(log) <==> HasTerminated(s.log) || e.Terminated?)
  {
    hide Orderly, Replay, Drops;
    var log := s.log + [e];
    LogAppend(s.log, e, t);
    OrderlyAppend(s.log, e, s.limit);
    forall k | 0 <= k < |log| && log[k].Nothing?
      ensures s.frames[log[k].tid].op.WaitAndPop? ==> HasTerminated(log[..k])
    {
      assert log[..k] == s.log[..k];
      assert s.log[..|s.log|] == s.log;
    }
  }

  lemma DropsWrap(n: nat)
    ensures (n % SIZE_MODULUS + 1) % SIZE_MODULUS == (n + 1) % SIZE_MODULUS
  {
  }

  lemma MoveIsStep<T>(s: State<T>, t: nat, wake: nat)
    requires Inv(s) && Enabled(s, t, wake)
    ensures StepOf(s, Move(s, t, wake), t)
  {
    hide WakeupsOk, LogOk, PushTrace, PopTrace;
    assert FrameOk(s, t, s.frames[t]);
  }

  ghost predicate SameOps<T>(s: State<T>, s': State<T>) {
    |s'.frames| == |s.frames| && forall u | 0 <= u < |s.frames| :: s'.frames[u].op == s.frames[u].op
  }

  lemma LogOkSame<T>(s: State<T>, s': State<T>)
    requires LogOk(s) && SameOps(s, s') && s'.log == s.log && s'.queue == s.queue && s'.limit == s.limit
    requires s'.dropped == s.dropped && s'.terminated == s.terminated
    ensures LogOk(s')
  {
  }

  lemma LogOkEvent<T>(s: State<T>, s': State<T>, t: nat, e: Event<T>)
    requires LogOk(s) && SameOps(s, s') && s'.log == s.log + [e] && s'.limit == s.limit && Owner(e) < |s.frames|
    requires s'.queue == After(s.queue, e)
    requires s'.dropped == (if e.Dropped? then (s.dropped + 1) % SIZE_MODULUS else s.dropped)
    requires s'.terminated == (s.terminated || e.Terminated?)
    requires e.Popped? ==> s.queue != [] && s.queue[0] == e.entry
    requires e.Dropped? ==> |s.queue| == s.limit + 1 && s.queue[0] == e.entry
    requires e.Nothing? ==> s.queue == [] && (s.frames[e.tid].op.WaitAndPop? ==> s.terminated)
    ensures LogOk(s')
  {
    hide Orderly, Replay, Drops, HasTerminated, EnqueuedBy, TakenBy, PassedEarly, HasPassed;
    OwnEvent(s, t, e);
    LogAppend(s.log, e, t);
    DropsWrap(Drops(s.log));
  }

  lemma QuietLog<T>(s: State<T>, t: nat, wake: nat)
    requires LogOk(s) && t < |s.frames| && NextEvents(s, t) == [] && !Notifies(s.frames[t].pc) && !Takes(s.frames[t].pc)
    ensures LogOk(Move(s, t, wake))
  {
    hide LogOk, Move, NextEvents;
    MoveGoes(s, t, wake);
    MoveLogs(s, t, wake);
    assert s.log + [] == s.log;
    TermSetIsLogged(s, t);
    LogOkSame(s, Move(s, t, wake));
  }

  lemma TermSetIsLogged<T>(s: State<T>, t: nat)
    requires t < |s.frames|
    ensures s.frames[t].pc.TermSet? <==> NextEvents(s, t) != [] && NextEvents(s, t)[0].Terminated?
  {
  }

  lemma NotifyLog<T>(s: State<T>, t: nat, wake: nat)
    requires LogOk(s) && t < |s.frames| && Notifies(s.frames[t].pc)
    ensures LogOk(Move(s, t, wake))
  {
    hide LogOk, SomeoneBlocked;
    LogOkSame(s, Move(s, t, wake));
  }

  lemma TakeLog<T>(s: State<T>, t: nat, wake: nat)
    requires LogOk(s) && t < |s.frames| && FrameOk(s, t, s.frames[t]) && Takes(s.frames[t].pc)
    requires forall e | e in s.queue :: e.tid < |s.frames|
    ensures LogOk(Move(s, t, wake))
  {
    hide LogOk, SomeoneBlocked, PushTrace, PopTrace, WakeAll;
    LogOkEvent(s, Take(s, t), t, if s.queue != [] then Popped(t, s.queue[0]) else Nothing(t));
  }

  lemma EventLog<T>(s: State<T>, t: nat, wake: nat)
    requires LogOk(s) && t < |s.frames| && FrameOk(s, t, s.frames[t]) && NextEvents(s, t) != []
    requires !Takes(s.frames[t].pc) && !Notifies(s.frames[t].pc)
    requires (forall e | e in s.queue :: e.tid < |s.frames|) && |s.queue| <= s.limit + 1
    ensures LogOk(Move(s, t, wake))
  {
    hide LogOk, Move, PushTrace, PopTrace, NextEvents;
    MoveGoes(s, t, wake);
    MoveLogs(s, t, wake);
    EventOwner(s, t);
    TermSetIsLogged(s, t);
    var e := NextEvents(s, t)[0];
    assert s.log + NextEvents(s, t) == s.log + [e];
    LogOkEvent(s, Move(s, t, wake), t, e);
  }

  lemma EventOwner<T>(s: State<T>, t: nat)
    requires t < |s.frames| && Shape(t, s.frames[t]) && NextEvents(s, t) != []
    requires (forall e | e in s.queue :: e.tid < |s.frames|) && |s.queue| <= s.limit + 1
    ensures var e := NextEvents(s, t)[0];
            && Owner(e) < |s.frames| && !e.Popped? && !e.Nothing?
            && (e.Dropped? ==> |s.queue| == s.limit + 1 && s.queue[0] == e.entry)
  {
  }

  lemma MoveLog<T>(s: State<T>, t: nat, wake: nat)
    requires Inv(s) && Enabled(s, t, wake)
    ensures LogOk(Move(s, t, wake))
  {
    hide WakeupsOk, FrameOk, LogOk, Move, NextEvents;
    QueueOwners(s);
    if Notifies(s.frames[t].pc) { NotifyLog(s, t, wake); }
    else if Takes(s.frames[t].pc) { TakeLog(s, t, wake); }
    else if NextEvents(s, t) == [] { QuietLog(s, t, wake); } else { EventLog(s, t, wake); }
  }

  lemma QueueOwners<T>(s: State<T>)
    requires LogOk(s)
    ensures forall e | e in s.queue :: e.tid < |s.frames|
  {
  }

  lemma MoveOwn<T>(s: State<T>, t: nat, wake: nat)
    requires Inv(s) && Enabled(s, t, wake)
    ensures t < |Move(s, t, wake).frames| && FrameOk(Move(s, t, wake), t, Move(s, t, wake).frames[t])
  {
    hide Inv, Shape, PushTrace, PopTrace, Move;
    FlagInLog(s, t);
    if Notifies(s.frames[t].pc) {
      OwnNotify(s, t, wake);
    } else if Takes(s.frames[t].pc) {
      OwnTake(s, t, wake);
    } else {
      OwnShape(s, t, wake);
      OwnWait(s, t, wake);
      OwnPushes(s, t, wake);
      OwnPops(s, t, wake);
    }
  }

  lemma FlagInLog<T>(s: State<T>, t: nat)
    requires Inv(s) && t < |s.frames|
    ensures FrameOk(s, t, s.frames[t]) && (s.terminated <==> HasTerminated(s.log))
  {
  }

  lemma OwnNotify<T>(s: State<T>, t: nat, wake: nat)
    requires t < |s.frames| && FrameOk(s, t, s.frames[t]) && Notifies(s.frames[t].pc)
    ensures t < |Move(s, t, wake).frames| && FrameOk(Move(s, t, wake), t, Move(s, t, wake).frames[t])
  {
    hide HasTerminated, SomeoneBlocked, EnqueuedBy, TakenBy, PassedEarly, HasPassed;
    var s' := Move(s, t, wake);
    assert s'.log == s.log && s'.terminated == s.terminated;
    assert s'.frames[t] == s.frames[t].(pc := Unlock);
  }

  lemma OwnTake<T>(s: State<T>, t: nat, wake: nat)
    requires t < |s.frames| && FrameOk(s, t, s.frames[t]) && Takes(s.frames[t].pc)
    ensures t < |Move(s, t, wake).frames| && FrameOk(Move(s, t, wake), t, Move(s, t, wake).frames[t])
  {
    hide HasTerminated, SomeoneBlocked, EnqueuedBy, TakenBy, PassedEarly, HasPassed, Replay, Drops, WakeAll;
    var s' := Take(s, t);
    var e := if s.queue != [] then Popped(t, s.queue[0]) else Nothing(t);
    assert Move(s, t, wake) == s' && s'.log == s.log + [e];
    LogAppend(s.log, e, t);
  }

  lemma OwnShape<T>(s: State<T>, t: nat, wake: nat)
    requires t < |s.frames| && Shape(t, s.frames[t])
    requires !Notifies(s.frames[t].pc) && !Takes(s.frames[t].pc)
    ensures t < |Move(s, t, wake).frames| && Shape(t, Move(s, t, wake).frames[t])
  {
    hide Move;
    MoveGoes(s, t, wake);
  }

  lemma OwnWait<T>(s: State<T>, t: nat, wake: nat)
    requires t < |s.frames| && !Notifies(s.frames[t].pc) && !Takes(s.frames[t].pc)
    ensures var s' := Move(s, t, wake);
            t < |s'.frames| && (s'.frames[t].pc.WaitPop? ==> s'.queue != [] || s'.terminated)
  {
    hide Move;
    MoveGoes(s, t, wake);
  }

  lemma OwnPushes<T>(s: State<T>, t: nat, wake: nat)
    requires t < |s.frames| && FrameOk(s, t, s.frames[t]) && (s.terminated <==> HasTerminated(s.log))
    requires !Notifies(s.frames[t].pc) && !Takes(s.frames[t].pc)
    ensures var s' := Move(s, t, wake); t < |s'.frames| && PushTrace(s'.log, s'.terminated, t, s'.frames[t])
  {
    hide HasTerminated, PushTrace, PopTrace, Move;
    MoveGoes(s, t, wake);
    MoveLogs(s, t, wake);
    if NextEvents(s, t) == [] {
      assert s.log + [] == s.log;
      QuietPush(s, t, s.terminated || s.frames[t].pc.TermSet?);
    } else {
      LoudPush(s, t, s.terminated || s.frames[t].pc.TermSet?);
    }
  }

  lemma QuietPush<T>(s: State<T>, t: nat, terminated: bool)
    requires t < |s.frames| && FrameOk(s, t, s.frames[t]) && NextEvents(s, t) == []
    requires !Notifies(s.frames[t].pc) && !Takes(s.frames[t].pc) && (s.terminated ==> terminated)
    ensures PushTrace(s.log, terminated, t, s.frames[t].(pc := NextPc(s, t)))
  {
    hide EnqueuedBy, PassedEarly, HasPassed, PopTrace;
  }

  lemma LoudPush<T>(s: State<T>, t: nat, terminated: bool)
    requires t < |s.frames| && FrameOk(s, t, s.frames[t]) && NextEvents(s, t) != []
    requires s.terminated <==> HasTerminated(s.log)
    requires !Notifies(s.frames[t].pc) && !Takes(s.frames[t].pc) && (s.terminated ==> terminated)
    ensures PushTrace(s.log + NextEvents(s, t), terminated, t, s.frames[t].(pc := NextPc(s, t)))
  {
    hide EnqueuedBy, TakenBy, Replay, Drops, PassedEarly, HasPassed, HasTerminated, PopTrace;
    var e := NextEvents(s, t)[0];
    assert s.log + NextEvents(s, t) == s.log + [e];
    LogAppend(s.log, e, t);
  }

  lemma OwnPops<T>(s: State<T>, t: nat, wake: nat)
    requires t < |s.frames| && FrameOk(s, t, s.frames[t])
    requires !Notifies(s.frames[t].pc) && !Takes(s.frames[t].pc)
    ensures var s' := Move(s, t, wake); t < |s'.frames| && PopTrace(s'.log, s'.terminated, t, s'.frames[t])
  {
    hide HasTerminated, EnqueuedBy, TakenBy, Replay, Drops, PassedEarly, HasPassed, PushTrace, Move;
    MoveGoes(s, t, wake);
    MoveLogs(s, t, wake);
    if NextEvents(s, t) != [] {
      var e := NextEvents(s, t)[0];
      assert s.log + NextEvents(s, t) == s.log + [e];
      LogAppend(s.log, e, t);
    } else {
      assert s.log + [] == s.log;
    }
  }

  lemma MoveLock<T>(s: State<T>, t: nat, wake: nat)
    requires LockOk(s) && Enabled(s, t, wake)
    ensures LockOk(Move(s, t, wake))
  {
  }

  lemma MoveBounds<T>(s: State<T>, t: nat, wake: nat)
    requires Inv(s) && Enabled(s, t, wake)
    ensures var s' := Move(s, t, wake);
            |s'.queue| <= s'.limit + (if AtDrop(s') then 1 else 0)
    ensures var s' := Move(s, t, wake); s'.terminated && SomeoneBlocked(s') ==> AtTermNotify(s')
  {
    hide WakeupsOk, LogOk, PushTrace, PopTrace;
    assert FrameOk(s, t, s.frames[t]);
  }

  // ----- wakeups

  lemma AwakeUpdate<T>(fs: seq<Frame<T>>, t: nat, f: Frame<T>)
    requires t < |fs|
    ensures Sum(fs[t := f], Awake<T>()) + Awake<T>()(fs[t]) == Sum(fs, Awake<T>()) + Awake<T>()(f)
  {
    SumUpdate(fs, t, f, Awake<T>());
  }

  lemma StillBlocked<T>(s: State<T>, s': State<T>, t: nat)
    requires StepOf(s, s', t) && SomeoneBlocked(s') && !s'.frames[t].pc.Blocked?
    ensures SomeoneBlocked(s)
  {
    var u :| 0 <= u < |s'.frames| && s'.frames[u].pc.Blocked?;
    assert s.frames[u].pc.Blocked?;
  }

  /** A notification turns the push's pending wakeup into an awake consumer. */
  lemma NotifyWakeups<T>(s: State<T>, t: nat, wake: nat)
    requires Inv(s) && Enabled(s, t, wake) && s.frames[t].pc.PushNotify?
    ensures WakeupsOk(Move(s, t, wake))
  {
    hide FrameOk, LogOk;
    var s' := Move(s, t, wake);
    if SomeoneBlocked(s') {
      MoveIsStep(s, t, wake);
      StillBlocked(s, s', t);
      var mid := s.frames[t := s.frames[t].(pc := Unlock)];
      AwakeUpdate(s.frames, t, mid[t]);
      AwakeUpdate(mid, wake, mid[wake].(pc := Woken));
    }
  }

  /** The other steps change one frame and, if they take items, the queue. */
  lemma PlainWakeups<T>(s: State<T>, t: nat, wake: nat)
    requires Inv(s) && Enabled(s, t, wake) && !s.frames[t].pc.PushNotify? && !s.frames[t].pc.TermNotify?
    ensures WakeupsOk(Move(s, t, wake))
  {
    hide LogOk, PushTrace, PopTrace;
    assert FrameOk(s, t, s.frames[t]);
    var s' := Move(s, t, wake);
    AwakeUpdate(s.frames, t, s'.frames[t]);
    if SomeoneBlocked(s') && !s'.frames[t].pc.Blocked? {
      MoveIsStep(s, t, wake);
      StillBlocked(s, s', t);
    }
  }

  lemma MoveWakeups<T>(s: State<T>, t: nat, wake: nat)
    requires Inv(s) && Enabled(s, t, wake)
    ensures WakeupsOk(Move(s, t, wake))
  {
    hide Inv;
    if s.frames[t].pc.PushNotify? { NotifyWakeups(s, t, wake); }
    else if !s.frames[t].pc.TermNotify? { PlainWakeups(s, t, wake); }
  }

  lemma MoveKeepsInv<T>(s: State<T>, t: nat, wake: nat)
    requires Inv(s) && Enabled(s, t, wake)
    ensures Inv(Move(s, t, wake))
  {
    hide Move, FrameOk, LogOk, WakeupsOk, SomeoneBlocked, StepOf;
    var s' := Move(s, t, wake);
    MoveLock(s, t, wake);
    MoveIsStep(s, t, wake);
    MoveLog(s, t, wake);
    MoveOwn(s, t, wake);
    MoveBounds(s, t, wake);
    MoveWakeups(s, t, wake);
    MoveFrames(s, s', t);
  }

  lemma MoveFrames<T>(s: State<T>, s': State<T>, t: nat)
    requires StepOf(s, s', t) && LockOk(s) && FrameOk(s', t, s'.frames[t])
    requires forall u | 0 <= u < |s.frames| :: FrameOk(s, u, s.frames[u])
    ensures forall u | 0 <= u < |s'.frames| :: FrameOk(s', u, s'.frames[u])
  {
    hide FrameOk;
    forall u | 0 <= u < |s'.frames| ensures FrameOk(s', u, s'.frames[u]) {
      if u != t { OtherFrames(s, s', t, u); }
    }
  }

  lemma CallFrames<T>(s: State<T>, op: Op<T>)
    requires LogOk(s) && forall u | 0 <= u < |s.frames| :: FrameOk(s, u, s.frames[u])
    ensures var s' := Exec(s, Call(op)); forall u | 0 <= u < |s'.frames| :: FrameOk(s', u, s'.frames[u])
  {
    hide Orderly, Replay, Drops, EnqueuedBy, TakenBy, PassedEarly, HasPassed, HasTerminated;
    var s' := Exec(s, Call(op));
    NewTraces(s.log, |s.frames|);
    forall u | 0 <= u < |s'.frames| ensures FrameOk(s', u, s'.frames[u]) {
      if u < |s.frames| { assert FrameOk(s, u, s.frames[u]); }
    }
  }

  lemma CallWakeups<T>(s: State<T>, op: Op<T>)
    requires WakeupsOk(s) && LockOk(s)
    ensures WakeupsOk(Exec(s, Call(op)))
    ensures SomeoneBlocked(Exec(s, Call(op))) ==> SomeoneBlocked(s)
  {
    var s' := Exec(s, Call(op));
    SumAppend(s.frames, Start(op), Awake<T>());
    if SomeoneBlocked(s') {
      var u :| 0 <= u < |s'.frames| && s'.frames[u].pc.Blocked?;
      assert s.frames[u].pc.Blocked?;
    }
  }

  lemma CallKeepsInv<T>(s: State<T>, op: Op<T>)
    requires Inv(s)
    ensures Inv(Exec(s, Call(op)))
  {
    hide FrameOk, WakeupsOk, Orderly, Replay, Drops, HasTerminated, SomeoneBlocked;
    CallFrames(s, op);
    CallWakeups(s, op);
  }

  lemma {:induction false} NewTraces<T>(log: seq<Event<T>>, t: nat)
    requires forall k | 0 <= k < |log| :: Owner(log[k]) < t
    ensures EnqueuedBy(log, t) == [] && TakenBy(log, t) == [] && !HasPassed(log, t)
  {
    if log != [] {
      assert Owner(log[|log| - 1]) < t;
      NewTraces(log[..|log| - 1], t);
    }
  }

  lemma SpuriousWakeups<T>(s: State<T>, t: nat)
    requires WakeupsOk(s) && LockOk(s) && t < |s.frames| && s.frames[t].pc.Blocked?
    ensures WakeupsOk(Goto(s, t, Woken)) && SomeoneBlocked(s)
  {
    var s' := Goto(s, t, Woken);
    AwakeUpdate(s.frames, t, s'.frames[t]);
    assert s.frames[t].pc.Blocked?;
  }

  lemma SpuriousFrames<T>(s: State<T>, t: nat)
    requires t < |s.frames| && s.frames[t].pc.Blocked?
    requires forall u | 0 <= u < |s.frames| :: FrameOk(s, u, s.frames[u])
    ensures var s' := Goto(s, t, Woken); forall u | 0 <= u < |s'.frames| :: FrameOk(s', u, s'.frames[u])
  {
    hide EnqueuedBy, TakenBy, PassedEarly, HasPassed;
    var s' := Goto(s, t, Woken);
    forall u | 0 <= u < |s'.frames| ensures FrameOk(s', u, s'.frames[u]) {
      assert FrameOk(s, u, s.frames[u]);
    }
  }

  lemma SpuriousKeepsInv<T>(s: State<T>, t: nat)
    requires Inv(s)
    ensures Inv(Exec(s, Spurious(t)))
  {
    hide LogOk, FrameOk, WakeupsOk, SomeoneBlocked;
    if t < |s.frames| && s.frames[t].pc.Blocked? {
      LogOkSame(s, Goto(s, t, Woken));
      SpuriousFrames(s, t);
      SpuriousWakeups(s, t);
    }
  }

  lemma ExecKeepsInv<T>(s: State<T>, a: Action<T>)
    requires Inv(s)
    ensures Inv(Exec(s, a)) && Exec(s, a).limit == s.limit
  {
    hide Inv, Move;
    match a
    case Call(op) => CallKeepsInv(s, op);
    case Step(t, wake) => if Enabled(s, t, wake) { MoveKeepsInv(s, t, wake); SameLimit(s, t, wake); }
    case Spurious(t) => SpuriousKeepsInv(s, t);
  }

  lemma SameLimit<T>(s: State<T>, t: nat, wake: nat)
    requires Inv(s) && Enabled(s, t, wake)
    ensures Move(s, t, wake).limit == s.limit
  {
    MoveIsStep(s, t, wake);
  }

  lemma InitInv<T>(limit: nat)
    ensures Inv(Init<T>(limit))
  {
  }

  lemma {:induction false} RunKeepsInv<T>(s: State<T>, acts: seq<Action<T>>)
    requires Inv(s)
    ensures Inv(RunFrom(s, acts))
    decreases |acts|
  {
    hide Inv, Exec;
    if acts != [] {
      ExecKeepsInv(s, acts[0]);
      RunKeepsInv(Exec(s, acts[0]), acts[1..]);
    }
  }

  lemma ReachableInv<T(!new)>(s: State<T>)
    requires Reachable(s)
    ensures Inv(s)
  {
    hide Inv;
    var acts: seq<Action<T>> :| RunFrom(Init(s.limit), acts) == s;
    InitInv<T>(s.limit);
    RunKeepsInv(Init(s.limit), acts);
  }

  // ----- what follows

  /** In every reachable state, with spurious wakeups and try_pop calls stealing items:
      while a consumer is blocked and the mutex is free, the consumers that have been
      woken and have not looked again are at least as many as the queued items. */
  lemma NoLostWakeup<T(!new)>(s: State<T>)
    requires Reachable(s) && s.lock.None? && SomeoneBlocked(s)
    ensures |s.queue| <= Sum(s.frames, Awake<T>())
    ensures forall t | 0 <= t < |s.frames| :: Awake<T>()(s.frames[t]) == (if s.frames[t].pc.Woken? then 1 else 0)
    ensures s.queue != [] ==> exists t :: 0 <= t < |s.frames| && s.frames[t].pc.Woken?
  {
    ReachableInv(s);
    if s.queue != [] {
      var t := SumPositive(s.frames, Awake<T>());
      assert s.frames[t].pc.Woken?;
    }
  }

  /** Once the flag is set nobody stays blocked, except while the terminating call is
      still between setting the flag and notify_all, holding the mutex. */
  lemma TerminationUnblocks<T(!new)>(s: State<T>)
    requires Reachable(s) && s.terminated
    ensures s.lock.None? ==> !SomeoneBlocked(s)
    ensures SomeoneBlocked(s) ==> AtTermNotify(s)
  {
    ReachableInv(s);
  }

  lemma OrderlyPrefix<T>(log: seq<Event<T>>, limit: nat, n: nat)
    requires Orderly(log, limit) && n <= |log|
    ensures Orderly(log[..n], limit)
  {
    forall k | 0 <= k < n ensures log[..n][..k] == log[..k] && log[..n][k] == log[k] {}
  }

  lemma {:induction false} Conserved<T>(log: seq<Event<T>>, limit: nat)
    requires Orderly(log, limit)
    ensures AllEnqueued(log) == AllRemoved(log) + Replay(log)
  {
    if log != [] {
      var last := |log| - 1;
      OrderlyPrefix(log, limit, last);
      Conserved(log[..last], limit);
      var e, q := log[last], Replay(log[..last]);
      if e.Popped? || e.Dropped? {
        assert q == [e.entry] + q[1..];
        assert AllRemoved(log) + q[1..] == AllRemoved(log[..last]) + q;
      }
    }
  }

  /** Nothing is lost, duplicated or reordered: the enqueued items are, in order, the
      removed ones (each popped or dropped) followed by the queue; dropped_count counts
      the drops modulo the width of size_t; and the size is within the limit whenever
      the mutex is free. Items are dropped only from a queue one over the limit. */
  lemma ItemsAreConserved<T(!new)>(s: State<T>)
    requires Reachable(s)
    ensures AllEnqueued(s.log) == AllRemoved(s.log) + s.queue
    ensures s.dropped == Drops(s.log) % 0x1_0000_0000_0000_0000
    ensures s.lock.None? ==> |s.queue| <= s.limit
    ensures Orderly(s.log, s.limit)
  {
    ReachableInv(s);
    Conserved(s.log, s.limit);
  }

  /** A finished push has enqueued its value, once, if and only if it found the flag clear,
      and then it did so before anybody had set it; one that found it set has enqueued
      nothing. A finished pop has taken exactly what it returns, and wait_and_pop returns
      nullptr only on a terminated, empty queue. */
  lemma CallsMeanWhatTheyReturn<T(!new)>(s: State<T>, t: nat)
    requires Reachable(s) && t < |s.frames| && s.frames[t].pc.Done?
    ensures var f := s.frames[t];
            && (f.op.Push? ==>
                  && (HasPassed(s.log, t) <==> EnqueuedBy(s.log, t) == [Entry(t, f.op.value)])
                  && (HasPassed(s.log, t) ==> PassedEarly(s.log, t))
                  && (!HasPassed(s.log, t) ==> EnqueuedBy(s.log, t) == [] && s.terminated))
            && (!f.op.Push? ==> EnqueuedBy(s.log, t) == [] && !HasPassed(s.log, t))
            && (f.op.WaitAndPop? || f.op.TryPop? ==> TakenBy(s.log, t) == [f.got])
            && (f.op.WaitAndPop? && f.got.None? ==> s.terminated)
  {
    ReachableInv(s);
    assert FrameOk(s, t, s.frames[t]);
    EarlyIsPassed(s.log, t);
  }

  lemma EarlyIsPassed<T>(log: seq<Event<T>>, t: nat)
    ensures PassedEarly(log, t) ==> HasPassed(log, t)
  {
  }

  /** When wait_and_pop returned nullptr, the queue was empty and the flag had been set. */
  lemma NullOnlyWhenTerminatedAndEmpty<T(!new)>(s: State<T>, k: nat)
    requires Reachable(s) && k < |s.log| && s.log[k].Nothing?
    ensures Replay(s.log[..k]) == [] && s.log[k].tid < |s.frames|
    ensures s.frames[s.log[k].tid].op.WaitAndPop? ==> HasTerminated(s.log[..k])
  {
    ReachableInv(s);
    assert Owner(s.log[k]) < |s.frames|;
  }

  lemma {:induction false} EnqueuedIsMine<T>(log: seq<Event<T>>, k: nat, t: nat)
    requires k < |log| && log[k].Enqueued? && log[k].entry.tid == t
    ensures EnqueuedBy(log, t) != []
  {
    if k < |log| - 1 { EnqueuedIsMine(log[..|log| - 1], k, t); }
  }

  /** Every enqueued item, however late, comes from a push that found the flag clear
      before anybody set it, and each push enqueues at most once. */
  lemma EnqueuersPassedEarly<T(!new)>(s: State<T>, k: nat)
    requires Reachable(s) && k < |s.log| && s.log[k].Enqueued?
    ensures s.log[k].entry.tid < |s.frames| && PassedEarly(s.log, s.log[k].entry.tid)
    ensures |EnqueuedBy(s.log, s.log[k].entry.tid)| == 1
  {
    ReachableInv(s);
    var t := s.log[k].entry.tid;
    assert Owner(s.log[k]) < |s.frames|;
    assert FrameOk(s, t, s.frames[t]);
    EnqueuedIsMine(s.log, k, t);
  }

  /** The pushes in flight after the first `p` events: past the flag, not yet enqueued. */
  ghost function InFlight<T>(log: seq<Event<T>>, p: nat, frames: nat): set<nat>
    requires p <= |log|
  {
    set t: nat | t < frames && PassedEarly(log[..p], t) && EnqueuedBy(log[..p], t) == []
  }

  /** The frames that enqueue at positions p up to m. */
  ghost function Late<T>(log: seq<Event<T>>, p: nat, m: nat): set<nat>
    requires p <= m <= |log|
  {
    set k | p <= k < m && log[k].Enqueued? :: log[k].entry.tid
  }

  lemma {:induction false} EnqueuedCounts<T>(log: seq<Event<T>>, t: nat, m: nat)
    requires m <= |log|
    ensures |EnqueuedBy(log[..m], t)| <= |EnqueuedBy(log, t)|
    decreases |log|
  {
    if m < |log| {
      EnqueuedCounts(log[..|log| - 1], t, m);
      assert log[..|log| - 1][..m] == log[..m];
    } else {
      assert log[..m] == log;
    }
  }

  /** The frame that enqueues at position m has not enqueued before. */
  lemma EnqueuedFirst<T>(log: seq<Event<T>>, p: nat, m: nat)
    requires p <= m < |log| && log[m].Enqueued? && |EnqueuedBy(log, log[m].entry.tid)| == 1
    ensures EnqueuedBy(log[..p], log[m].entry.tid) == []
  {
    var t := log[m].entry.tid;
    assert log[..m + 1][..m] == log[..m];
    EnqueuedCounts(log, t, m + 1);
    EnqueuedCounts(log[..m], t, p);
    assert log[..m][..p] == log[..p];
  }

  lemma LateGrows<T>(log: seq<Event<T>>, p: nat, m: nat)
    requires p <= m < |log| && log[m].Enqueued?
    ensures Late(log, p, m + 1) == Late(log, p, m) + {log[m].entry.tid}
  {
    forall t ensures t in Late(log, p, m + 1) <==> t in Late(log, p, m) + {log[m].entry.tid} {
      if t in Late(log, p, m + 1) {
        var k :| p <= k < m + 1 && log[k].Enqueued? && log[k].entry.tid == t;
      }
    }
  }

  lemma EnqueuesAfresh<T>(log: seq<Event<T>>, p: nat, m: nat)
    requires p <= m < |log| && log[m].Enqueued? && |EnqueuedBy(log, log[m].entry.tid)| == 1
    ensures EnqueuedBy(log[..p], log[m].entry.tid) == [] && log[m].entry.tid !in Late(log, p, m)
    ensures Late(log, p, m + 1) == Late(log, p, m) + {log[m].entry.tid}
  {
    hide EnqueuedBy;
    var t := log[m].entry.tid;
    EnqueuedFirst(log, p, m);
    EnqueuedFirst(log, m, m);
    if t in Late(log, p, m) {
      var k :| p <= k < m && log[k].Enqueued? && log[k].entry.tid == t;
      EnqueuedIsMine(log[..m], k, t);
    }
    LateGrows(log, p, m);
  }

  lemma LateSame<T>(log: seq<Event<T>>, p: nat, m: nat)
    requires p <= m < |log| && !log[m].Enqueued?
    ensures Late(log, p, m + 1) == Late(log, p, m)
  {
  }

  ghost predicate OncePerFrame<T>(log: seq<Event<T>>) {
    forall k | 0 <= k < |log| && log[k].Enqueued? :: |EnqueuedBy(log, log[k].entry.tid)| == 1
  }

  lemma {:induction false} LateAreDistinct<T>(log: seq<Event<T>>, p: nat, m: nat)
    requires p <= m <= |log| && OncePerFrame(log)
    ensures |AllEnqueued(log[..m])| == |AllEnqueued(log[..p])| + |Late(log, p, m)|
    decreases m
  {
    hide EnqueuedBy, Late;
    if p < m {
      LateAreDistinct(log, p, m - 1);
      assert log[..m][..m - 1] == log[..m - 1];
      if log[m - 1].Enqueued? { EnqueuesAfresh(log, p, m - 1); } else { LateSame(log, p, m - 1); }
    } else {
      LateEmpty(log, p);
    }
  }

  lemma LateEmpty<T>(log: seq<Event<T>>, p: nat)
    requires p <= |log|
    ensures Late(log, p, p) == {}
  {
  }

  lemma LateAreFresh<T>(log: seq<Event<T>>, p: nat, t: nat)
    requires p <= |log| && OncePerFrame(log) && t in Late(log, p, |log|)
    ensures EnqueuedBy(log[..p], t) == []
  {
    var k :| p <= k < |log| && log[k].Enqueued? && log[k].entry.tid == t;
    EnqueuesAfresh(log, p, k);
  }

  lemma TerminatedStays<T>(log: seq<Event<T>>, p: nat, m: nat)
    requires p <= m <= |log| && HasTerminated(log[..p])
    ensures HasTerminated(log[..m])
  {
    var i :| 0 <= i < p && log[..p][i].Terminated?;
    assert log[..m][i].Terminated?;
  }

  lemma PassedBefore<T>(log: seq<Event<T>>, t: nat, p: nat)
    requires p <= |log| && HasTerminated(log[..p]) && PassedEarly(log, t)
    ensures PassedEarly(log[..p], t)
  {
    var j :| 0 <= j < |log| && log[j] == Passed(t) && !HasTerminated(log[..j]);
    if j >= p { TerminatedStays(log, p, j); }
    assert log[..p][j] == Passed(t) && log[..p][..j] == log[..j];
  }

  lemma {:induction false} EnqueuedLater<T>(log: seq<Event<T>>, p: nat, m: nat, t: nat)
    requires p <= m <= |log| && EnqueuedBy(log[..p], t) == [] && EnqueuedBy(log[..m], t) != []
    ensures t in Late(log, p, m)
    decreases m
  {
    hide Late;
    assert m > p;
    assert log[..m][..m - 1] == log[..m - 1];
    if log[m - 1].Enqueued? && log[m - 1].entry.tid == t {
      LateAt(log, p, m, m - 1);
    } else {
      EnqueuedLater(log, p, m - 1, t);
      LateWidens(log, p, m - 1, t);
    }
  }

  lemma LateAt<T>(log: seq<Event<T>>, p: nat, m: nat, k: nat)
    requires p <= k < m <= |log| && log[k].Enqueued?
    ensures log[k].entry.tid in Late(log, p, m)
  {
  }

  lemma LateWidens<T>(log: seq<Event<T>>, p: nat, m: nat, t: nat)
    requires p <= m < |log| && t in Late(log, p, m)
    ensures t in Late(log, p, m + 1)
  {
    var k :| p <= k < m && log[k].Enqueued? && log[k].entry.tid == t;
    LateAt(log, p, m + 1, k);
  }

  /** After termination the pushes that still enqueue are among those in flight: past the
      flag check, not yet in the queue. Of those exactly the ones that get that far do. */
  lemma LateItemsAreBounded<T(!new)>(s: State<T>, p: nat)
    requires Reachable(s) && p <= |s.log| && HasTerminated(s.log[..p])
    ensures forall t :: t in Late(s.log, p, |s.log|)
                        <==> t in InFlight(s.log, p, |s.frames|) && EnqueuedBy(s.log, t) != []
    ensures |AllEnqueued(s.log)| == |AllEnqueued(s.log[..p])| + |Late(s.log, p, |s.log|)|
    ensures |AllEnqueued(s.log)| <= |AllEnqueued(s.log[..p])| + |InFlight(s.log, p, |s.frames|)|
  {
    hide EnqueuedBy, PassedEarly, Reachable, AllEnqueued;
    var log, late := s.log, Late(s.log, p, |s.log|);
    assert log[..|log|] == log;
    forall k | 0 <= k < |log| && log[k].Enqueued?
      ensures log[k].entry.tid < |s.frames| && PassedEarly(log[..p], log[k].entry.tid)
      ensures |EnqueuedBy(log, log[k].entry.tid)| == 1
    {
      EnqueuersPassedEarly(s, k);
      PassedBefore(log, log[k].entry.tid, p);
    }
    LateAreDistinct(log, p, |log|);
    forall t ensures t in late <==> t in InFlight(log, p, |s.frames|) && EnqueuedBy(log, t) != [] {
      if t in late {
        LateAreFresh(log, p, t);
        var k :| p <= k < |log| && log[k].Enqueued? && log[k].entry.tid == t;
        EnqueuedIsMine(log, k, t);
      } else if t in InFlight(log, p, |s.frames|) && EnqueuedBy(log, t) != [] {
        EnqueuedLater(log, p, |log|, t);
      }
    }
    SubsetSize(late, InFlight(log, p, |s.frames|));
  }

  ghost predicate PushesDone<T>(s: State<T>) {
    forall t | 0 <= t < |s.frames| && s.frames[t].op.Push? :: s.frames[t].pc.Done?
  }

  /** Once every push has returned, all that were in flight at termination have enqueued:
      termination ignores later pushes completely if and only if none was in flight. */
  lemma LateItemsAreThoseInFlight<T(!new)>(s: State<T>, p: nat)
    requires Reachable(s) && p <= |s.log| && HasTerminated(s.log[..p]) && PushesDone(s)
    ensures Late(s.log, p, |s.log|) == InFlight(s.log, p, |s.frames|)
    ensures |AllEnqueued(s.log)| == |AllEnqueued(s.log[..p])| + |InFlight(s.log, p, |s.frames|)|
    ensures |AllEnqueued(s.log)| == |AllEnqueued(s.log[..p])| <==> InFlight(s.log, p, |s.frames|) == {}
  {
    hide EnqueuedBy, Reachable, AllEnqueued, Late;
    LateItemsAreBounded(s, p);
    forall t | t in InFlight(s.log, p, |s.frames|) ensures EnqueuedBy(s.log, t) != [] {
      PassedLater(s.log, p, t);
      PassedEnqueues(s, t);
    }
    assert Late(s.log, p, |s.log|) == InFlight(s.log, p, |s.frames|);
  }

  lemma PassedLater<T>(log: seq<Event<T>>, p: nat, t: nat)
    requires p <= |log| && PassedEarly(log[..p], t)
    ensures HasPassed(log, t)
  {
    var j :| 0 <= j < p && log[..p][j] == Passed(t);
    assert log[j] == Passed(t);
  }

  lemma PassedEnqueues<T(!new)>(s: State<T>, t: nat)
    requires Reachable(s) && PushesDone(s) && t < |s.frames| && HasPassed(s.log, t)
    ensures EnqueuedBy(s.log, t) != []
  {
    hide EnqueuedBy, HasPassed;
    ReachableInv(s);
    assert FrameOk(s, t, s.frames[t]);
  }

  lemma {:induction false} RunAppend<T>(s: State<T>, acts: seq<Action<T>>, a: Action<T>)
    ensures RunFrom(s, acts + [a]) == Exec(RunFrom(s, acts), a)
    decreases |acts|
  {
    hide Exec;
    if acts == [] {
      assert RunFrom(Exec(s, a), []) == Exec(s, a);
      assert [] + [a] == [a] && [a][1..] == [];
    } else {
      assert (acts + [a])[1..] == acts[1..] + [a];
      RunAppend(Exec(s, acts[0]), acts[1..], a);
    }
  }

  lemma ReachableStep<T(!new)>(s: State<T>, a: Action<T>)
    requires Reachable(s)
    ensures Reachable(Exec(s, a)) && Exec(s, a).limit == s.limit
  {
    hide Exec, Inv;
    ReachableInv(s);
    ExecKeepsInv(s, a);
    var acts: seq<Action<T>> :| RunFrom(Init(s.limit), acts) == s;
    RunAppend(Init(s.limit), acts, a);
  }

  lemma ReachableInit<T(!new)>(limit: nat)
    ensures Reachable(Init<T>(limit))
  {
    var none: seq<Action<T>> := [];
    assert RunFrom(Init<T>(limit), none) == Init<T>(limit);
  }

  /** It does happen: a push can find the flag clear, be overtaken by the termination, and
      then enqueue its item. */
  lemma LatePushEnqueues<T(!new)>(limit: nat, v: T) returns (s: State<T>)
    ensures Reachable(s) && s.limit == limit && s.log == [Passed(0), Terminated(1), Enqueued(Entry(0, v))]
  {
    hide Reachable;
    ReachableInit<T>(limit);
    s := Init(limit);
    ReachableStep(s, Call(Push(v)));
    s := Exec(s, Call(Push(v)));
    ReachableStep(s, Call(Terminate));
    s := Exec(s, Call(Terminate));
    ReachableStep(s, Step(0, 0));
    s := Exec(s, Step(0, 0));
    s := Overtaken(s, Entry(0, v));
    ReachableStep(s, Step(0, 0));
    s := Exec(s, Step(0, 0));
    ReachableStep(s, Step(0, 0));
    s := Exec(s, Step(0, 0));
  }

  lemma TermLockStep<T>(s: State<T>)
    requires |s.frames| == 2 && s.frames[1].pc == TermLock && s.lock.None?
    ensures Exec(s, Step(1, 0)) == Goto(s, 1, TermSet).(lock := Some(1))
  {
  }

  lemma TermSetStep<T>(s: State<T>)
    requires |s.frames| == 2 && s.frames[1].pc == TermSet
    ensures Exec(s, Step(1, 0)) == Goto(s, 1, TermNotify).(terminated := true, log := s.log + [Terminated(1)])
  {
  }

  lemma TermNotifyStep<T>(s: State<T>)
    requires |s.frames| == 2 && s.frames[1].pc == TermNotify && !s.frames[0].pc.Blocked?
    ensures Exec(s, Step(1, 0)) == Goto(s, 1, Unlock)
  {
  }

  lemma UnlockStep<T>(s: State<T>)
    requires |s.frames| == 2 && s.frames[1].pc == Unlock
    ensures Exec(s, Step(1, 0)) == Goto(s, 1, Done).(lock := None)
  {
  }

  /** A push past its check, overtaken by a whole call of termination(). */
  lemma Overtaken<T(!new)>(start: State<T>, data: Entry<T>) returns (s: State<T>)
    requires Reachable(start) && start.lock.None? && start.queue == [] && !start.terminated
    requires |start.frames| == 2 && start.frames[0].pc == PushLock(data) && start.frames[1].pc == TermLock
    ensures Reachable(s) && s.limit == start.limit && s.log == start.log + [Terminated(1)]
    ensures s.lock.None? && s.queue == [] && |s.frames| == 2 && s.frames[0].pc == PushLock(data)
  {
    hide Reachable, Exec;
    s := start;
    ReachableStep(s, Step(1, 0));
    TermLockStep(s);
    s := Exec(s, Step(1, 0));
    ReachableStep(s, Step(1, 0));
    TermSetStep(s);
    s := Exec(s, Step(1, 0));
    ReachableStep(s, Step(1, 0));
    TermNotifyStep(s);
    s := Exec(s, Step(1, 0));
    ReachableStep(s, Step(1, 0));
    UnlockStep(s);
    s := Exec(s, Step(1, 0));
  }
}
