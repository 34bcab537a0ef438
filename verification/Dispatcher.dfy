/** CDispatcher (src/core/Observer.h) as a machine of interleaved steps.

    Every call of Subscribe, Unsubscribe or SendMessageLP is one frame with its own
    locals; frames interleave freely, so a call made from inside a handler is simply
    one more frame. Lists and items live in heaps with explicit reference counts,
    and a frame releases its locals in the reverse order of their declaration. */
module Dispatcher {
  import opened Options

  /** A CSubscriberList and its shared_ptr count. A list whose count is zero is
      destroyed; its text is kept only so that runs can be spoken about. */
  datatype SubList = SubList(items: seq<nat>, rc: int)

  datatype Op = Subscribe(sid: nat) | Unsubscribe(sid: nat) | Send

  /** What a call returns; for Send, the ids it is going to deliver to. */
  datatype Ret = Id(sid: nat) | Flag(found: bool) | To(sids: seq<nat>)

  datatype Pc =
    | SubAlloc
    | Acquire
    | SubCopy(i: nat)
    | SubScan(i: nat)
    | SubCompare(i: nat)
    | SubAppend
    | UnsubCheck
    | UnsubScan(i: nat)
    | UnsubCompare(i: nat)
    | Publish
    | Snapshot
    | Unlock
    | Deliver(i: nat)
    | InHandler(i: nat)
    | DropList
    | DropHeld
    | Done

  /** One call. `list` is pNewSubscriberList or pSubscriberList, `held` is
      pSubscriberItemToRelease, `loop` is the loop's pSubscriberItem. `drops` are
      item references this frame is giving up one by one (the elements of a list it
      is destroying, or a local going out of scope); `dying` is the item whose last
      reference it gave up and whose destructor it is about to run. `snap` is what
      a send captured under the lock. */
  datatype Frame = Frame(
    op: Op, pc: Pc, list: Option<nat>, held: Option<nat>, loop: Option<nat>,
    drops: seq<nat>, dying: Option<nat>, ret: Option<Ret>, snap: seq<nat>)

  datatype Event =
    | Begun(tid: nat, item: nat)                 // MessageHandler entered through the item
    | Ended(tid: nat, item: nat)                 // MessageHandler left
    | Gone(tid: nat, item: nat, locked: bool)    // UnsubscribeHandler; does the frame hold m_Lock?
    | Effect(tid: nat, op: Op, ret: Ret)         // the call took effect

  /** The CSubscriberItem objects are the indices of `ids` (the id of the item's
      subscriber) and `itemRc` (its shared_ptr count). `listeners` are the subscribers
      that are CListeners, whose MessageHandler takes a lock of their own; `busy` says
      which frame holds the lock of a listener. Any other subscriber may be inside its
      MessageHandler any number of times at once. */
  datatype State = State(
    listeners: set<nat>, ids: seq<nat>, itemRc: seq<int>, lists: seq<SubList>, current: Option<nat>, lock: Option<nat>,
    busy: map<nat, nat>, frames: seq<Frame>, published: set<nat>, log: seq<Event>)

  datatype Action = Call(op: Op) | Step(tid: nat)

  function Init(listeners: set<nat>): State {
    State(listeners, [], [], [], None, None, map[], [], {}, [])
  }

  /** The program points at which a frame holds m_Lock. */
  predicate Locked(pc: Pc) {
    pc.SubCopy? || pc.SubScan? || pc.SubCompare? || pc.SubAppend? || pc.UnsubCheck?
    || pc.UnsubScan? || pc.UnsubCompare? || pc.Publish? || pc.Snapshot? || pc.Unlock?
  }

  predicate LiveItem(s: State, i: nat) {
    i < |s.ids| && i < |s.itemRc| && s.itemRc[i] > 0
  }

  predicate LiveList(s: State, l: nat) {
    l < |s.lists| && s.lists[l].rc > 0 && forall k | 0 <= k < |s.lists[l].items| :: LiveItem(s, s.lists[l].items[k])
  }

  /** The items of the published list; none when m_pSubscriberList is null. */
  function CurItems(s: State): seq<nat> {
    if s.current.Some? && s.current.value < |s.lists| then s.lists[s.current.value].items else []
  }

  function SidOf(ids: seq<nat>, i: nat): nat {
    if i < |ids| then ids[i] else 0
  }

  function Sids(ids: seq<nat>, xs: seq<nat>): seq<nat> {
    seq(|xs|, k requires 0 <= k < |xs| => SidOf(ids, xs[k]))
  }

  /** Everything the frame's next step dereferences is still alive. */
  predicate Safe(s: State, f: Frame) {
    if f.dying.Some? then
      f.dying.value < |s.ids|
    else if f.drops != [] then
      LiveItem(s, f.drops[0])
    else
      && (s.current.Some? ==> LiveList(s, s.current.value))
      && (f.list.Some? ==> LiveList(s, f.list.value))
      && (f.held.Some? ==> LiveItem(s, f.held.value))
      && (f.loop.Some? ==> LiveItem(s, f.loop.value))
      && match f.pc
         case SubCopy(i) => s.current.Some? && f.list.Some? && i <= |CurItems(s)|
         case SubScan(i) => f.list.Some? && i <= |s.lists[f.list.value].items|
         case SubCompare(i) => f.list.Some? && f.loop.Some? && f.op.Subscribe?
         case SubAppend => f.list.Some? && f.op.Subscribe?
         case UnsubScan(i) => s.current.Some? && f.list.Some? && i <= |CurItems(s)|
         case UnsubCompare(i) => s.current.Some? && f.list.Some? && f.loop.Some? && f.op.Unsubscribe?
         case Publish => f.list.Some? && !f.op.Send?
         case UnsubCheck => f.op.Unsubscribe?
         case Deliver(i) => f.list.Some? && i <= |s.lists[f.list.value].items|
         case InHandler(i) => f.list.Some? && i < |s.lists[f.list.value].items|
         case _ => true
  }

  /** A frame waits only for m_Lock, or for a listener that is handling another message. */
  predicate Enabled(s: State, t: nat) {
    t < |s.frames| &&
    var f := s.frames[t];
    f.dying.Some? || f.drops != [] ||
    (f.pc != Done
     && (f.pc.Acquire? ==> s.lock.None?)
     && (f.pc.Deliver? && f.list.Some? && f.list.value < |s.lists|
         && f.pc.i < |s.lists[f.list.value].items| ==>
           SidOf(s.ids, s.lists[f.list.value].items[f.pc.i]) !in s.busy))
  }

  // ----- the steps

  function AddRef(itemRc: seq<int>, i: nat, d: int): seq<int>
    requires i < |itemRc|
  {
    itemRc[i := itemRc[i] + d]
  }

  function AddListRef(lists: seq<SubList>, l: nat, d: int): seq<SubList>
    requires l < |lists|
  {
    lists[l := lists[l].(rc := lists[l].rc + d)]
  }

  /** The references given up when one reference to list `l` is released: the list's
      own, if that was the last one. */
  function Released(lists: seq<SubList>, l: nat): seq<nat>
    requires l < |lists|
  {
    if lists[l].rc == 1 then lists[l].items else []
  }

  function SetFrame(s: State, t: nat, f: Frame): State
    requires t < |s.frames|
  {
    s.(frames := s.frames[t := f])
  }

  /** ~CSubscriberItem runs UnsubscribeHandler. */
  function RunDestructor(s: State, t: nat): State
    requires t < |s.frames| && s.frames[t].dying.Some?
  {
    var f := s.frames[t];
    SetFrame(s, t, f.(dying := None)).(log := s.log + [Gone(t, f.dying.value, s.lock == Some(t))])
  }

  /** Release one item reference; the thread that takes the count to zero destroys the item. */
  function DropOne(s: State, t: nat): State
    requires t < |s.frames| && s.frames[t].dying.None? && s.frames[t].drops != [] && Safe(s, s.frames[t])
  {
    var f := s.frames[t];
    var x := f.drops[0];
    SetFrame(s, t, f.(drops := f.drops[1..], dying := if s.itemRc[x] == 1 then Some(x) else None))
    .(itemRc := AddRef(s.itemRc, x, -1))
  }

  function NewList(s: State, t: nat, pc: Pc): State
    requires t < |s.frames|
  {
    SetFrame(s, t, s.frames[t].(list := Some(|s.lists|), pc := pc))
    .(lists := s.lists + [SubList([], 1)])
  }

  function DoAcquire(s: State, t: nat): State
    requires t < |s.frames|
  {
    var f := s.frames[t];
    var pc := match f.op
      case Subscribe(_) => if s.current.Some? then SubCopy(0) else SubScan(0)
      case Unsubscribe(_) => UnsubCheck
      case Send => Snapshot;
    SetFrame(s, t, f.(pc := pc)).(lock := Some(t))
  }

  /** Append a copy of the item reference `x` to the list the frame is building. */
  function Push(s: State, t: nat, x: nat, f: Frame): State
    requires t < |s.frames| && x < |s.itemRc| && f.list.Some? && f.list.value < |s.lists|
  {
    var l := s.lists[f.list.value];
    SetFrame(s, t, f).(itemRc := AddRef(s.itemRc, x, 1),
                       lists := s.lists[f.list.value := l.(items := l.items + [x])])
  }

  function DoSubCopy(s: State, t: nat): State
    requires t < |s.frames| && s.frames[t].pc.SubCopy? && Work(s.frames[t]) && Safe(s, s.frames[t])
  {
    var f := s.frames[t];
    var cur := CurItems(s);
    if f.pc.i < |cur| then Push(s, t, cur[f.pc.i], f.(pc := SubCopy(f.pc.i + 1)))
    else SetFrame(s, t, f.(pc := SubScan(0)))
  }

  /** Take the loop's local reference to element `x`. */
  function TakeLoop(s: State, t: nat, x: nat, pc: Pc): State
    requires t < |s.frames| && x < |s.itemRc|
  {
    SetFrame(s, t, s.frames[t].(loop := Some(x), pc := pc)).(itemRc := AddRef(s.itemRc, x, 1))
  }

  function DoSubScan(s: State, t: nat): State
    requires t < |s.frames| && s.frames[t].pc.SubScan? && Work(s.frames[t]) && Safe(s, s.frames[t])
  {
    var f := s.frames[t];
    var own := s.lists[f.list.value].items;
    if f.pc.i < |own| then TakeLoop(s, t, own[f.pc.i], SubCompare(f.pc.i))
    else SetFrame(s, t, f.(pc := SubAppend))
  }

  function DoSubCompare(s: State, t: nat): State
    requires t < |s.frames| && s.frames[t].pc.SubCompare? && Work(s.frames[t]) && Safe(s, s.frames[t])
  {
    var f := s.frames[t];
    var g := f.(loop := None, drops := [f.loop.value]);
    if SidOf(s.ids, f.loop.value) == f.op.sid then
      SetFrame(s, t, g.(pc := Unlock, ret := Some(Id(0)))).(log := s.log + [Effect(t, f.op, Id(0))])
    else
      SetFrame(s, t, g.(pc := SubScan(f.pc.i + 1)))
  }

  function DoSubAppend(s: State, t: nat): State
    requires t < |s.frames| && s.frames[t].pc.SubAppend? && Work(s.frames[t]) && Safe(s, s.frames[t])
  {
    var f := s.frames[t];
    var l := s.lists[f.list.value];
    SetFrame(s, t, f.(pc := Publish))
    .(ids := s.ids + [f.op.sid], itemRc := s.itemRc + [1],
      lists := s.lists[f.list.value := l.(items := l.items + [|s.ids|])])
  }

  /** m_pSubscriberList = pNewSubscriberList; the reference to the previous list is
      released here, under the lock. */
  function DoPublish(s: State, t: nat): State
    requires t < |s.frames| && s.frames[t].pc.Publish? && Work(s.frames[t]) && Safe(s, s.frames[t])
  {
    var f := s.frames[t];
    var l := f.list.value;
    var up := AddListRef(s.lists, l, 1);
    var ret := if f.op.Subscribe? then Id(f.op.sid) else Flag(f.held.Some?);
    var drops := if s.current.Some? then Released(up, s.current.value) else [];
    var lists := if s.current.Some? then AddListRef(up, s.current.value, -1) else up;
    SetFrame(s, t, f.(pc := Unlock, ret := Some(ret), drops := drops))
    .(lists := lists, current := Some(l), published := s.published + {l},
      log := s.log + [Effect(t, f.op, ret)])
  }

  function DoUnsubCheck(s: State, t: nat): State
    requires t < |s.frames|
  {
    var f := s.frames[t];
    if s.current.None? then
      SetFrame(s, t, f.(pc := Unlock, ret := Some(Flag(false)))).(log := s.log + [Effect(t, f.op, Flag(false))])
    else
      NewList(s, t, UnsubScan(0))
  }

  function DoUnsubScan(s: State, t: nat): State
    requires t < |s.frames| && s.frames[t].pc.UnsubScan? && Work(s.frames[t]) && Safe(s, s.frames[t])
  {
    var f := s.frames[t];
    var cur := CurItems(s);
    if f.pc.i < |cur| then TakeLoop(s, t, cur[f.pc.i], UnsubCompare(f.pc.i))
    else SetFrame(s, t, f.(pc := Publish))
  }

  /** The matching item is kept in pSubscriberItemToRelease (whatever that held before
      is released); any other item goes to the new list. Then the loop's local dies. */
  function DoUnsubCompare(s: State, t: nat): State
    requires t < |s.frames| && s.frames[t].pc.UnsubCompare? && Work(s.frames[t]) && Safe(s, s.frames[t])
  {
    var f := s.frames[t];
    var x := f.loop.value;
    var next := UnsubScan(f.pc.i + 1);
    if SidOf(s.ids, x) == f.op.sid then
      var previous := if f.held.Some? then [f.held.value] else [];
      SetFrame(s, t, f.(pc := next, loop := None, held := Some(x), drops := previous + [x]))
      .(itemRc := AddRef(s.itemRc, x, 1))
    else
      Push(s, t, x, f.(pc := next, loop := None, drops := [x]))
  }

  function DoSnapshot(s: State, t: nat): State
    requires t < |s.frames| && (s.current.Some? ==> s.current.value < |s.lists|)
  {
    var f := s.frames[t];
    var snap := CurItems(s);
    var ret := To(Sids(s.ids, snap));
    var s' := SetFrame(s, t, f.(pc := Unlock, list := s.current, snap := snap, ret := Some(ret)))
              .(log := s.log + [Effect(t, f.op, ret)]);
    if s.current.Some? then s'.(lists := AddListRef(s.lists, s.current.value, 1)) else s'
  }

  function DoUnlock(s: State, t: nat): State
    requires t < |s.frames|
  {
    var f := s.frames[t];
    SetFrame(s, t, f.(pc := if f.op.Send? && f.list.Some? then Deliver(0) else DropList)).(lock := None)
  }

  /** The listener locks once frame `t` is in the handler of subscriber `sid`. */
  function Taken(s: State, sid: nat, t: nat): map<nat, nat> {
    if sid in s.listeners then s.busy[sid := t] else s.busy
  }

  function GivenBack(s: State, sid: nat): map<nat, nat> {
    if sid in s.listeners then s.busy - {sid} else s.busy
  }

  /** Enter MessageHandler of the next item; a CListener takes its own lock first. */
  function DoDeliver(s: State, t: nat): State
    requires t < |s.frames| && s.frames[t].pc.Deliver? && Work(s.frames[t]) && Safe(s, s.frames[t])
  {
    var f := s.frames[t];
    var own := s.lists[f.list.value].items;
    if f.pc.i < |own| then
      SetFrame(s, t, f.(pc := InHandler(f.pc.i)))
      .(busy := Taken(s, SidOf(s.ids, own[f.pc.i]), t), log := s.log + [Begun(t, own[f.pc.i])])
    else
      SetFrame(s, t, f.(pc := DropList))
  }

  function DoReturn(s: State, t: nat): State
    requires t < |s.frames| && s.frames[t].pc.InHandler? && Work(s.frames[t]) && Safe(s, s.frames[t])
  {
    var f := s.frames[t];
    var x := s.lists[f.list.value].items[f.pc.i];
    SetFrame(s, t, f.(pc := Deliver(f.pc.i + 1)))
    .(busy := GivenBack(s, SidOf(s.ids, x)), log := s.log + [Ended(t, x)])
  }

  /** The local list handle goes out of scope; the last owner destroys the list. */
  function DoDropList(s: State, t: nat): State
    requires t < |s.frames| && s.frames[t].pc.DropList? && Work(s.frames[t]) && Safe(s, s.frames[t])
  {
    var f := s.frames[t];
    if f.list.None? then SetFrame(s, t, f.(pc := DropHeld))
    else
      SetFrame(s, t, f.(pc := DropHeld, list := None, drops := Released(s.lists, f.list.value)))
      .(lists := AddListRef(s.lists, f.list.value, -1))
  }

  function DoDropHeld(s: State, t: nat): State
    requires t < |s.frames|
  {
    var f := s.frames[t];
    SetFrame(s, t, f.(pc := Done, held := None, drops := if f.held.Some? then [f.held.value] else []))
  }

  /** The frame has no release in progress, so its next step is the one at its pc. */
  predicate Work(f: Frame) {
    f.dying.None? && f.drops == []
  }

  function Move(s: State, t: nat): State
    requires t < |s.frames| && Safe(s, s.frames[t])
  {
    var f := s.frames[t];
    if f.dying.Some? then RunDestructor(s, t)
    else if f.drops != [] then DropOne(s, t)
    else match f.pc
      case SubAlloc => NewList(s, t, Acquire)
      case Acquire => DoAcquire(s, t)
      case SubCopy(_) => DoSubCopy(s, t)
      case SubScan(_) => DoSubScan(s, t)
      case SubCompare(_) => DoSubCompare(s, t)
      case SubAppend => DoSubAppend(s, t)
      case UnsubCheck => DoUnsubCheck(s, t)
      case UnsubScan(_) => DoUnsubScan(s, t)
      case UnsubCompare(_) => DoUnsubCompare(s, t)
      case Publish => DoPublish(s, t)
      case Snapshot => DoSnapshot(s, t)
      case Unlock => DoUnlock(s, t)
      case Deliver(_) => DoDeliver(s, t)
      case InHandler(_) => DoReturn(s, t)
      case DropList => DoDropList(s, t)
      case DropHeld => DoDropHeld(s, t)
      case Done => s
  }

  function NewFrame(op: Op): Frame {
    Frame(op, if op.Subscribe? then SubAlloc else Acquire, None, None, None, [], None, None, [])
  }

  /** One action. A step that is not enabled leaves the state alone; so would one that
      touches freed memory, but DispatcherTheorems.NoUseAfterFree says there is none. */
  function Exec(s: State, a: Action): State {
    match a
    case Call(op) => s.(frames := s.frames + [NewFrame(op)])
    case Step(t) => if Enabled(s, t) && Safe(s, s.frames[t]) then Move(s, t) else s
  }

  /** The state after a sequence of calls and steps taken from `s`. */
  function RunFrom(s: State, acts: seq<Action>): State
    decreases |acts|
  {
    if acts == [] then s else RunFrom(Exec(s, acts[0]), acts[1..])
  }

  ghost predicate Reachable(s: State) {
    exists acts: seq<Action> :: RunFrom(Init(s.listeners), acts) == s
  }
}
