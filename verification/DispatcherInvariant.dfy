/** The invariant of the dispatcher machine, and the frame rule: what a step of one
    call leaves intact for every other call. */
module DispatcherInvariant {
  import opened Options
  import opened Sums
  import opened Dispatcher

  // ----- reference counts

  function One<T(==)>(h: Option<T>, x: T): nat {
    if h == Some(x) then 1 else 0
  }

  /** References to item `i` held by a list: none once the list is destroyed. */
  ghost function ListHolds(l: SubList, i: nat): nat {
    if l.rc > 0 then multiset(l.items)[i] else 0
  }

  ghost function FrameHolds(f: Frame, i: nat): nat {
    multiset(f.drops)[i] + One(f.held, i) + One(f.loop, i)
  }

  ghost function ByList(i: nat): SubList -> nat { (l: SubList) => ListHolds(l, i) }
  ghost function ByFrame(i: nat): Frame -> nat { (f: Frame) => FrameHolds(f, i) }
  ghost function ByHandle(l: nat): Frame -> nat { (f: Frame) => One(f.list, l) }
  ghost function ByDeath(i: nat): Frame -> nat { (f: Frame) => One(f.dying, i) }

  ghost function Rc(itemRc: seq<int>, i: nat): int {
    if i < |itemRc| then itemRc[i] else 0
  }

  ghost function ListRc(lists: seq<SubList>, l: nat): int {
    if l < |lists| then lists[l].rc else 0
  }

  /** 1 for an item whose last reference is gone. */
  ghost function Dead(itemRc: seq<int>, i: nat): nat {
    if i < |itemRc| && itemRc[i] == 0 then 1 else 0
  }

  ghost function GoneCount(log: seq<Event>, i: nat): nat {
    if log == [] then 0
    else GoneCount(log[..|log| - 1], i)
         + (if log[|log| - 1].Gone? && log[|log| - 1].item == i then 1 else 0)
  }

  /** An item's count is the number of references held by live lists and by frames. */
  ghost predicate ItemCounts(s: State) {
    forall i: nat :: Rc(s.itemRc, i) == Sum(s.lists, ByList(i)) + Sum(s.frames, ByFrame(i))
  }

  ghost predicate ListCounts(s: State) {
    forall l: nat :: ListRc(s.lists, l) == One(s.current, l) + Sum(s.frames, ByHandle(l))
  }

  /** Each dead item was, or is about to be, destroyed by exactly one frame. */
  ghost predicate Deaths(s: State) {
    forall i: nat :: Dead(s.itemRc, i) == GoneCount(s.log, i) + Sum(s.frames, ByDeath(i))
  }

  // ----- what each call has done so far

  ghost predicate NoSid(ids: seq<nat>, xs: seq<nat>, sid: nat) {
    forall k | 0 <= k < |xs| :: SidOf(ids, xs[k]) != sid
  }

  ghost function Without(ids: seq<nat>, xs: seq<nat>, id: nat): seq<nat> {
    if xs == [] then []
    else Without(ids, xs[..|xs| - 1], id)
         + (if SidOf(ids, xs[|xs| - 1]) == id then [] else [xs[|xs| - 1]])
  }

  /** `held` is an item of `xs` with this id, and is null only if there is none. */
  ghost predicate HeldOk(ids: seq<nat>, xs: seq<nat>, held: Option<nat>, id: nat) {
    && (held.None? ==> NoSid(ids, xs, id))
    && (held.Some? ==> held.value in xs && SidOf(ids, held.value) == id)
  }

  ghost function OwnItems(s: State, f: Frame): seq<nat> {
    if f.list.Some? && f.list.value < |s.lists| then s.lists[f.list.value].items else []
  }

  /** The frame is building a list that nobody else can see. */
  predicate Building(f: Frame) {
    f.pc.SubCopy? || f.pc.SubScan? || f.pc.SubCompare? || f.pc.SubAppend? || f.pc.Publish?
    || f.pc.UnsubScan? || f.pc.UnsubCompare? || (f.pc.Acquire? && f.op.Subscribe?)
  }

  ghost predicate Private(s: State, l: nat) {
    l < |s.lists| && s.lists[l].rc == 1 && s.current != Some(l) && l !in s.published
  }

  /** Which locals are set at which program point. */
  predicate Shape(f: Frame) {
    && (f.pc.SubAlloc? || f.pc.SubCopy? || f.pc.SubScan? || f.pc.SubCompare? || f.pc.SubAppend? ==>
          f.op.Subscribe?)
    && (f.pc.UnsubCheck? || f.pc.UnsubScan? || f.pc.UnsubCompare? ==> f.op.Unsubscribe?)
    && (f.pc.Snapshot? || f.pc.Deliver? || f.pc.InHandler? ==> f.op.Send?)
    && (f.pc.Publish? ==> !f.op.Send?)
    && (Building(f) || f.pc.Deliver? || f.pc.InHandler? ==> f.list.Some?)
    && (f.pc.SubAlloc? || f.pc.UnsubCheck? || f.pc.Snapshot? || f.pc.DropHeld? || f.pc.Done? ==> f.list.None?)
    && (f.pc.Acquire? && !f.op.Subscribe? ==> f.list.None?)
    && (f.loop.Some? <==> f.pc.SubCompare? || f.pc.UnsubCompare?)
    && (f.held.Some? ==> f.op.Unsubscribe? && (f.pc.UnsubScan? || f.pc.UnsubCompare? || f.pc.Publish?
                                               || f.pc.Unlock? || f.pc.DropList? || f.pc.DropHeld?))
    && (f.ret.Some? <==> f.pc.Unlock? || f.pc.Deliver? || f.pc.InHandler? || f.pc.DropList?
                         || f.pc.DropHeld? || f.pc.Done?)
    && (f.snap != [] ==> f.op.Send? && f.ret.Some?)
  }

  /** How far the call has got, in terms of the published list `cur`, the list `own`
      the frame has a handle on, and the ids of the items. */
  ghost predicate Progress(ids: seq<nat>, hasCur: bool, cur: seq<nat>, own: seq<nat>, f: Frame)
    requires Shape(f)
  {
    match f.pc
    case Acquire => own == []
    case SubCopy(i) => hasCur && i <= |cur| && own == cur[..i]
    case SubScan(i) => own == cur && i <= |cur| && NoSid(ids, cur[..i], f.op.sid)
    case SubCompare(i) => own == cur && i < |cur| && f.loop == Some(cur[i]) && NoSid(ids, cur[..i], f.op.sid)
    case SubAppend => own == cur && NoSid(ids, cur, f.op.sid)
    case UnsubScan(i) =>
      && hasCur && i <= |cur| && own == Without(ids, cur[..i], f.op.sid)
      && HeldOk(ids, cur[..i], f.held, f.op.sid)
    case UnsubCompare(i) =>
      && hasCur && i < |cur| && own == Without(ids, cur[..i], f.op.sid)
      && HeldOk(ids, cur[..i], f.held, f.op.sid) && f.loop == Some(cur[i])
    case Publish =>
      if f.op.Subscribe? then
        && |own| == |cur| + 1 && own[..|cur|] == cur
        && SidOf(ids, own[|cur|]) == f.op.sid && NoSid(ids, cur, f.op.sid)
      else
        && hasCur && own == Without(ids, cur, f.op.sid) && HeldOk(ids, cur, f.held, f.op.sid)
    case Unlock => f.op.Send? ==> own == f.snap
    case Deliver(i) => i <= |f.snap| && own == f.snap
    case InHandler(i) => i < |f.snap| && own == f.snap
    case _ => true
  }

  /** Under the lock, whatever the frame is releasing is still held by the published
      list or by pSubscriberItemToRelease. */
  ghost predicate Guarded(cur: seq<nat>, f: Frame) {
    Locked(f.pc) ==> f.dying.None? && forall x | x in f.drops :: x in cur || f.held == Some(x)
  }

  /** A send reads only a list that has been published. */
  ghost predicate Seen(published: set<nat>, f: Frame) {
    f.op.Send? && f.list.Some? ==> f.list.value in published
  }

  /** The frame in a listener's MessageHandler holds that listener's lock. */
  ghost predicate BusyOk(listeners: set<nat>, busy: map<nat, nat>, ids: seq<nat>, t: nat, f: Frame) {
    f.pc.InHandler? && f.pc.i < |f.snap| && SidOf(ids, f.snap[f.pc.i]) in listeners ==>
      SidOf(ids, f.snap[f.pc.i]) in busy && busy[SidOf(ids, f.snap[f.pc.i])] == t
  }

  ghost predicate SnapOk(ids: seq<nat>, f: Frame) {
    && (forall x | x in f.snap :: x < |ids|)
    && (f.op.Send? && f.ret.Some? ==> f.ret == Some(To(Sids(ids, f.snap))))
  }

  ghost predicate Traced(log: seq<Event>, t: nat, f: Frame) {
    && Delivered(log, t) == DeliveredSoFar(f)
    && EffectsBy(log, t) == (if f.ret.Some? then [(f.op, f.ret.value)] else [])
  }

  ghost function Delivered(log: seq<Event>, t: nat): seq<nat> {
    if log == [] then []
    else Delivered(log[..|log| - 1], t)
         + (var e := log[|log| - 1]; if e.Begun? && e.tid == t then [e.item] else [])
  }

  ghost function EffectsBy(log: seq<Event>, t: nat): seq<(Op, Ret)> {
    if log == [] then []
    else EffectsBy(log[..|log| - 1], t)
         + (var e := log[|log| - 1]; if e.Effect? && e.tid == t then [(e.op, e.ret)] else [])
  }

  /** The deliveries a frame has begun, as a function of its locals. */
  function DeliveredSoFar(f: Frame): seq<nat> {
    match f.pc
    case Deliver(i) => if i <= |f.snap| then f.snap[..i] else []
    case InHandler(i) => if i < |f.snap| then f.snap[..i + 1] else []
    case DropList => f.snap
    case DropHeld => f.snap
    case Done => f.snap
    case _ => []
  }

  ghost predicate Placed(s: State, t: nat, f: Frame) {
    && Shape(f)
    && Guarded(CurItems(s), f)
    && (Building(f) ==> Private(s, f.list.value))
    && Progress(s.ids, s.current.Some?, CurItems(s), OwnItems(s, f), f)
    && Seen(s.published, f)
    && BusyOk(s.listeners, s.busy, s.ids, t, f)
    && SnapOk(s.ids, f)
  }

  ghost predicate FrameOk(s: State, t: nat, f: Frame) {
    Placed(s, t, f) && Traced(s.log, t, f)
  }

  ghost predicate FramesOk(s: State) {
    forall t | 0 <= t < |s.frames| :: FrameOk(s, t, s.frames[t])
  }

  // ----- the atomic specification: an ordered set of subscriber ids

  function Remove(m: seq<nat>, id: nat): seq<nat> {
    if m == [] then []
    else Remove(m[..|m| - 1], id) + (if m[|m| - 1] == id then [] else [m[|m| - 1]])
  }

  function Apply(m: seq<nat>, op: Op): (seq<nat>, Ret) {
    match op
    case Subscribe(sid) => if sid in m then (m, Id(0)) else (m + [sid], Id(sid))
    case Unsubscribe(id) => (Remove(m, id), Flag(id in m))
    case Send => (m, To(m))
  }

  /** The ordered set after all effects of the log, in log order. */
  ghost function Members(log: seq<Event>): seq<nat> {
    if log == [] then []
    else
      var e := log[|log| - 1];
      var m := Members(log[..|log| - 1]);
      if e.Effect? then Apply(m, e.op).0 else m
  }

  /** Every effect returned what the ordered set returns at that point. */
  ghost predicate Agrees(log: seq<Event>) {
    forall k | 0 <= k < |log| && log[k].Effect? :: log[k].ret == Apply(Members(log[..k]), log[k].op).1
  }

  /** No message goes through an item once its UnsubscribeHandler has run. */
  ghost predicate NoneAfterGone(log: seq<Event>) {
    forall a, b | 0 <= a < b < |log| && log[a].Gone? && (log[b].Begun? || log[b].Ended?) ::
      log[b].item != log[a].item
  }

  ghost predicate NeverLocked(log: seq<Event>) {
    forall k | 0 <= k < |log| && log[k].Gone? :: !log[k].locked
  }

  ghost predicate Distinct(ids: seq<nat>, xs: seq<nat>) {
    forall a, b | 0 <= a < b < |xs| :: SidOf(ids, xs[a]) != SidOf(ids, xs[b])
  }

  ghost predicate DistinctIds(s: State) {
    Distinct(s.ids, CurItems(s))
  }

  ghost predicate LockOk(s: State) {
    && (forall t | 0 <= t < |s.frames| :: Locked(s.frames[t].pc) ==> s.lock == Some(t))
    && (s.lock.Some? ==> s.lock.value < |s.frames| && Locked(s.frames[s.lock.value].pc))
  }

  ghost predicate LogOk(log: seq<Event>, frames: nat, members: seq<nat>) {
    && NoneAfterGone(log)
    && NeverLocked(log)
    && Agrees(log)
    && Members(log) == members
    && (forall k | 0 <= k < |log| :: log[k].tid < frames)
  }

  ghost predicate Global(s: State) {
    && |s.ids| == |s.itemRc|
    && (s.current.Some? ==> s.current.value in s.published)
    && (forall l | l in s.published :: l < |s.lists|)
    && DistinctIds(s)
    && LockOk(s)
    && LogOk(s.log, |s.frames|, Sids(s.ids, CurItems(s)))
  }

  ghost predicate Counts(s: State) {
    |s.ids| == |s.itemRc| && ItemCounts(s) && ListCounts(s) && Deaths(s)
  }

  ghost predicate Inv(s: State) {
    Counts(s) && FramesOk(s) && Global(s)
  }

  // ----- consequences of the counts

  lemma HeldItemIsLive(s: State, t: nat, i: nat)
    requires Counts(s) && t < |s.frames| && FrameHolds(s.frames[t], i) > 0
    ensures LiveItem(s, i) && s.itemRc[i] >= FrameHolds(s.frames[t], i)
  {
    SumMember(s.frames, t, ByFrame(i));
    assert Rc(s.itemRc, i) > 0;
  }

  lemma ListedItemIsLive(s: State, l: nat, i: nat)
    requires Counts(s) && l < |s.lists| && s.lists[l].rc > 0 && i in s.lists[l].items
    ensures LiveItem(s, i)
  {
    SumMember(s.lists, l, ByList(i));
    assert Rc(s.itemRc, i) > 0;
  }

  /** Held by a live list and by a frame: at least two references. */
  lemma ListedAndHeld(s: State, l: nat, t: nat, i: nat)
    requires Counts(s) && l < |s.lists| && s.lists[l].rc > 0 && i in s.lists[l].items
    requires t < |s.frames| && FrameHolds(s.frames[t], i) > 0
    ensures i < |s.itemRc| && s.itemRc[i] >= 2
  {
    SumMember(s.lists, l, ByList(i));
    SumMember(s.frames, t, ByFrame(i));
    assert Rc(s.itemRc, i) >= 2;
  }

  lemma LiveListIsLive(s: State, l: nat)
    requires Counts(s) && l < |s.lists| && s.lists[l].rc > 0
    ensures LiveList(s, l)
  {
    forall k | 0 <= k < |s.lists[l].items|
      ensures LiveItem(s, s.lists[l].items[k])
    {
      ListedItemIsLive(s, l, s.lists[l].items[k]);
    }
  }

  lemma HandleIsLive(s: State, t: nat)
    requires Counts(s) && t < |s.frames| && s.frames[t].list.Some?
    ensures LiveList(s, s.frames[t].list.value)
  {
    var l := s.frames[t].list.value;
    SumMember(s.frames, t, ByHandle(l));
    assert ListRc(s.lists, l) > 0;
    LiveListIsLive(s, l);
  }

  lemma CurrentIsLive(s: State)
    requires Counts(s) && s.current.Some?
    ensures LiveList(s, s.current.value)
  {
    assert ListRc(s.lists, s.current.value) > 0;
    LiveListIsLive(s, s.current.value);
  }

  lemma DyingIsDead(s: State, t: nat)
    requires Counts(s) && t < |s.frames| && s.frames[t].dying.Some?
    ensures Dead(s.itemRc, s.frames[t].dying.value) == 1 && GoneCount(s.log, s.frames[t].dying.value) == 0
  {
    SumMember(s.frames, t, ByDeath(s.frames[t].dying.value));
    assert Dead(s.itemRc, s.frames[t].dying.value) > 0;
  }

  /** Nothing a frame is about to touch has been freed. */
  lemma InvIsSafe(s: State, t: nat)
    requires Inv(s) && t < |s.frames|
    ensures Safe(s, s.frames[t])
  {
    var f := s.frames[t];
    assert FrameOk(s, t, f);
    if f.dying.Some? {
      DyingIsDead(s, t);
    } else if f.drops != [] {
      assert f.drops[0] in multiset(f.drops);
      HeldItemIsLive(s, t, f.drops[0]);
    } else {
      if s.current.Some? { CurrentIsLive(s); }
      if f.list.Some? { HandleIsLive(s, t); }
      if f.held.Some? { HeldItemIsLive(s, t, f.held.value); }
      if f.loop.Some? { HeldItemIsLive(s, t, f.loop.value); }
    }
  }

  /** Two frames never share a list that one of them is building. */
  lemma PrivateUnshared(s: State, t: nat, u: nat)
    requires Counts(s) && t < |s.frames| && u < |s.frames| && t != u
    requires s.frames[u].list.Some? && Private(s, s.frames[u].list.value)
    ensures s.frames[t].list != s.frames[u].list
  {
    var l := s.frames[u].list.value;
    assert ListRc(s.lists, l) == 1;
    if s.frames[t].list == s.frames[u].list {
      SumTwo(s.frames, if t < u then t else u, if t < u then u else t, ByHandle(l));
    }
  }

  // ----- the log grows by one event

  lemma TraceAppend(log: seq<Event>, e: Event, t: nat)
    ensures Delivered(log + [e], t) == Delivered(log, t) + (if e.Begun? && e.tid == t then [e.item] else [])
    ensures EffectsBy(log + [e], t)
            == EffectsBy(log, t) + (if e.Effect? && e.tid == t then [(e.op, e.ret)] else [])
  {
    assert (log + [e])[..|log|] == log;
  }

  lemma LogAppend(log: seq<Event>, e: Event)
    ensures forall i: nat :: GoneCount(log + [e], i) == GoneCount(log, i) + (if e.Gone? && e.item == i then 1 else 0)
    ensures Members(log + [e]) == if e.Effect? then Apply(Members(log), e.op).0 else Members(log)
    ensures Agrees(log) && (e.Effect? ==> e.ret == Apply(Members(log), e.op).1) ==> Agrees(log + [e])
  {
    var log' := log + [e];
    assert log'[..|log|] == log;
    forall k | 0 <= k < |log'| && log'[k].Effect? && Agrees(log) && (e.Effect? ==> e.ret == Apply(Members(log), e.op).1)
      ensures log'[k].ret == Apply(Members(log'[..k]), log'[k].op).1
    {
      if k < |log| {
        assert log'[..k] == log[..k];
      }
    }
  }

  /** Deaths are counted in the log by GoneCount. */
  lemma {:induction false} GoneIsCounted(log: seq<Event>, k: nat)
    requires k < |log| && log[k].Gone?
    ensures GoneCount(log, log[k].item) > 0
  {
    if k < |log| - 1 {
      GoneIsCounted(log[..|log| - 1], k);
    }
  }

  // ----- stability of what a frame relies on

  ghost predicate InRange(ids: seq<nat>, xs: seq<nat>) {
    forall k | 0 <= k < |xs| :: xs[k] < |ids|
  }

  lemma {:induction false} WithoutSame(ids: seq<nat>, ids': seq<nat>, xs: seq<nat>, id: nat)
    requires ids <= ids' && InRange(ids, xs)
    ensures Without(ids', xs, id) == Without(ids, xs, id)
  {
    if xs != [] {
      WithoutSame(ids, ids', xs[..|xs| - 1], id);
    }
  }

  lemma {:induction false} WithoutInside(ids: seq<nat>, xs: seq<nat>, id: nat)
    ensures forall x :: x in Without(ids, xs, id) <==> x in xs && SidOf(ids, x) != id
  {
    if xs != [] {
      WithoutInside(ids, xs[..|xs| - 1], id);
      assert xs == xs[..|xs| - 1] + [xs[|xs| - 1]];
    }
  }

  lemma {:induction false} SidsOfWithout(ids: seq<nat>, xs: seq<nat>, id: nat)
    ensures Sids(ids, Without(ids, xs, id)) == Remove(Sids(ids, xs), id)
  {
    if xs != [] {
      var head := xs[..|xs| - 1];
      SidsOfWithout(ids, head, id);
      assert Sids(ids, xs)[..|xs| - 1] == Sids(ids, head);
    }
  }

  lemma SidsSame(ids: seq<nat>, ids': seq<nat>, xs: seq<nat>)
    requires ids <= ids' && forall x | x in xs :: x < |ids|
    ensures Sids(ids', xs) == Sids(ids, xs)
  {
    forall k | 0 <= k < |xs| ensures SidOf(ids', xs[k]) == SidOf(ids, xs[k]) {
      assert xs[k] in xs;
    }
  }

  lemma ProgressSame(ids: seq<nat>, ids': seq<nat>, hasCur: bool, cur: seq<nat>, own: seq<nat>, f: Frame)
    requires Shape(f) && Progress(ids, hasCur, cur, own, f)
    requires ids <= ids' && InRange(ids, cur) && InRange(ids, own)
    ensures Progress(ids', hasCur, cur, own, f)
  {
    if f.pc.UnsubScan? || f.pc.UnsubCompare? {
      WithoutSame(ids, ids', cur[..f.pc.i], f.op.sid);
    } else if f.pc.Publish? && f.op.Unsubscribe? {
      WithoutSame(ids, ids', cur, f.op.sid);
    }
  }

  /** What frame `u` relies on when another frame takes `s` to `s'`. */
  ghost predicate Untouched(s: State, s': State, u: nat)
    requires u < |s.frames| && Shape(s.frames[u])
  {
    var f := s.frames[u];
    && |s.frames| <= |s'.frames| && s'.frames[u] == f
    && s.ids <= s'.ids && s'.listeners == s.listeners
    && s.published <= s'.published
    && (f.list.Some? ==> OwnItems(s', f) == OwnItems(s, f))
    && (Building(f) ==> Private(s', f.list.value))
    && (Locked(f.pc) ==> s'.current == s.current && CurItems(s') == CurItems(s))
    && (BusyOk(s.listeners, s.busy, s.ids, u, f) ==> BusyOk(s'.listeners, s'.busy, s.ids, u, f))
    && (Traced(s.log, u, f) ==> Traced(s'.log, u, f))
  }

  /** Only a frame under the lock looks at the published list. */
  lemma ProgressUnlocked(ids: seq<nat>, hasCur: bool, cur: seq<nat>, hasCur': bool, cur': seq<nat>, own: seq<nat>,
                         f: Frame)
    requires Shape(f) && Progress(ids, hasCur, cur, own, f) && !Locked(f.pc)
    ensures Progress(ids, hasCur', cur', own, f)
  {
  }

  lemma FrameOkFrom(s: State, s': State, u: nat)
    requires u < |s.frames| && FrameOk(s, u, s.frames[u]) && Untouched(s, s', u)
    requires InRange(s.ids, CurItems(s)) && InRange(s.ids, OwnItems(s, s.frames[u]))
    ensures FrameOk(s', u, s'.frames[u])
  {
    var f := s.frames[u];
    var own := OwnItems(s, f);
    assert OwnItems(s', f) == own;
    SidsSame(s.ids, s'.ids, f.snap);
    if Locked(f.pc) {
      ProgressSame(s.ids, s'.ids, s.current.Some?, CurItems(s), own, f);
    } else {
      ProgressUnlocked(s.ids, s.current.Some?, CurItems(s), false, [], own, f);
      ProgressSame(s.ids, s'.ids, false, [], own, f);
      ProgressUnlocked(s'.ids, false, [], s'.current.Some?, CurItems(s'), own, f);
    }
    if f.pc.InHandler? && f.pc.i < |f.snap| { assert f.snap[f.pc.i] in f.snap; }
  }

  lemma CurInRange(s: State)
    requires Counts(s)
    ensures forall x | x in CurItems(s) :: LiveItem(s, x)
    ensures InRange(s.ids, CurItems(s))
  {
    if s.current.Some? { CurrentIsLive(s); }
  }

  lemma OwnInRange(s: State, u: nat)
    requires Counts(s) && u < |s.frames|
    ensures forall x | x in OwnItems(s, s.frames[u]) :: LiveItem(s, x)
    ensures InRange(s.ids, OwnItems(s, s.frames[u]))
  {
    if s.frames[u].list.Some? { HandleIsLive(s, u); }
  }

  /** A frame whose own things are untouched keeps its part of the invariant. */
  lemma FrameRule(s: State, s': State, u: nat)
    requires Counts(s) && u < |s.frames| && FrameOk(s, u, s.frames[u]) && Untouched(s, s', u)
    ensures FrameOk(s', u, s'.frames[u])
  {
    CurInRange(s);
    OwnInRange(s, u);
    FrameOkFrom(s, s', u);
  }
}
