/** Why the ids in the list must be distinct: Unsubscribe keeps only one of the items it
    removes alive past the lock. */
module DispatcherDuplicates {
  import opened Options
  import opened Dispatcher
  import opened DispatcherInvariant
  import opened DispatcherProgress

  /** Frame t is about to unsubscribe an id that two items of the published list have, and
      nobody but the list refers to its items. Other frames may be anywhere else. */
  ghost predicate Duplicated(s: State, t: nat, l: nat, id: nat) {
    && t < |s.frames| && s.frames[t] == NewFrame(Unsubscribe(id)) && s.lock.None?
    && s.current == Some(l) && l < |s.lists| && s.lists[l].rc == 1
    && OnlyListed(s, s.lists[l].items)
    && exists a, b :: TwoOf(s.ids, s.lists[l].items, a, b, id)
  }

  ghost predicate OnlyListed(s: State, cur: seq<nat>) {
    && |s.ids| == |s.itemRc|
    && (forall k | 0 <= k < |cur| :: cur[k] < |s.itemRc| && s.itemRc[cur[k]] == 1)
    && Different(cur)
  }

  ghost predicate Different(xs: seq<nat>) {
    forall j, k | 0 <= j < k < |xs| :: xs[j] != xs[k]
  }

  ghost predicate TwoOf(ids: seq<nat>, xs: seq<nat>, a: int, b: int, id: nat) {
    0 <= a < b < |xs| && SidOf(ids, xs[a]) == id && SidOf(ids, xs[b]) == id
  }

  // ----- the scan

  /** pSubscriberItemToRelease after scanning: the last match. */
  ghost function LastMatch(ids: seq<nat>, xs: seq<nat>, id: nat): Option<nat> {
    if xs == [] then None
    else if SidOf(ids, xs[|xs| - 1]) == id then Some(xs[|xs| - 1])
    else LastMatch(ids, xs[..|xs| - 1], id)
  }

  lemma {:induction false} ScanMembers(ids: seq<nat>, xs: seq<nat>, id: nat)
    ensures forall x :: x in Without(ids, xs, id) <==> x in xs && SidOf(ids, x) != id
    ensures LastMatch(ids, xs, id).Some? ==>
              LastMatch(ids, xs, id).value in xs && SidOf(ids, LastMatch(ids, xs, id).value) == id
    ensures LastMatch(ids, xs, id).None? ==> forall x | x in xs :: SidOf(ids, x) != id
  {
    if xs != [] {
      var n := |xs| - 1;
      ScanMembers(ids, xs[..n], id);
      assert xs == xs[..n] + [xs[n]];
    }
  }

  lemma ScanGrows(ids: seq<nat>, cur: seq<nat>, i: nat, id: nat)
    requires i < |cur|
    ensures Without(ids, cur[..i + 1], id)
            == Without(ids, cur[..i], id) + (if SidOf(ids, cur[i]) == id then [] else [cur[i]])
    ensures LastMatch(ids, cur[..i + 1], id)
            == if SidOf(ids, cur[i]) == id then Some(cur[i]) else LastMatch(ids, cur[..i], id)
  {
    assert cur[..i + 1][..i] == cur[..i];
  }

  /** The references to item x of the list after scanning xs: the list's, and the new list's
      or pSubscriberItemToRelease's. */
  ghost function Refs(ids: seq<nat>, xs: seq<nat>, id: nat, x: nat): int {
    1 + (if x in Without(ids, xs, id) then 1 else 0) + (if LastMatch(ids, xs, id) == Some(x) then 1 else 0)
  }

  ghost predicate RefsAre(s: State, cur: seq<nat>, xs: seq<nat>, id: nat, extra: seq<nat>) {
    && |s.ids| == |s.itemRc|
    && forall x | x in cur :: x < |s.itemRc| && s.itemRc[x] == Refs(s.ids, xs, id, x) + (if x in extra then 1 else 0)
  }

  /** What stays put: the lock, the published list and the list being built. */
  ghost predicate Lists(s: State, t: nat, l: nat, cur: seq<nat>, xs: seq<nat>, id: nat) {
    && t < |s.frames| && s.lock == Some(t) && s.frames[t].op == Unsubscribe(id)
    && s.current == Some(l) && l < |s.lists| && s.lists[l] == SubList(cur, 1) && Different(cur)
    && s.frames[t].list.Some? && s.frames[t].list.value < |s.lists| && s.frames[t].list.value != l
    && s.lists[s.frames[t].list.value] == SubList(Without(s.ids, xs, id), 1)
    && s.frames[t].held == LastMatch(s.ids, xs, id) && s.frames[t].dying.None?
  }

  /** The scan has reached item i and still has the references in extra to give up. */
  ghost predicate Scanning(s: State, t: nat, l: nat, cur: seq<nat>, id: nat, i: nat, extra: seq<nat>) {
    && i <= |cur| && Lists(s, t, l, cur, cur[..i], id) && RefsAre(s, cur, cur[..i], id, extra)
    && s.frames[t].pc == UnsubScan(i) && s.frames[t].loop.None? && s.frames[t].drops == extra
    && Different(extra) && forall x | x in extra :: x in cur
  }

  ghost predicate Comparing(s: State, t: nat, l: nat, cur: seq<nat>, id: nat, i: nat) {
    && i < |cur| && Lists(s, t, l, cur, cur[..i], id) && RefsAre(s, cur, cur[..i], id, [cur[i]])
    && s.frames[t].pc == UnsubCompare(i) && s.frames[t].loop == Some(cur[i]) && s.frames[t].drops == []
  }

  lemma RefsArePositive(ids: seq<nat>, xs: seq<nat>, id: nat, x: nat)
    ensures Refs(ids, xs, id, x) >= 1
  {
  }

  lemma Alive(s: State, t: nat, l: nat, cur: seq<nat>, xs: seq<nat>, id: nat, extra: seq<nat>)
    requires Lists(s, t, l, cur, xs, id) && RefsAre(s, cur, xs, id, extra) && xs <= cur
    ensures LiveList(s, l) && LiveList(s, s.frames[t].list.value) && CurItems(s) == cur
    ensures s.frames[t].held.Some? ==> LiveItem(s, s.frames[t].held.value)
    ensures forall x | x in cur :: LiveItem(s, x)
  {
    hide Refs;
    ScanMembers(s.ids, xs, id);
    forall x | x in cur ensures LiveItem(s, x) {
      RefsArePositive(s.ids, xs, id, x);
    }
    assert forall x | x in xs :: x in cur;
  }

  lemma Begin(s: State, t: nat, l: nat, id: nat)
    requires Duplicated(s, t, l, id)
    ensures var s' := Exec(Exec(s, Step(t)), Step(t));
            Scanning(s', t, l, s.lists[l].items, id, 0, []) && s'.ids == s.ids
  {
    hide TwoOf;
    assert LiveList(s, l);
    var s1 := Exec(s, Step(t));
    assert LiveList(s1, l);
  }

  lemma Look(s: State, t: nat, l: nat, cur: seq<nat>, id: nat, i: nat)
    requires Scanning(s, t, l, cur, id, i, []) && i < |cur|
    ensures Comparing(Exec(s, Step(t)), t, l, cur, id, i) && Exec(s, Step(t)).ids == s.ids
  {
    hide LiveList, LiveItem, Refs, Different;
    Alive(s, t, l, cur, cur[..i], id, []);
    InRange(s, cur, cur[..i], id, [], cur[i]);
    assert Safe(s, s.frames[t]);
  }

  lemma InRange(s: State, cur: seq<nat>, xs: seq<nat>, id: nat, extra: seq<nat>, x: nat)
    requires RefsAre(s, cur, xs, id, extra) && x in cur
    ensures x < |s.itemRc| == |s.ids|
  {
  }

  lemma NewInPrefix(xs: seq<nat>, i: nat)
    requires Different(xs) && i < |xs|
    ensures xs[i] !in xs[..i]
  {
    forall k | 0 <= k < i ensures xs[..i][k] != xs[i] {}
  }

  lemma HeadIsOnce(xs: seq<nat>)
    requires Different(xs) && xs != []
    ensures xs[0] !in xs[1..] && Different(xs[1..])
  {
    forall k | 0 <= k < |xs| - 1 ensures xs[1..][k] == xs[k + 1] != xs[0] {}
  }

  /** The references given up after comparing item i. */
  ghost function GivenUp(ids: seq<nat>, cur: seq<nat>, i: nat, id: nat): seq<nat>
    requires i < |cur|
  {
    var previous := LastMatch(ids, cur[..i], id);
    if SidOf(ids, cur[i]) == id && previous.Some? then [previous.value, cur[i]] else [cur[i]]
  }

  lemma GivenUpListed(ids: seq<nat>, cur: seq<nat>, i: nat, id: nat)
    requires i < |cur| && Different(cur)
    ensures var extra := GivenUp(ids, cur, i, id);
            0 < |extra| <= 2 && Different(extra) && forall x | x in extra :: x in cur
  {
    ScanMembers(ids, cur[..i], id);
    var previous := LastMatch(ids, cur[..i], id);
    NewInPrefix(cur, i);
    if previous.Some? {
      assert previous.value in cur[..i];
    }
  }

  /** One reference more or less, where it changes hands. */
  lemma RefsMoved(ids: seq<nat>, cur: seq<nat>, i: nat, id: nat, x: nat)
    requires i < |cur| && Different(cur) && x in cur
    ensures var extra := GivenUp(ids, cur, i, id);
            Refs(ids, cur[..i + 1], id, x) + (if x in extra then 1 else 0)
            == Refs(ids, cur[..i], id, x) + (if x == cur[i] then 2 else 0)
  {
    ScanGrows(ids, cur, i, id);
    ScanMembers(ids, cur[..i], id);
    NewInPrefix(cur, i);
  }

  lemma Compare(s: State, t: nat, l: nat, cur: seq<nat>, id: nat, i: nat)
    requires Comparing(s, t, l, cur, id, i)
    ensures var s' := Exec(s, Step(t));
            Scanning(s', t, l, cur, id, i + 1, GivenUp(s.ids, cur, i, id)) && s'.ids == s.ids
  {
    hide LiveList, LiveItem, Refs, Different, Without, LastMatch;
    Alive(s, t, l, cur, cur[..i], id, [cur[i]]);
    InRange(s, cur, cur[..i], id, [cur[i]], cur[i]);
    ScanGrows(s.ids, cur, i, id);
    GivenUpListed(s.ids, cur, i, id);
    assert Safe(s, s.frames[t]);
    var s' := Exec(s, Step(t));
    forall x | x in cur
      ensures s'.itemRc[x] == Refs(s.ids, cur[..i + 1], id, x) + (if x in GivenUp(s.ids, cur, i, id) then 1 else 0)
    {
      RefsMoved(s.ids, cur, i, id, x);
    }
  }

  lemma GiveUp(s: State, t: nat, l: nat, cur: seq<nat>, id: nat, i: nat, extra: seq<nat>)
    requires Scanning(s, t, l, cur, id, i, extra) && extra != []
    ensures Scanning(Exec(s, Step(t)), t, l, cur, id, i, extra[1..]) && Exec(s, Step(t)).ids == s.ids
  {
    hide LiveList, LiveItem, Refs, Without, LastMatch;
    Alive(s, t, l, cur, cur[..i], id, extra);
    InRange(s, cur, cur[..i], id, extra, extra[0]);
    RefsArePositive(s.ids, cur[..i], id, extra[0]);
    assert extra == [extra[0]] + extra[1..];
    HeadIsOnce(extra);
  }

  lemma {:induction false} GiveUpAll(s: State, t: nat, l: nat, cur: seq<nat>, id: nat, i: nat, extra: seq<nat>)
    requires Scanning(s, t, l, cur, id, i, extra)
    ensures var s' := Alone(s, t, |extra|);
            Scanning(s', t, l, cur, id, i, []) && s'.ids == s.ids
    decreases |extra|
  {
    hide Scanning, Exec;
    if extra != [] {
      GiveUp(s, t, l, cur, id, i, extra);
      GiveUpAll(Exec(s, Step(t)), t, l, cur, id, i, extra[1..]);
    } else {
      assert Alone(s, t, 0) == s;
    }
  }

  lemma {:induction false} ScanRest(s: State, t: nat, l: nat, cur: seq<nat>, id: nat, i: nat) returns (n: nat)
    requires Scanning(s, t, l, cur, id, i, []) && i <= |cur|
    ensures var s' := Alone(s, t, n);
            Scanning(s', t, l, cur, id, |cur|, []) && s'.ids == s.ids
    decreases |cur| - i
  {
    hide Scanning, Comparing, Exec;
    if i == |cur| {
      n := 0;
      assert Alone(s, t, 0) == s;
    } else {
      Look(s, t, l, cur, id, i);
      var s1 := Exec(s, Step(t));
      Compare(s1, t, l, cur, id, i);
      var s2 := Exec(s1, Step(t));
      var extra := GivenUp(s.ids, cur, i, id);
      GiveUpAll(s2, t, l, cur, id, i + 1, extra);
      var m := ScanRest(Alone(s2, t, |extra|), t, l, cur, id, i + 1);
      n := 2 + (|extra| + m);
      AloneAdd(s2, t, |extra|, m);
      assert Alone(s1, t, 1 + (|extra| + m)) == Alone(s2, t, |extra| + m);
      assert Alone(s, t, n) == Alone(s1, t, 1 + (|extra| + m));
    }
  }

  lemma {:induction false} AloneAdd(s: State, t: nat, n: nat, m: nat)
    ensures Alone(Alone(s, t, n), t, m) == Alone(s, t, n + m)
    decreases n
  {
    hide Exec;
    if n > 0 {
      AloneAdd(Exec(s, Step(t)), t, n - 1, m);
    }
  }

  // ----- the release of the replaced list

  /** The holder of the lock is giving up these items, to each of which there is at least
      its own reference. */
  ghost predicate Releasing(s: State, t: nat, drops: seq<nat>) {
    && t < |s.frames| && s.lock == Some(t) && s.frames[t].dying.None? && s.frames[t].drops == drops
    && |s.ids| == |s.itemRc| && Different(drops) && forall x | x in drops :: LiveItem(s, x)
  }

  /** Give up the replaced list: its items are released under the lock. */
  lemma PublishReleases(s: State, t: nat, l: nat, cur: seq<nat>, id: nat)
    requires Scanning(s, t, l, cur, id, |cur|, [])
    ensures var s' := Exec(Exec(s, Step(t)), Step(t));
            && Releasing(s', t, cur) && s'.ids == s.ids
            && forall x | x in cur :: x < |s'.itemRc| && s'.itemRc[x] == Refs(s.ids, cur, id, x)
  {
    hide LiveItem, Refs, Without, LastMatch, Different;
    assert cur[..|cur|] == cur;
    Alive(s, t, l, cur, cur, id, []);
    assert Safe(s, s.frames[t]);
    var s1 := Exec(s, Step(t));
    assert s1 == s.(frames := s.frames[t := s.frames[t].(pc := Publish)]);
    SameItems(s, s1, cur);
    Alive(s1, t, l, cur, cur, id, []);
    assert Safe(s1, s1.frames[t]);
    var s2 := Exec(s1, Step(t));
    SameItems(s, s2, cur);
  }

  lemma SameItems(s: State, s': State, cur: seq<nat>)
    requires s'.ids == s.ids && s'.itemRc == s.itemRc && forall x | x in cur :: LiveItem(s, x)
    ensures forall x | x in cur :: LiveItem(s', x)
  {
  }

  /** An item whose only reference is given up dies under the lock. */
  lemma {:induction false} ReleaseDestroys(s: State, t: nat, drops: seq<nat>, x: nat) returns (n: nat, k: nat, y: nat)
    requires Releasing(s, t, drops) && x in drops && x < |s.itemRc| && s.itemRc[x] == 1
    ensures y in drops && y < |s.itemRc| && s.itemRc[y] == 1
    ensures k < |Alone(s, t, n).log| && Alone(s, t, n).log[k] == Gone(t, y, true)
    decreases |drops|
  {
    hide LiveItem, Exec;
    y := drops[0];
    HeadIsLive(s, t, drops);
    var s1 := Exec(s, Step(t));
    if s.itemRc[y] == 1 {
      n, k := 2, |s.log|;
      LastDrop(s, t, drops);
      AloneTwo(s, t);
    } else {
      var m;
      DropsOn(s, t, drops);
      assert drops == [drops[0]] + drops[1..];
      m, k, y := ReleaseDestroys(s1, t, drops[1..], x);
      n := m + 1;
    }
  }

  lemma HeadIsLive(s: State, t: nat, drops: seq<nat>)
    requires Releasing(s, t, drops) && drops != []
    ensures drops[0] < |s.itemRc|
  {
    assert drops[0] in drops;
  }

  lemma LastDrop(s: State, t: nat, drops: seq<nat>)
    requires Releasing(s, t, drops) && drops != [] && drops[0] < |s.itemRc| && s.itemRc[drops[0]] == 1
    ensures Exec(Exec(s, Step(t)), Step(t)).log == s.log + [Gone(t, drops[0], true)]
  {
    assert LiveItem(s, drops[0]);
    assert Safe(s, s.frames[t]);
    var s1 := Exec(s, Step(t));
    assert s1.frames[t].dying == Some(drops[0]) && s1.lock == Some(t) && s1.log == s.log && s1.ids == s.ids;
  }

  lemma AloneTwo(s: State, t: nat)
    ensures Alone(s, t, 2) == Exec(Exec(s, Step(t)), Step(t))
  {
    hide Exec;
    var s1 := Exec(s, Step(t));
    assert Alone(Exec(s1, Step(t)), t, 0) == Exec(s1, Step(t));
    assert Alone(s1, t, 1) == Exec(s1, Step(t));
  }

  lemma DropsOn(s: State, t: nat, drops: seq<nat>)
    requires Releasing(s, t, drops) && drops != [] && drops[0] < |s.itemRc| && s.itemRc[drops[0]] != 1
    ensures var s' := Exec(s, Step(t));
            && Releasing(s', t, drops[1..])
            && forall x | x in drops[1..] ::
                 x in drops && x != drops[0] && x < |s.itemRc| && x < |s'.itemRc| && s'.itemRc[x] == s.itemRc[x]
  {
    assert Safe(s, s.frames[t]);
    HeadIsOnce(drops);
    assert drops == [drops[0]] + drops[1..];
    var s' := Exec(s, Step(t));
    forall x | x in drops[1..] ensures x in drops && x != drops[0] && LiveItem(s, x) && LiveItem(s', x) {}
  }

  /** The first of two matches is in neither the new list nor pSubscriberItemToRelease. */
  lemma FirstIsForgotten(ids: seq<nat>, cur: seq<nat>, a: nat, b: nat, id: nat)
    requires TwoOf(ids, cur, a, b, id) && Different(cur)
    ensures Refs(ids, cur, id, cur[a]) == 1
  {
    ScanMembers(ids, cur, id);
    LastMatchIsLater(ids, cur, a, b, id);
  }

  lemma {:induction false} LastMatchIsLater(ids: seq<nat>, cur: seq<nat>, a: nat, b: nat, id: nat)
    requires TwoOf(ids, cur, a, b, id) && Different(cur)
    ensures LastMatch(ids, cur, id) != Some(cur[a])
  {
    var n := |cur| - 1;
    if SidOf(ids, cur[n]) != id {
      LastMatchIsLater(ids, cur[..n], a, b, id);
    }
  }

  lemma OnceIsMatch(ids: seq<nat>, cur: seq<nat>, id: nat, x: nat)
    requires x in cur && Refs(ids, cur, id, x) == 1
    ensures SidOf(ids, x) == id
  {
    ScanMembers(ids, cur, id);
  }

  /** From any list with two items of one id to which nobody else refers, unsubscribing that
      id runs the UnsubscribeHandler of one of them in the frame that holds m_Lock: the
      invariant that ids are distinct is what prevents it. */
  lemma DuplicateIdsDestroyUnderLock(s: State, t: nat, l: nat, id: nat) returns (n: nat, k: nat)
    requires Duplicated(s, t, l, id)
    ensures var log := Alone(s, t, n).log;
            k < |log| && log[k].Gone? && log[k].tid == t && log[k].locked && SidOf(s.ids, log[k].item) == id
  {
    hide Scanning, Releasing, Exec, Refs, RefsAre, Alone;
    var cur := s.lists[l].items;
    var a, b :| TwoOf(s.ids, cur, a, b, id);
    Begin(s, t, l, id);
    var s1 := Exec(Exec(s, Step(t)), Step(t));
    var m := ScanRest(s1, t, l, cur, id, 0);
    var s2 := Alone(s1, t, m);
    PublishReleases(s2, t, l, cur, id);
    var s3 := Exec(Exec(s2, Step(t)), Step(t));
    FirstIsForgotten(s.ids, cur, a, b, id);
    var r, y;
    r, k, y := ReleaseDestroys(s3, t, cur, cur[a]);
    OnceIsMatch(s.ids, cur, id, y);
    n := 2 + (m + (2 + r));
    AloneTwo(s, t);
    AloneTwo(s2, t);
    AloneAdd(s2, t, 2, r);
    AloneAdd(s1, t, m, 2 + r);
    AloneAdd(s, t, 2, m + (2 + r));
  }
}
