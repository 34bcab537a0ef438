/** The range of a PLAY request (src/rtsp/NtRtspServer.cpp), over real numbers: clamping it to
    the media, the length handed to the seek, and the time reported back. */
module PlayRange {
  import opened Options
  import opened StreamStates

  function Abs(x: real): real {
    if x < 0.0 then -x else x
  }

  predicate InMedia(x: real, duration: real) {
    0.0 <= x <= duration
  }

  /** The point of the media nearest to x. */
  ghost predicate Nearest(y: real, x: real, duration: real) {
    InMedia(y, duration) && forall z: real | InMedia(z, duration) :: Abs(y - x) <= Abs(z - x)
  }

  /** Playing forwards the range is open ended or goes up, backwards it goes down. */
  predicate Oriented(scale: real, start: real, end: real) {
    && (scale > 0.0 ==> end == 0.0 || start <= end)
    && (scale < 0.0 ==> start >= end)
  }

  /** The sane range: both ends moved into the media, and exchanged only if they are the
      wrong way round. The duration of an aggregate whose streams differ is negated. */
  ghost predicate SaneRange(start: real, end: real, duration: real, scale: real, start': real, end': real) {
    && Oriented(scale, start', end')
    && exists s, e :: Nearest(s, start, Abs(duration)) && Nearest(e, end, Abs(duration))
                      && if Oriented(scale, s, e) then start' == s && end' == e else start' == e && end' == s
  }

  method ClampRange(start: real, end: real, duration: real, scale: real)
    returns (rangeStart: real, rangeEnd: real, length: real)
    ensures length == if duration < 0.0 then -duration else duration
    ensures 0.0 <= rangeStart <= length && 0.0 <= rangeEnd <= length
    ensures SaneRange(start, end, duration, scale, rangeStart, rangeEnd)
  {
    rangeStart, rangeEnd, length := start, end, duration;
    if length < 0.0 {
      length := -length;
    }
    if rangeStart < 0.0 {
      rangeStart := 0.0;
    } else if rangeStart > length {
      rangeStart := length;
    }
    if rangeEnd < 0.0 {
      rangeEnd := 0.0;
    } else if rangeEnd > length {
      rangeEnd := length;
    }
    assert length == Abs(duration);
    assert Nearest(rangeStart, start, length) && Nearest(rangeEnd, end, length);
    if (scale > 0.0 && rangeStart > rangeEnd && rangeEnd > 0.0) || (scale < 0.0 && rangeStart < rangeEnd) {
      var tmp := rangeStart;
      rangeStart := rangeEnd;
      rangeEnd := tmp;
    }
  }

  lemma NearestIsUnique(y: real, y': real, x: real, duration: real)
    requires Nearest(y, x, duration) && Nearest(y', x, duration)
    ensures y == y'
  {
    var mid := (y + y') / 2.0;
    assert InMedia(mid, duration);
    assert Abs(y - x) <= Abs(mid - x) && Abs(y' - x) <= Abs(mid - x);
  }

  /** A sane range is determined by the request. */
  lemma SaneRangeIsUnique(start: real, end: real, duration: real, scale: real, s1: real, e1: real, s2: real, e2: real)
    requires SaneRange(start, end, duration, scale, s1, e1) && SaneRange(start, end, duration, scale, s2, e2)
    ensures s1 == s2 && e1 == e2
  {
    var s, e :| Nearest(s, start, Abs(duration)) && Nearest(e, end, Abs(duration))
                && if Oriented(scale, s, e) then s1 == s && e1 == e else s1 == e && e1 == s;
    var s', e' :| Nearest(s', start, Abs(duration)) && Nearest(e', end, Abs(duration))
                  && if Oriented(scale, s', e') then s2 == s' && e2 == e' else s2 == e' && e2 == s';
    NearestIsUnique(s, s', start, Abs(duration));
    NearestIsUnique(e, e', end, Abs(duration));
  }

  /** A sane range asked for again is kept as it is. */
  lemma SaneRangeIsStable(start: real, end: real, duration: real, scale: real, s: real, e: real)
    requires SaneRange(start, end, duration, scale, s, e)
    ensures SaneRange(s, e, duration, scale, s, e)
  {
    assert Nearest(s, s, Abs(duration)) && Nearest(e, e, Abs(duration));
  }

  /** Requests inside the media: playing forwards an open or rising range is kept and a falling
      one turned round, playing backwards the other way about, and at scale zero nothing is
      ever turned round. */
  lemma RangeInsideMedia(start: real, end: real, duration: real, scale: real, s: real, e: real)
    requires SaneRange(start, end, duration, scale, s, e)
    requires 0.0 <= start <= Abs(duration) && 0.0 <= end <= Abs(duration)
    ensures var falling := start > end && end > 0.0;
            && (scale > 0.0 ==> (s, e) == if falling then (end, start) else (start, end))
            && (scale < 0.0 ==> (s, e) == if start < end then (end, start) else (start, end))
            && (scale == 0.0 ==> (s, e) == (start, end))
  {
    assert Nearest(start, start, Abs(duration)) && Nearest(end, end, Abs(duration));
    assert SaneRange(start, end, duration, scale, if Oriented(scale, start, end) then start else end,
                     if Oriented(scale, start, end) then end else start);
    SaneRangeIsUnique(start, end, duration, scale, s, e, if Oriented(scale, start, end) then start else end,
                      if Oriented(scale, start, end) then end else start);
  }

  /** Requests outside the media are as good as requests for its nearer end. */
  lemma RangeOutsideMedia(start: real, end: real, duration: real, scale: real, s: real, e: real)
    requires SaneRange(start, end, duration, scale, s, e)
    ensures var length := if duration < 0.0 then -duration else duration;
            var start' := if start < 0.0 then 0.0 else if start > length then length else start;
            var end' := if end < 0.0 then 0.0 else if end > length then length else end;
            SaneRange(start', end', duration, scale, s, e)
  {
    hide Nearest, InMedia;
    var length := Abs(duration);
    var s', e' := Clamped(start, length), Clamped(end, length);
    var a, b :| Nearest(a, start, length) && Nearest(b, end, length)
                && if Oriented(scale, a, b) then s == a && e == b else s == b && e == a;
    ClampedIsNearest(start, a, length);
    ClampedIsNearest(end, b, length);
  }

  function Clamped(x: real, length: real): real {
    if x < 0.0 then 0.0 else if x > length then length else x
  }

  lemma ClampedIsNearest(x: real, y: real, length: real)
    requires Nearest(y, x, length) && length >= 0.0
    ensures y == Clamped(x, length) && Nearest(y, y, length)
  {
    assert Nearest(Clamped(x, length), x, length);
    NearestIsUnique(y, Clamped(x, length), x, length);
  }

  // ----- the seek

  const ROUNDING: real := 0.001

  /** How much to stream after a seek; zero means to the end of the media. */
  function SeekLength(rangeStart: real, rangeEnd: real, length: real): real {
    if rangeEnd > 0.0 && rangeEnd + ROUNDING < length then Abs(rangeEnd - rangeStart) else 0.0
  }

  /** A seek with a length ends exactly at the other end of the range, inside the media. */
  lemma SeekReachesEnd(start: real, end: real, duration: real, scale: real, rangeStart: real, rangeEnd: real)
    requires SaneRange(start, end, duration, scale, rangeStart, rangeEnd)
    requires SeekLength(rangeStart, rangeEnd, Abs(duration)) != 0.0
    ensures var streamed := SeekLength(rangeStart, rangeEnd, Abs(duration));
            && streamed > 0.0
            && (scale > 0.0 ==> rangeStart + streamed == rangeEnd)
            && (scale < 0.0 ==> rangeStart - streamed == rangeEnd)
            && 0.0 < rangeEnd < if duration < 0.0 then -duration else duration
  {
  }

  /** A seek without a length is for a range that is open ended, ends within rounding of the
      end of the media, or is empty: an empty range is streamed to the end as well. */
  lemma SeekToEnd(start: real, end: real, duration: real, scale: real, rangeStart: real, rangeEnd: real)
    requires SaneRange(start, end, duration, scale, rangeStart, rangeEnd)
    ensures SeekLength(rangeStart, rangeEnd, Abs(duration)) == 0.0
            <==> rangeEnd == 0.0 || Abs(duration) - rangeEnd <= 0.001 || rangeStart == rangeEnd
  {
    assert 0.0 <= rangeEnd;
  }

  // ----- the current time

  method CurrentTime(streams: seq<Stream>, target: Option<nat>) returns (curNPT: real)
    ensures curNPT >= 0.0
    ensures forall i | 0 <= i < |streams| && Selected(streams[i], target) :: streams[i].npt <= curNPT
    ensures curNPT == 0.0 || exists i :: 0 <= i < |streams| && Selected(streams[i], target) && streams[i].npt == curNPT
  {
    curNPT := 0.0;
    for i := 0 to |streams|
      invariant curNPT >= 0.0
      invariant forall j | 0 <= j < i && Selected(streams[j], target) :: streams[j].npt <= curNPT
      invariant curNPT == 0.0 || exists j :: 0 <= j < i && Selected(streams[j], target) && streams[j].npt == curNPT
    {
      if target == None || target == streams[i].subsession {
        if streams[i].subsession == None {
          continue;
        }
        var npt := streams[i].npt;
        if npt > curNPT {
          curNPT := npt;
        }
      }
    }
  }
}
