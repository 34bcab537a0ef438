/** MemoryBufferSink (src/rtsp/MemoryBufferSink.cpp): the newest slices of a stream, kept
    in a sorted map, against the log of everything that ever arrived. */
module MemoryBufferSink {
  import opened Arithmetic
  import opened Memory
  import opened FiniteSets
  import opened SliceWindow

  const UINT_MODULUS: nat := 0x1_0000_0000

  type uint = x: nat | x < UINT_MODULUS

  /** An untruncated frame: the tv_sec of its presentation time and its bytes. */
  datatype Frame = Frame(sec: int, data: seq<byte>)

  function Wrap(x: int): uint {
    x % UINT_MODULUS
  }

  /** Division of longs truncates towards zero. */
  function TruncDiv(a: int, b: int): int
    requires b > 0
  {
    if a >= 0 then a / b else -((-a) / b)
  }

  /** m_refTime is taken from the first frame, and again while it is still zero. */
  function NextRef(ref: uint, sec: int): uint {
    if ref == 0 then Wrap(sec) else ref
  }

  function SliceOf(ref: uint, sec: int, d: uint): uint
    requires d > 0
  {
    Wrap(TruncDiv(sec - ref, d))
  }

  /** The seconds in a number of slices, as an unsigned product. */
  function SlicesTime(slices: int, d: uint): uint {
    Wrap(slices * d)
  }

  ghost function RefTime(frames: seq<Frame>): uint {
    if frames == [] then 0 else NextRef(RefTime(frames[..|frames| - 1]), frames[|frames| - 1].sec)
  }

  /** The frames as pieces of slices. */
  ghost function Pieces(frames: seq<Frame>, d: uint): seq<Piece>
    requires d > 0
  {
    if frames == [] then []
    else
      var f := frames[|frames| - 1];
      Pieces(frames[..|frames| - 1], d) + [Piece(SliceOf(RefTime(frames), f.sec, d), f.data)]
  }

  /** The log has one piece for each frame, in order. */
  lemma {:induction false} PieceAt(frames: seq<Frame>, d: uint, k: nat)
    requires d > 0 && k < |frames|
    ensures |Pieces(frames, d)| == |frames|
    ensures Pieces(frames, d)[k]
            == Piece(SliceOf(RefTime(frames[..k + 1]), frames[k].sec, d), frames[k].data)
  {
    hide SliceOf, RefTime;
    var n := |frames| - 1;
    PieceCount(frames[..n], d);
    if k < n {
      PieceAt(frames[..n], d, k);
      assert frames[..n][..k + 1] == frames[..k + 1];
    } else {
      assert frames[..k + 1] == frames;
    }
  }

  lemma {:induction false} PieceCount(frames: seq<Frame>, d: uint)
    requires d > 0
    ensures |Pieces(frames, d)| == |frames|
  {
    if frames != [] {
      PieceCount(frames[..|frames| - 1], d);
    }
  }

  /** The reference time is the first time that does not wrap to zero. */
  lemma {:induction false} RefTimeIs(frames: seq<Frame>, k: nat)
    requires k <= |frames| && forall j | 0 <= j < k :: frames[j].sec % 0x1_0000_0000 == 0
    ensures k == |frames| ==> RefTime(frames) == 0
    ensures k < |frames| && frames[k].sec % 0x1_0000_0000 != 0 ==> RefTime(frames) == frames[k].sec % 0x1_0000_0000
  {
    if frames != [] {
      var n := |frames| - 1;
      RefTimeIs(frames[..n], if k <= n then k else n);
    }
  }

  /** The slice of a frame: the slices since the reference time, or the modulus less the
      slices before it; either way a part of a slice does not count. */
  lemma SliceIs(ref: uint, sec: int, d: uint)
    requires d > 0
    ensures sec >= ref ==> SliceOf(ref, sec, d) == ((sec - ref) / d) % 0x1_0000_0000
    ensures sec < ref ==>
              SliceOf(ref, sec, d) == (0x1_0000_0000 - ((ref - sec) / d) % 0x1_0000_0000) % 0x1_0000_0000
    ensures SliceOf(ref, ref - d, d) == 0xffff_ffff
  {
    if sec < ref {
      NegativeWraps((ref - sec) / d);
    }
    OneSlice(d);
  }

  lemma OneSlice(d: nat)
    requires d > 0
    ensures d / d == 1
  {
  }

  lemma NegativeWraps(q: int)
    ensures (-q) % 0x1_0000_0000 == (0x1_0000_0000 - q % 0x1_0000_0000) % 0x1_0000_0000
  {
  }

  lemma GrownIs(w: map<nat, seq<byte>>, slice: uint, data: seq<byte>)
    ensures Grown(w, Piece(slice, data)) == w[slice := (if slice in w then w[slice] else []) + data]
  {
  }

  /** What one untruncated frame does to the reference time and to the window. */
  lemma Arrival(frames: seq<Frame>, f: Frame, d: uint, n: uint)
    requires d > 0
    ensures var ref := NextRef(RefTime(frames), f.sec);
            var grown := Grown(Window(Pieces(frames, d), n), Piece(SliceOf(ref, f.sec, d), f.data));
            && RefTime(frames + [f]) == ref
            && Window(Pieces(frames + [f], d), n) == Trimmed(grown, n)
  {
    hide Window, Grown, Largest, SliceOf;
    assert (frames + [f])[..|frames|] == frames;
    WindowStep(Pieces(frames, d), Piece(SliceOf(NextRef(RefTime(frames), f.sec), f.sec, d), f.data), n);
  }

  class Sink {
    var buffer: array<byte>
    var bufferSize: uint
    var outputBuffers: map<nat, seq<byte>>
    var refTime: uint
    const sliceDuration: uint
    const nbSlices: uint
    ghost var frames: seq<Frame>   // every untruncated frame so far

    ghost predicate Valid()
      reads this
    {
      && buffer.Length == bufferSize
      && refTime == RefTime(frames)
      && (sliceDuration == 0 ==> frames == [])
      && outputBuffers == (if sliceDuration == 0 then map[] else Window(Pieces(frames, sliceDuration), nbSlices))
    }

    constructor (bufferSize: uint, sliceDuration: uint, nbSlices: uint)
      ensures Valid() && fresh(buffer) && frames == []
      ensures this.bufferSize == bufferSize && this.sliceDuration == sliceDuration && this.nbSlices == nbSlices
    {
      this.buffer := new byte[bufferSize];
      this.bufferSize := bufferSize;
      this.sliceDuration := sliceDuration;
      this.nbSlices := nbSlices;
      this.outputBuffers := map[];
      this.refTime := 0;
      this.frames := [];
    }

    /** Append the buffered frame to its slice. */
    method Append(frameSize: uint, sec: int)
      requires Valid() && frameSize <= bufferSize && sliceDuration > 0
      modifies `refTime, `outputBuffers, `frames
      ensures Valid() && frames == old(frames) + [Frame(sec, buffer[..frameSize])]
    {
      hide Window, Grown, Trimmed, RefTime, Pieces, SliceOf, Wrap;
      Arrival(frames, Frame(sec, buffer[..frameSize]), sliceDuration, nbSlices);
      if refTime == 0 {
        refTime := Wrap(sec);
      }
      var slice := SliceOf(refTime, sec, sliceDuration);
      var content := if slice in outputBuffers then outputBuffers[slice] else [];
      GrownIs(outputBuffers, slice, buffer[..frameSize]);
      outputBuffers := outputBuffers[slice := content + buffer[..frameSize]];
      frames := frames + [Frame(sec, buffer[..frameSize])];
      Evict();
    }

    /** afterGettingFrame, without the request for the next frame. A truncated frame only
        enlarges the buffer. */
    method AfterGettingFrame(frameSize: uint, numTruncatedBytes: uint, sec: int)
      requires Valid() && frameSize <= bufferSize && (numTruncatedBytes == 0 ==> sliceDuration > 0)
      modifies this
      ensures Valid()
      ensures numTruncatedBytes > 0 ==>
                && frames == old(frames) && outputBuffers == old(outputBuffers) && refTime == old(refTime)
                && bufferSize == (old(bufferSize) + numTruncatedBytes) % 0x1_0000_0000 && fresh(buffer)
      ensures numTruncatedBytes == 0 ==>
                && frames == old(frames) + [Frame(sec, old(buffer[..frameSize]))]
                && buffer == old(buffer) && bufferSize == old(bufferSize)
    {
      if numTruncatedBytes > 0 {
        bufferSize := (bufferSize + numTruncatedBytes) % UINT_MODULUS;
        buffer := new byte[bufferSize];
      } else {
        Append(frameSize, sec);
      }
    }

    /** Erase the smallest slice until no more than nbSlices are left. */
    method Evict()
      modifies this`outputBuffers
      ensures outputBuffers == Trimmed(old(outputBuffers), nbSlices)
    {
      ghost var grown := outputBuffers;
      while |outputBuffers| > nbSlices
        invariant outputBuffers.Keys <= grown.Keys
        invariant forall x | x in outputBuffers :: outputBuffers[x] == grown[x]
        invariant Largest(outputBuffers.Keys, nbSlices) == Largest(grown.Keys, nbSlices)
        decreases |outputBuffers|
      {
        var first := Least(outputBuffers.Keys);
        DropLeast(outputBuffers.Keys, first, nbSlices);
        ghost var before := outputBuffers;
        outputBuffers := outputBuffers - {first};
        assert outputBuffers.Keys == before.Keys - {first};
      }
      SmallIsAll(outputBuffers.Keys, nbSlices);
    }

    /** The log of the slices' pieces. */
    ghost function Log(): seq<Piece>
      reads this
    {
      if sliceDuration == 0 then [] else Pieces(frames, sliceDuration)
    }

    function GetBuffer(slice: uint): (content: seq<byte>)
      reads this
      requires Valid()
      ensures content == if slice in Largest(Slices(Log()), nbSlices) then Content(Log(), slice) else []
    {
      if slice in outputBuffers then outputBuffers[slice] else []
    }

    function GetBufferSize(slice: uint): (size: uint)
      reads this
      requires Valid()
      ensures size == if slice in Largest(Slices(Log()), nbSlices) then |Content(Log(), slice)| % 0x1_0000_0000 else 0
    {
      if slice in outputBuffers then Wrap(|outputBuffers[slice]|) else 0
    }

    lemma KeptKeys()
      requires Valid()
      ensures outputBuffers.Keys == Largest(Slices(Log()), nbSlices)
    {
      if sliceDuration == 0 {
        assert Slices(Log()) == {};
      }
    }

    /** The time of the oldest slice kept; zero when none is. */
    function FirstTime(): (time: uint)
      reads this
      requires Valid()
      ensures Largest(Slices(Log()), nbSlices) == {} ==> time == 0
      ensures forall m: nat | IsLeast(m, Largest(Slices(Log()), nbSlices)) ::
                time == (m * sliceDuration) % 0x1_0000_0000
    {
      KeptKeys();
      FirstOf(outputBuffers.Keys, sliceDuration)
    }

    /** The time between the oldest and the newest slice kept. */
    function Duration(): (time: uint)
      reads this
      requires Valid()
      ensures Largest(Slices(Log()), nbSlices) == {} ==> time == 0
      ensures var kept := Largest(Slices(Log()), nbSlices);
              forall m: nat, n: nat | IsLeast(m, kept) && IsGreatest(n, kept) ::
                time == ((n - m) * sliceDuration) % 0x1_0000_0000
    {
      KeptKeys();
      DurationOf(outputBuffers.Keys, sliceDuration)
    }
  }

  function FirstOf(keys: set<nat>, d: uint): (time: uint)
    ensures keys == {} ==> time == 0
    ensures forall m: nat | IsLeast(m, keys) :: time == SlicesTime(m, d)
  {
    if keys == {} then 0 else SlicesTime(Least(keys), d)
  }

  function DurationOf(keys: set<nat>, d: uint): (time: uint)
    ensures keys == {} ==> time == 0
    ensures forall m: nat, n: nat | IsLeast(m, keys) && IsGreatest(n, keys) :: time == SlicesTime(n - m, d)
  {
    if keys == {} then 0 else SlicesTime(Greatest(keys) - Least(keys), d)
  }

  /** begin() of the sorted map. */
  function Least(s: set<nat>): (m: nat)
    requires s != {}
    ensures IsLeast(m, s)
  {
    LeastExists(s);
    assert exists m :: IsLeast(m, s);
    var m: nat :| m in s && forall x | x in s :: m <= x;
    m
  }

  /** rbegin() of the sorted map. */
  function Greatest(s: set<nat>): (m: nat)
    requires s != {}
    ensures IsGreatest(m, s)
  {
    GreatestExists(s);
    assert exists m :: IsGreatest(m, s);
    var m: nat :| m in s && forall x | x in s :: x <= m;
    m
  }

  // ----- the time the window covers

  /** A clock that is never zero, fits in 32 bits and does not go back. */
  ghost predicate Clocked(frames: seq<Frame>) {
    && (forall k | 0 <= k < |frames| :: 0 < frames[k].sec < UINT_MODULUS)
    && (forall j, k | 0 <= j <= k < |frames| :: frames[j].sec <= frames[k].sec)
  }

  lemma {:induction false} ReferenceIsFirst(frames: seq<Frame>)
    requires Clocked(frames) && frames != []
    ensures RefTime(frames) == frames[0].sec
  {
    if |frames| > 1 {
      var head := frames[..|frames| - 1];
      assert head[0] == frames[0];
      ReferenceIsFirst(head);
    } else {
      assert RefTime(frames[..0]) == 0;
    }
  }

  lemma LastPiece(frames: seq<Frame>, d: uint)
    requires Clocked(frames) && frames != [] && d > 0
    ensures var last := frames[|frames| - 1];
            Pieces(frames, d) == Pieces(frames[..|frames| - 1], d) + [Piece((last.sec - frames[0].sec) / d, last.data)]
  {
    hide *;
    var span := frames[|frames| - 1].sec - frames[0].sec;
    ReferenceIsFirst(frames);
    ClockSpan(frames);
    SliceOfSpan(frames[0].sec, frames[|frames| - 1].sec, d);
    PiecesStep(frames, d);
    QuotientBound(span, d);
  }

  lemma PiecesStep(frames: seq<Frame>, d: uint)
    requires frames != [] && d > 0
    ensures var f := frames[|frames| - 1];
            Pieces(frames, d) == Pieces(frames[..|frames| - 1], d) + [Piece(SliceOf(RefTime(frames), f.sec, d), f.data)]
  {
    hide SliceOf, RefTime;
  }

  lemma SliceOfSpan(ref: uint, sec: int, d: uint)
    requires d > 0 && 0 <= sec - ref < UINT_MODULUS
    ensures SliceOf(ref, sec, d) == (sec - ref) / d
  {
    QuotientBound(sec - ref, d);
  }

  lemma ClockedPrefix(frames: seq<Frame>)
    requires Clocked(frames) && |frames| > 1
    ensures var head := frames[..|frames| - 1];
            && Clocked(head) && head[0] == frames[0]
            && head[|head| - 1].sec <= frames[|frames| - 1].sec
            && 0 <= head[|head| - 1].sec - frames[0].sec
  {
  }

  /** The newest slice is that of the last frame. */
  lemma {:induction false} NewestSlice(frames: seq<Frame>, d: uint)
    requires Clocked(frames) && frames != [] && d > 0
    ensures 0 <= frames[|frames| - 1].sec - frames[0].sec
    ensures IsGreatest((frames[|frames| - 1].sec - frames[0].sec) / d, Slices(Pieces(frames, d)))
  {
    hide Clocked, Pieces, Slices;
    var n := |frames|;
    var head := frames[..n - 1];
    var last := frames[n - 1];
    ClockSpan(frames);
    LastPiece(frames, d);
    var piece := Piece((last.sec - frames[0].sec) / d, last.data);
    SlicesAppend(Pieces(head, d), piece);
    if n > 1 {
      ClockedPrefix(frames);
      NewestSlice(head, d);
      QuotientMonotone(head[n - 2].sec - frames[0].sec, last.sec - frames[0].sec, d);
    } else {
      NoPieces(head, d);
    }
  }

  lemma NoPieces(frames: seq<Frame>, d: uint)
    requires frames == [] && d > 0
    ensures Slices(Pieces(frames, d)) == {}
  {
  }

  lemma QuotientBound(a: nat, d: nat)
    requires d > 0
    ensures a / d * d <= a < a / d * d + d
    ensures 0 <= a / d <= a
  {
    var q, r := a / d, a % d;
    assert a == q * d + r;
    if q > 0 { MulGrows(q, d); }
  }

  lemma MulGrows(q: nat, d: nat)
    requires d > 0
    ensures q <= q * d
  {
  }

  lemma QuotientMonotone(a: nat, b: nat, d: nat)
    requires a <= b && d > 0
    ensures a / d <= b / d
  {
    QuotientBound(a, d);
    QuotientBound(b, d);
    var p, q := a / d, b / d;
    if p > q { MulMonotone(q + 1, p, d); }
  }

  /** The greatest element of a set is among its n largest. */
  lemma GreatestIsKept(s: set<nat>, m: nat, n: nat)
    requires IsGreatest(m, s) && n > 0
    ensures IsGreatest(m, Largest(s, n))
  {
    assert Above(s, m) == {};
  }

  lemma SplitTime(first: nat, last: nat, d: nat)
    requires first <= last
    ensures first * d + (last - first) * d == last * d
    ensures first * d <= last * d && (last - first) * d <= last * d
  {
  }

  /** After at least one frame of a sane clock, firstTime() + duration() is within one slice
      of the time from the first to the last frame, and neither wraps around. */
  lemma TimeCovered(sink: Sink)
    requires sink.Valid() && Clocked(sink.frames) && sink.frames != []
    requires sink.sliceDuration > 0 && sink.nbSlices > 0
    ensures var span := sink.frames[|sink.frames| - 1].sec - sink.frames[0].sec;
            sink.FirstTime() + sink.Duration() <= span < sink.FirstTime() + sink.Duration() + sink.sliceDuration
  {
    hide *;
    var d := sink.sliceDuration;
    var span := sink.frames[|sink.frames| - 1].sec - sink.frames[0].sec;
    var kept := Largest(Slices(sink.Log()), sink.nbSlices);
    LogIsPieces(sink);
    ClockSpan(sink.frames);
    NewestSlice(sink.frames, d);
    GreatestIsKept(Slices(sink.Log()), span / d, sink.nbSlices);
    GreatestIsMember(span / d, kept);
    var m, n := Least(kept), span / d;
    LeastBelow(m, n, kept);
    QuotientBound(span, d);
    SplitTime(m, n, d);
    SlicesTimeSmall(m, d);
    SlicesTimeSmall(n - m, d);
  }

  lemma LogIsPieces(sink: Sink)
    requires sink.sliceDuration > 0
    ensures sink.Log() == Pieces(sink.frames, sink.sliceDuration)
  {
  }

  lemma ClockSpan(frames: seq<Frame>)
    requires Clocked(frames) && frames != []
    ensures 0 <= frames[|frames| - 1].sec - frames[0].sec < UINT_MODULUS
  {
  }

  lemma GreatestIsMember(m: nat, s: set<nat>)
    requires IsGreatest(m, s)
    ensures s != {}
  {
  }

  lemma LeastBelow(m: nat, n: nat, s: set<nat>)
    requires IsLeast(m, s) && IsGreatest(n, s)
    ensures m <= n
  {
  }

  lemma SlicesTimeSmall(slices: nat, d: uint)
    requires slices * d < UINT_MODULUS
    ensures SlicesTime(slices, d) == slices * d == (slices * d) % 0x1_0000_0000
  {
  }
}
