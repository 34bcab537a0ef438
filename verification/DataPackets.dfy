/** Packet and frame buffers (src/core/DataPackets.h): objects that own a block of the heap
    each, and what stays true of a population of them. */
module DataPackets {
  import opened Memory
  import opened Options

  /** The blocks malloc has handed out and free has not taken back. */
  class Heap {
    var blocks: map<nat, seq<byte>>

    constructor ()
      ensures blocks == map[]
    {
      blocks := map[];
    }

    /** Any address not in use, with whatever bytes are there. */
    method Malloc(size: nat) returns (at: nat)
      modifies this
      ensures at !in old(blocks) && at in blocks && |blocks[at]| == size
      ensures blocks == old(blocks)[at := blocks[at]]
    {
      UnusedAddress(blocks.Keys);
      at :| at !in blocks;
      var garbage := new byte[size];
      blocks := blocks[at := garbage[..]];
    }

    /** memcpy to the start of a live block. */
    method Write(at: nat, bytes: seq<byte>)
      requires at in blocks && |bytes| <= |blocks[at]|
      modifies this
      ensures blocks == old(blocks)[at := bytes + old(blocks)[at][|bytes|..]]
    {
      blocks := blocks[at := bytes + blocks[at][|bytes|..]];
    }

    /** Only a live block may be freed, so none is freed twice. */
    method Free(at: nat)
      requires at in blocks
      modifies this
      ensures blocks == old(blocks) - {at}
    {
      blocks := blocks - {at};
    }
  }

  lemma {:induction false} UnusedAddress(used: set<nat>)
    ensures exists at: nat :: at !in used
  {
    var bound := AddressBound(used);
    assert bound !in used;
  }

  lemma {:induction false} AddressBound(used: set<nat>) returns (bound: nat)
    ensures forall at | at in used :: at < bound
  {
    if used == {} {
      bound := 0;
    } else {
      var x :| x in used;
      var rest := AddressBound(used - {x});
      assert used == used - {x} + {x};
      bound := if x < rest then rest else x + 1;
    }
  }

  // ----- ownership, on values

  /** What a packet says of its block. */
  datatype Slot = Slot(data: Option<nat>, size: int)

  const EMPTY_SLOT := Slot(None, 0)

  /** An empty packet has no block, any other a live block of its size. */
  ghost predicate Owns(blocks: map<nat, seq<byte>>, slot: Slot) {
    if slot.data.None? then slot.size == 0
    else slot.size > 0 && slot.data.value in blocks && |blocks[slot.data.value]| == slot.size
  }

  ghost predicate Distinct<K>(slots: map<K, Slot>) {
    forall k, l | k in slots && l in slots && slots[k].data.Some? && slots[k].data == slots[l].data :: k == l
  }

  ghost predicate Held<K>(slots: map<K, Slot>, at: nat) {
    exists k :: k in slots && slots[k].data == Some(at)
  }

  /** Live blocks and non-empty packets correspond one to one. */
  ghost predicate Tidy<K>(blocks: map<nat, seq<byte>>, slots: map<K, Slot>) {
    && (forall k | k in slots :: Owns(blocks, slots[k]))
    && Distinct(slots)
    && (forall at | at in blocks :: Held(slots, at))
  }

  ghost function Bytes(blocks: map<nat, seq<byte>>, slot: Slot): seq<byte>
    requires Owns(blocks, slot)
  {
    if slot.data.None? then [] else blocks[slot.data.value]
  }

  /** The contents of the packets are the same with both sets of blocks. */
  ghost predicate OthersKeep<K>(blocks: map<nat, seq<byte>>, blocks': map<nat, seq<byte>>, slots: map<K, Slot>) {
    forall k | k in slots ::
      && Owns(blocks, slots[k]) && Owns(blocks', slots[k])
      && Bytes(blocks', slots[k]) == Bytes(blocks, slots[k])
  }

  lemma HeldStill<K>(slots: map<K, Slot>, slots': map<K, Slot>, at: nat, k: K)
    requires Held(slots, at) && k in slots && slots[k].data != Some(at)
    requires forall l | l in slots && l != k :: l in slots' && slots'[l] == slots[l]
    ensures Held(slots', at)
  {
    var l :| l in slots && slots[l].data == Some(at);
    assert slots'[l].data == Some(at);
  }

  lemma NothingOwned<K>(blocks: map<nat, seq<byte>>, slots: map<K, Slot>, k: K)
    requires Tidy(blocks, slots) && k in slots && slots[k].data.None?
    ensures slots[k] == EMPTY_SLOT && slots[k := EMPTY_SLOT] == slots
    ensures forall l | l in slots :: Owns(blocks, slots[l])
  {
    assert Owns(blocks, slots[k]);
  }

  lemma TidyFree<K>(blocks: map<nat, seq<byte>>, slots: map<K, Slot>, k: K)
    requires Tidy(blocks, slots) && k in slots && slots[k].data.Some?
    ensures slots[k].data.value in blocks
    ensures var blocks' := blocks - {slots[k].data.value};
            && Tidy(blocks', slots[k := EMPTY_SLOT])
            && Tidy(blocks', slots - {k})
            && OthersKeep(blocks, blocks', slots - {k})
  {
    var at := slots[k].data.value;
    var blocks' := blocks - {at};
    forall l | l in slots && l != k
      ensures Owns(blocks', slots[l]) && Bytes(blocks', slots[l]) == Bytes(blocks, slots[l])
    {
      assert Owns(blocks, slots[l]) && Owns(blocks, slots[k]);
    }
    forall b | b in blocks' ensures Held(slots[k := EMPTY_SLOT], b) && Held(slots - {k}, b) {
      HeldStill(slots, slots[k := EMPTY_SLOT], b, k);
      HeldStill(slots, slots - {k}, b, k);
    }
  }

  /** A packet without a block leaves none behind. */
  lemma TidyForget<K>(blocks: map<nat, seq<byte>>, slots: map<K, Slot>, k: K)
    requires Tidy(blocks, slots) && k in slots && slots[k].data.None?
    ensures Tidy(blocks, slots - {k})
  {
    forall b | b in blocks ensures Held(slots - {k}, b) {
      HeldStill(slots, slots - {k}, b, k);
    }
  }

  lemma TidyMalloc<K>(blocks: map<nat, seq<byte>>, slots: map<K, Slot>, k: K, at: nat, bytes: seq<byte>)
    requires Tidy(blocks, slots) && (k in slots ==> slots[k].data.None?) && at !in blocks && bytes != []
    ensures var blocks' := blocks[at := bytes];
            && Tidy(blocks', slots[k := Slot(Some(at), |bytes|)])
            && OthersKeep(blocks, blocks', slots - {k})
  {
    var blocks' := blocks[at := bytes];
    var slots' := slots[k := Slot(Some(at), |bytes|)];
    forall l | l in slots && l != k
      ensures Owns(blocks', slots[l]) && Bytes(blocks', slots[l]) == Bytes(blocks, slots[l])
    {
      assert Owns(blocks, slots[l]);
    }
    forall b | b in blocks' ensures Held(slots', b) {
      if b == at {
        assert slots'[k].data == Some(at);
      } else {
        var l :| l in slots && slots[l].data == Some(b);
        assert slots'[l].data == Some(b);
      }
    }
  }

  lemma TidyNew<K>(blocks: map<nat, seq<byte>>, slots: map<K, Slot>, k: K)
    requires Tidy(blocks, slots) && k !in slots
    ensures Tidy(blocks, slots[k := EMPTY_SLOT])
  {
    forall b | b in blocks ensures Held(slots[k := EMPTY_SLOT], b) {
      var l :| l in slots && slots[l].data == Some(b);
      assert slots[k := EMPTY_SLOT][l].data == Some(b);
    }
  }

  lemma TidyWrite<K>(blocks: map<nat, seq<byte>>, slots: map<K, Slot>, k: K, bytes: seq<byte>)
    requires Tidy(blocks, slots) && k in slots && slots[k].data.Some? && |bytes| == slots[k].size
    ensures var blocks' := blocks[slots[k].data.value := bytes];
            && Tidy(blocks', slots)
            && OthersKeep(blocks, blocks', slots - {k})
  {
    var blocks' := blocks[slots[k].data.value := bytes];
    assert Owns(blocks, slots[k]);
    forall l | l in slots && l != k
      ensures Owns(blocks', slots[l]) && Bytes(blocks', slots[l]) == Bytes(blocks, slots[l])
    {
      assert Owns(blocks, slots[l]);
    }
    forall b | b in blocks' ensures Held(slots, b) {
      assert b in blocks;
    }
  }

  ghost function Exchanged<K>(slots: map<K, Slot>, k: K, l: K): map<K, Slot>
    requires k in slots && l in slots
  {
    slots[k := slots[l]][l := slots[k]]
  }

  lemma TidySwap<K>(blocks: map<nat, seq<byte>>, slots: map<K, Slot>, k: K, l: K)
    requires Tidy(blocks, slots) && k in slots && l in slots
    ensures Tidy(blocks, Exchanged(slots, k, l))
    ensures OthersKeep(blocks, blocks, Exchanged(slots, k, l))
  {
    var slots' := Exchanged(slots, k, l);
    forall b | b in blocks ensures Held(slots', b) {
      var m :| m in slots && slots[m].data == Some(b);
      assert slots'[if m == k then l else if m == l then k else m].data == Some(b);
    }
  }

  lemma HolderOf<K>(blocks: map<nat, seq<byte>>, slots: map<K, Slot>, at: nat) returns (k: K)
    requires Tidy(blocks, slots) && at in blocks
    ensures k in slots && slots[k].data == Some(at) && slots[k].size > 0
  {
    assert Held(slots, at);
    k :| k in slots && slots[k].data == Some(at);
    assert Owns(blocks, slots[k]);
  }

  lemma EachOwns<K>(blocks: map<nat, seq<byte>>, slots: map<K, Slot>, k: K)
    requires Tidy(blocks, slots) && k in slots
    ensures Owns(blocks, slots[k])
  {
  }

  lemma AllOwn<K>(blocks: map<nat, seq<byte>>, slots: map<K, Slot>)
    requires Tidy(blocks, slots)
    ensures forall k | k in slots :: Owns(blocks, slots[k])
  {
  }

  lemma NothingHeld<K>(blocks: map<nat, seq<byte>>, slots: map<K, Slot>)
    requires Tidy(blocks, slots) && forall k | k in slots :: slots[k].size <= 0
    ensures blocks == map[]
  {
    if blocks != map[] {
      var at :| at in blocks;
      var k := HolderOf(blocks, slots, at);
    }
  }

  /** When no packet is left, no block is. */
  lemma NothingLeft<K>(blocks: map<nat, seq<byte>>, slots: map<K, Slot>)
    requires Tidy(blocks, slots) && slots == map[]
    ensures blocks == map[]
  {
    NothingHeld(blocks, slots);
  }

  /** As many blocks are live as packets are not empty. */
  lemma {:induction false} LiveBlocks<K>(blocks: map<nat, seq<byte>>, slots: map<K, Slot>)
    requires Tidy(blocks, slots)
    ensures |blocks| == |set k | k in slots && slots[k].size > 0|
    decreases |slots|
  {
    hide Tidy, OthersKeep;
    var full := set k | k in slots && slots[k].size > 0;
    if full == {} {
      assert forall k | k in slots :: k !in full;
      NothingHeld(blocks, slots);
    } else {
      var k :| k in full;
      EachOwns(blocks, slots, k);
      TidyFree(blocks, slots, k);
      var blocks', slots' := blocks - {slots[k].data.value}, slots - {k};
      LiveBlocks(blocks', slots');
      assert (set l | l in slots' && slots'[l].size > 0) == full - {k};
      assert blocks'.Keys == blocks.Keys - {slots[k].data.value};
      assert |blocks'| == |blocks'.Keys| && |blocks| == |blocks.Keys|;
    }
  }

  // ----- the objects

  datatype Info =
    | Frame(width: int, height: int, format: int, index: nat)
    | Encoded(format: int)

  const FMT_NONE: int := -1

  /** A FrameData or PacketData object. */
  class Packet {
    var data: Option<nat>
    var size: int
    var refId: string
    var info: Info

    ghost function Now(): Slot
      reads this
    {
      Slot(data, size)
    }

    ghost function Content(heap: Heap): seq<byte>
      reads this, heap
      requires Owns(heap.blocks, Now())
    {
      Bytes(heap.blocks, Now())
    }

    /** A FrameData without a block. */
    constructor EmptyFrame()
      ensures Now() == EMPTY_SLOT && info == Frame(0, 0, 0, 0) && refId == ""
    {
      data, size, refId, info := None, 0, "", Frame(0, 0, 0, 0);
    }

    /** A PacketData without a block: the format it is constructed with is not kept. */
    constructor EmptyPacket(format: int)
      ensures Now() == EMPTY_SLOT && info == Encoded(FMT_NONE) && refId == ""
    {
      data, size, refId, info := None, 0, "", Encoded(FMT_NONE);
    }

    /** Give the block back. */
    method Release(heap: Heap, ghost population: set<Packet>)
      requires OneToOne(heap, population) && this in population
      modifies heap, this`data, this`size
      ensures Now() == EMPTY_SLOT && OneToOne(heap, population)
      ensures OthersKeep(old(heap.blocks), heap.blocks, Slots(population) - {this})
    {
      hide Tidy;
      ghost var slots := Slots(population);
      if data.None? {
        NothingOwned(heap.blocks, slots, this);
      } else {
        TidyFree(heap.blocks, slots, this);
        heap.Free(data.value);
        data := None;
      }
      size := 0;
      assert Slots(population) == slots[this := EMPTY_SLOT];
      assert Slots(population) - {this} == slots - {this};
    }

    /** Take a block for an empty packet. */
    method Acquire(heap: Heap, newSize: nat, ghost population: set<Packet>)
      requires OneToOne(heap, population) && this in population && Now() == EMPTY_SLOT && newSize > 0
      modifies heap, this`data, this`size
      ensures OneToOne(heap, population) && size == newSize
      ensures OthersKeep(old(heap.blocks), heap.blocks, Slots(population) - {this})
    {
      hide Tidy;
      ghost var blocks, slots := heap.blocks, Slots(population);
      var at := heap.Malloc(newSize);
      data := Some(at);
      size := newSize;
      TidyMalloc(blocks, slots, this, at, heap.blocks[at]);
      assert Slots(population) == slots[this := Slot(Some(at), newSize)];
      assert Slots(population) - {this} == slots - {this};
    }

    /** A new size loses the content, a negative one is refused. */
    method Resize(heap: Heap, newSize: int, ghost population: set<Packet>)
      requires OneToOne(heap, population) && this in population
      modifies heap, this`data, this`size
      ensures OneToOne(heap, population)
      ensures newSize < 0 ==> Now() == old(Now()) && heap.blocks == old(heap.blocks)
      ensures newSize >= 0 ==> size == newSize
      ensures OthersKeep(old(heap.blocks), heap.blocks, Slots(population) - {this})
    {
      hide Tidy;
      AllOwn(heap.blocks, Slots(population));
      if newSize < 0 {
        return;
      }
      Release(heap, population);
      ghost var blocks := heap.blocks;
      if newSize > 0 {
        ghost var others := Slots(population) - {this};
        Acquire(heap, newSize, population);
        assert Slots(population) - {this} == others;
      }
    }

    method Clear(heap: Heap, ghost population: set<Packet>)
      requires OneToOne(heap, population) && this in population
      modifies heap, this`data, this`size
      ensures OneToOne(heap, population) && size == 0
      ensures OthersKeep(old(heap.blocks), heap.blocks, Slots(population) - {this})
    {
      Resize(heap, 0, population);
    }

    /** memcpy into a block that is big enough. */
    method Overwrite(heap: Heap, bytes: seq<byte>, ghost population: set<Packet>)
      requires OneToOne(heap, population) && this in population && 0 < |bytes| <= size && Owns(heap.blocks, Now())
      modifies heap
      ensures OneToOne(heap, population) && Owns(heap.blocks, Now())
      ensures Content(heap) == bytes + old(Content(heap))[|bytes|..]
      ensures OthersKeep(old(heap.blocks), heap.blocks, Slots(population) - {this})
    {
      hide Tidy;
      TidyWrite(heap.blocks, Slots(population), this, bytes + heap.blocks[data.value][|bytes|..]);
      heap.Write(data.value, bytes);
    }

    /** copy(buff, sz): overwrite the first bytes, in a new block if they do not fit; a
        packet never shrinks. */
    method CopyBytes(heap: Heap, bytes: seq<byte>, ghost population: set<Packet>)
      requires OneToOne(heap, population) && this in population && Owns(heap.blocks, Now())
      modifies heap, this`data, this`size
      ensures OneToOne(heap, population) && Owns(heap.blocks, Now())
      ensures size == Larger(|bytes|, old(size))
      ensures Content(heap) == bytes + (if |bytes| < old(size) then old(Content(heap))[|bytes|..] else [])
      ensures OthersKeep(old(heap.blocks), heap.blocks, Slots(population) - {this})
    {
      hide Tidy;
      AllOwn(heap.blocks, Slots(population));
      if bytes == [] {
        return;
      }
      if |bytes| > size {
        Resize(heap, |bytes|, population);
        EachOwns(heap.blocks, Slots(population), this);
      }
      Overwrite(heap, bytes, population);
    }

    /** FrameData's copy: an empty source changes nothing, not even the frame's properties. */
    method CopyFrame(heap: Heap, source: Packet, ghost population: set<Packet>)
      requires OneToOne(heap, population) && this in population && source in population && info.Frame?
      requires source.info.Frame?
      requires Owns(heap.blocks, Now()) && Owns(heap.blocks, source.Now())
      modifies heap, this
      ensures OneToOne(heap, population) && Owns(heap.blocks, Now())
      ensures size == Larger(old(source.size), old(size))
      ensures Content(heap) == old(source.Content(heap))
                               + (if old(source.size) < old(size) then old(Content(heap))[old(source.size)..] else [])
      ensures info == (if old(source.size) == 0 then old(info) else old(source.info))
      ensures refId == (if old(source.size) == 0 then old(refId) else old(source.refId))
      ensures OthersKeep(old(heap.blocks), heap.blocks, Slots(population) - {this})
    {
      hide Tidy;
      AllOwn(heap.blocks, Slots(population));
      if source.size <= 0 {
        return;
      }
      CopyBytes(heap, heap.blocks[source.data.value], population);
      ghost var slots := Slots(population);
      info := source.info;
      refId := source.refId;
      assert Slots(population) == slots;
    }

    method SwapBlocks(heap: Heap, other: Packet, ghost population: set<Packet>)
      requires OneToOne(heap, population) && this in population && other in population
      modifies this`data, this`size, other`data, other`size
      ensures OneToOne(heap, population) && Now() == old(other.Now()) && other.Now() == old(Now())
      ensures OthersKeep(heap.blocks, heap.blocks, Slots(population))
    {
      hide Tidy, OthersKeep, Owns;
      ghost var slots := Slots(population);
      TidySwap<Packet>(heap.blocks, slots, this, other);
      data, other.data := other.data, data;
      size, other.size := other.size, size;
      assert Slots(population) == Exchanged<Packet>(slots, this, other);
    }

    /** FrameData's swap exchanges everything. */
    method SwapFrames(heap: Heap, other: Packet, ghost population: set<Packet>)
      requires OneToOne(heap, population) && this in population && other in population && info.Frame?
      requires other.info.Frame?
      requires Owns(heap.blocks, Now()) && Owns(heap.blocks, other.Now())
      modifies this, other
      ensures OneToOne(heap, population) && Owns(heap.blocks, Now()) && Owns(heap.blocks, other.Now())
      ensures Now() == old(other.Now()) && other.Now() == old(Now())
      ensures Content(heap) == old(other.Content(heap)) && other.Content(heap) == old(Content(heap))
      ensures info == old(other.info) && other.info == old(info)
      ensures refId == old(other.refId) && other.refId == old(refId)
      ensures OthersKeep(heap.blocks, heap.blocks, Slots(population))
    {
      hide Tidy, Owns, OthersKeep, Bytes;
      SwapBlocks(heap, other, population);
      ghost var slots := Slots(population);
      info, other.info := other.info, info;
      refId, other.refId := other.refId, refId;
      assert Slots(population) == slots;
    }

    /** PacketData's swap exchanges the bytes; format and reference stay where they are. */
    method SwapPackets(heap: Heap, other: Packet, ghost population: set<Packet>)
      requires OneToOne(heap, population) && this in population && other in population && info.Encoded?
      requires other.info.Encoded?
      requires Owns(heap.blocks, Now()) && Owns(heap.blocks, other.Now())
      modifies this`data, this`size, other`data, other`size
      ensures OneToOne(heap, population) && Owns(heap.blocks, Now()) && Owns(heap.blocks, other.Now())
      ensures Now() == old(other.Now()) && other.Now() == old(Now())
      ensures Content(heap) == old(other.Content(heap)) && other.Content(heap) == old(Content(heap))
      ensures OthersKeep(heap.blocks, heap.blocks, Slots(population))
    {
      hide Tidy, Owns, OthersKeep, Bytes;
      SwapBlocks(heap, other, population);
    }

    /** The destructors free the block; the object leaves the population. */
    method Destroy(heap: Heap, ghost population: set<Packet>)
      requires OneToOne(heap, population) && this in population
      modifies heap, this`data
      ensures OneToOne(heap, population - {this})
      ensures OthersKeep(old(heap.blocks), heap.blocks, Slots(population - {this}))
    {
      hide Tidy;
      ghost var slots := Slots(population);
      AllOwn(heap.blocks, slots);
      if data.Some? {
        TidyFree(heap.blocks, slots, this);
        heap.Free(data.value);
        data := None;
      } else {
        TidyForget(heap.blocks, slots, this);
      }
      assert Slots(population - {this}) == slots - {this};
    }
  }

  ghost function Slots(population: set<Packet>): map<Packet, Slot>
    reads population
  {
    map p | p in population :: p.Now()
  }

  ghost predicate OneToOne(heap: Heap, population: set<Packet>)
    reads heap, population
  {
    Tidy(heap.blocks, Slots(population))
  }

  // ----- runs

  datatype Op =
    | MakeFrame(id: nat, size: int)
    | MakePacket(id: nat, format: int, size: int)
    | DoResize(id: nat, size: int)
    | DoClear(id: nat)
    | DoCopyBytes(id: nat, bytes: seq<byte>)
    | DoCopyFrame(id: nat, source: nat)
    | DoSwap(id: nat, other: nat)
    | DoDestroy(id: nat)

  /** What an outsider can tell of a packet without looking at its bytes. */
  datatype Shape = Shape(frame: bool, size: int)

  /** Can the operation be done: the objects it names exist, of the right kind, or do not
      exist yet when it makes them. */
  predicate Allowed(shapes: map<nat, Shape>, op: Op) {
    match op
    case MakeFrame(id, _) => id !in shapes
    case MakePacket(id, _, _) => id !in shapes
    case DoCopyFrame(id, source) => id in shapes && source in shapes && shapes[id].frame && shapes[source].frame
    case DoSwap(id, other) => id in shapes && other in shapes && shapes[id].frame == shapes[other].frame
    case _ => op.id in shapes
  }

  function NotNegative(size: int): int {
    if size < 0 then 0 else size
  }

  function Larger(a: int, b: int): int {
    if a < b then b else a
  }

  function Sized(shapes: map<nat, Shape>, id: nat, size: int): map<nat, Shape>
    requires id in shapes
  {
    shapes[id := shapes[id].(size := size)]
  }

  function After(shapes: map<nat, Shape>, op: Op): map<nat, Shape>
    requires Allowed(shapes, op)
  {
    match op
    case MakeFrame(id, size) => shapes[id := Shape(true, NotNegative(size))]
    case MakePacket(id, _, size) => shapes[id := Shape(false, NotNegative(size))]
    case DoResize(id, size) => if size < 0 then shapes else Sized(shapes, id, size)
    case DoClear(id) => Sized(shapes, id, 0)
    case DoCopyBytes(id, bytes) => Sized(shapes, id, Larger(|bytes|, shapes[id].size))
    case DoCopyFrame(id, source) => Sized(shapes, id, Larger(shapes[source].size, shapes[id].size))
    case DoSwap(id, other) => Sized(Sized(shapes, id, shapes[other].size), other, shapes[id].size)
    case DoDestroy(id) => shapes - {id}
  }

  /** A run; what is not allowed is not done. */
  function AfterAll(shapes: map<nat, Shape>, ops: seq<Op>): map<nat, Shape> {
    if ops == [] then shapes
    else
      var before := AfterAll(shapes, ops[..|ops| - 1]);
      var op := ops[|ops| - 1];
      if Allowed(before, op) then After(before, op) else before
  }

  /** A program over packets it knows by number. */
  class Program {
    const heap: Heap
    var packets: map<nat, Packet>

    ghost predicate Valid()
      reads this, heap, packets.Values
    {
      OneToOne(heap, packets.Values) && OneName(packets)
    }

    constructor ()
      ensures Valid() && fresh(heap) && packets == map[]
    {
      heap := new Heap();
      packets := map[];
    }

    function Shapes(): map<nat, Shape>
      reads this, packets.Values
    {
      map id | id in packets :: Shape(packets[id].info.Frame?, packets[id].size)
    }

    /** Name a new object and give it its first block. */
    method Add(id: nat, p: Packet, size: int)
      requires Valid() && id !in packets && p !in packets.Values && p.Now() == EMPTY_SLOT
      modifies this`packets, heap, p`data, p`size
      ensures Valid() && packets == old(packets)[id := p] && p.size == NotNegative(size)
    {
      hide Tidy, Owns, OthersKeep;
      TidyNew(heap.blocks, Slots(packets.Values), p);
      ValuesAdd(packets, id, p);
      ghost var slots := Slots(packets.Values);
      packets := packets[id := p];
      assert Slots(packets.Values) == slots[p := EMPTY_SLOT];
      p.Resize(heap, size, packets.Values);
    }

    method AddFrame(id: nat, size: int)
      requires Valid() && id !in packets
      modifies this`packets, heap
      ensures Valid() && id in packets && fresh(packets[id]) && packets == old(packets)[id := packets[id]]
      ensures packets[id].info.Frame? && packets[id].size == NotNegative(size)
    {
      var p := new Packet.EmptyFrame();
      Add(id, p, size);
    }

    method AddPacket(id: nat, format: int, size: int)
      requires Valid() && id !in packets
      modifies this`packets, heap
      ensures Valid() && id in packets && fresh(packets[id]) && packets == old(packets)[id := packets[id]]
      ensures !packets[id].info.Frame? && packets[id].size == NotNegative(size)
    {
      var p := new Packet.EmptyPacket(format);
      Add(id, p, size);
    }

    method Remove(id: nat)
      requires Valid() && id in packets
      modifies this`packets, heap, packets.Values
      ensures forall p: Packet | p in old(packets).Values :: p.size == old(p.size) && p.info == old(p.info)
      ensures Valid() && packets == old(packets) - {id}
    {
      hide Tidy, Owns, OthersKeep;
      var p := packets[id];
      ValuesRemove(packets, id);
      p.Destroy(heap, packets.Values);
      packets := packets - {id};
    }

    /** Another block, or none, for one packet. */
    method Refit(op: Op)
      requires Valid() && Allowed(Shapes(), op) && (op.DoResize? || op.DoClear?)
      modifies heap, packets.Values
      ensures Valid() && Shapes() == After(old(Shapes()), op)
    {
      hide OneToOne, Owns, OthersKeep, Slots;
      ghost var shapes := Shapes();
      match op {
        case DoResize(id, size) => packets[id].Resize(heap, size, packets.Values);
        case DoClear(id) => packets[id].Clear(heap, packets.Values);
      }
      assert Shapes() == Sized(shapes, op.id, packets[op.id].size);
    }

    /** Other bytes for one packet. */
    method Refill(op: Op)
      requires Valid() && Allowed(Shapes(), op) && (op.DoCopyBytes? || op.DoCopyFrame?)
      modifies heap, packets.Values
      ensures Valid() && Shapes() == After(old(Shapes()), op)
    {
      hide OneToOne, Owns, OthersKeep, Slots;
      EachPacketOwns(heap, packets);
      ghost var shapes := Shapes();
      match op {
        case DoCopyBytes(id, bytes) => packets[id].CopyBytes(heap, bytes, packets.Values);
        case DoCopyFrame(id, source) => packets[id].CopyFrame(heap, packets[source], packets.Values);
      }
      assert Shapes() == Sized(shapes, op.id, packets[op.id].size);
    }

    method Exchange(id: nat, other: nat)
      requires Valid() && Allowed(Shapes(), DoSwap(id, other))
      modifies packets.Values
      ensures Valid() && Shapes() == After(old(Shapes()), DoSwap(id, other))
    {
      hide Tidy, Owns, OthersKeep;
      EachPacketOwns(heap, packets);
      if packets[id].info.Frame? {
        packets[id].SwapFrames(heap, packets[other], packets.Values);
      } else {
        packets[id].SwapPackets(heap, packets[other], packets.Values);
      }
    }

    method Perform(op: Op)
      requires Valid() && Allowed(Shapes(), op)
      modifies this`packets, heap, packets.Values
      ensures Valid() && fresh(packets.Values - old(packets.Values))
      ensures Shapes() == After(old(Shapes()), op)
    {
      hide OneToOne, OneName;
      match op {
        case MakeFrame(id, size) => AddFrame(id, size);
        case MakePacket(id, format, size) => AddPacket(id, format, size);
        case DoDestroy(id) => Remove(id);
        case DoSwap(id, other) => Exchange(id, other);
        case DoCopyBytes(_, _) => Refill(op);
        case DoCopyFrame(_, _) => Refill(op);
        case _ => Refit(op);
      }
    }

    /** Whatever is done, live blocks and non-empty packets stay in step. */
    method Execute(ops: seq<Op>)
      requires Valid()
      modifies this`packets, heap, packets.Values
      ensures Valid() && fresh(packets.Values - old(packets.Values))
      ensures Shapes() == AfterAll(old(Shapes()), ops)
    {
      hide OneToOne, OneName, Allowed, After;
      assert ops[..0] == [];
      for i := 0 to |ops|
        invariant Valid() && fresh(packets.Values - old(packets.Values))
        invariant Shapes() == AfterAll(old(Shapes()), ops[..i])
      {
        assert ops[..i + 1][..i] == ops[..i];
        if Allowed(Shapes(), ops[i]) {
          Perform(ops[i]);
        }
      }
      assert ops[..|ops|] == ops;
    }

    /** Destroying every packet leaves no block behind. */
    method Finish()
      requires Valid()
      modifies this`packets, heap, packets.Values
      ensures packets == map[] && heap.blocks == map[]
    {
      hide Tidy, Owns, OthersKeep;
      while packets != map[]
        invariant Valid() && packets.Values <= old(packets.Values)
        decreases |packets|
      {
        var id :| id in packets;
        ghost var before := packets;
        Remove(id);
        assert packets.Keys == before.Keys - {id};
        assert |packets| == |packets.Keys| && |before| == |before.Keys|;
      }
      NothingLeft(heap.blocks, Slots(packets.Values));
    }
  }

  lemma EachPacketOwns(heap: Heap, packets: map<nat, Packet>)
    requires OneToOne(heap, packets.Values)
    ensures forall id | id in packets :: Owns(heap.blocks, packets[id].Now())
  {
    forall id | id in packets ensures Owns(heap.blocks, packets[id].Now()) {
      assert Slots(packets.Values)[packets[id]] == packets[id].Now();
    }
  }

  /** No object has two numbers. */
  ghost predicate OneName<V>(m: map<nat, V>) {
    forall i, j | i in m && j in m && m[i] == m[j] :: i == j
  }

  lemma ValuesAdd<V>(m: map<nat, V>, id: nat, v: V)
    requires OneName(m) && id !in m && v !in m.Values
    ensures m[id := v].Values == m.Values + {v} && OneName(m[id := v])
  {
    forall w | w in m.Values + {v} ensures w in m[id := v].Values {
      if w == v {
        assert m[id := v][id] == v;
      } else {
        var i :| i in m && m[i] == w;
        assert m[id := v][i] == w;
      }
    }
  }

  lemma ValuesRemove<V>(m: map<nat, V>, id: nat)
    requires OneName(m) && id in m
    ensures (m - {id}).Values == m.Values - {m[id]} && OneName(m - {id})
  {
    forall w | w in m.Values - {m[id]} ensures w in (m - {id}).Values {
      var i :| i in m && m[i] == w;
      assert (m - {id})[i] == w;
    }
  }
}
