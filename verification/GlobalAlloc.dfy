// The Global front end over the raw allocator (impl AllocRef for Global, src/liballoc/alloc.rs).
module GlobalAlloc {
  import opened Basics

  datatype Layout = Layout(size: nat, align: nat)

  /** A live allocation, with the layout it was last given. */
  datatype Block = Block(layout: Layout, bytes: seq<byte>)

  type Heap = map<nat, Block>

  /** A well-aligned pointer to nothing, or an address. */
  datatype Ptr = Dangling(align: nat) | At(address: nat)

  datatype MemoryBlock = MemoryBlock(ptr: Ptr, size: nat)

  datatype Result = Ok(memory: MemoryBlock) | AllocErr

  datatype AllocInit = Uninitialized | Zeroed

  datatype ReallocPlacement = MayMove | InPlace

  predicate Consistent(heap: Heap) {
    forall p :: p in heap ==> heap[p].layout.size == |heap[p].bytes| > 0
  }

  /** What a caller of Global holds: a live block of that layout, or nothing if it is of size zero. */
  predicate Owns(heap: Heap, ptr: Ptr, layout: Layout) {
    layout.size == 0 || (ptr.At? && ptr.address in heap && heap[ptr.address].layout == layout)
  }

  /** The bytes behind a pointer that the caller holds. */
  function Bytes(heap: Heap, ptr: Ptr, layout: Layout): seq<byte>
    requires Owns(heap, ptr, layout)
  {
    if layout.size == 0 then [] else heap[ptr.address].bytes
  }

  /** The heap without the block behind the pointer. */
  function Without(heap: Heap, ptr: Ptr, layout: Layout): Heap {
    if layout.size == 0 || ptr.Dangling? then heap else heap - {ptr.address}
  }

  /** The caller now holds size bytes at the new pointer, and nothing else has changed but that the old block, if there
      was one, is gone. */
  predicate Replaced(heap: Heap, heap': Heap, ptr: Ptr, layout: Layout, memory: MemoryBlock, newSize: nat) {
    var layout' := Layout(newSize, layout.align);
    && memory.size == newSize
    && Owns(heap', memory.ptr, layout')
    && Without(heap', memory.ptr, layout') == Without(heap, ptr, layout)
    && (newSize > 0 && memory.ptr.At? ==> memory.ptr.address !in Without(heap, ptr, layout))
  }

  /** An address in use by nobody. */
  method FreshAddress(taken: set<nat>) returns (p: nat)
    ensures p > 0 && p !in taken
  {
    p := 1;
    var above := taken;
    while p in taken
      invariant p > 0 && (forall x :: x in taken && x !in above ==> x < p) && above <= taken
      decreases above
    {
      above := set x | x in above && x > p;
      p := p + 1;
    }
  }

  // ---------------------------------------------------------------------------------------------
  // The raw allocator: what it demands of its caller, and all that it may answer.

  class Raw {
    var heap: Heap
    /** How many requests for memory have been refused. */
    var refusals: nat

    constructor ()
      ensures heap == map[] && refusals == 0
    {
      heap, refusals := map[], 0;
    }

    method Alloc(layout: Layout, zeroed: bool) returns (p: Option<nat>)
      requires layout.size > 0
      modifies this
      ensures refusals == old(refusals) + if p.None? then 1 else 0
      ensures p.None? ==> heap == old(heap)
      ensures p.Some? ==>
                && p.value !in old(heap) && p.value in heap && heap == old(heap)[p.value := heap[p.value]]
                && heap[p.value].layout == layout && |heap[p.value].bytes| == layout.size
                && (zeroed ==> forall i :: 0 <= i < layout.size ==> heap[p.value].bytes[i] == 0)
    {
      var out :| out || !out;
      if out {
        refusals := refusals + 1;
        return None;
      }
      var junk: seq<byte> := seq(layout.size, _ => 0);
      if !zeroed {
        junk := *;
        if |junk| != layout.size {
          junk := seq(layout.size, _ => 0);
        }
      }
      var address := FreshAddress(heap.Keys);
      heap := heap[address := Block(layout, junk)];
      return Some(address);
    }

    method Dealloc(p: nat, layout: Layout)
      requires p in heap && heap[p].layout == layout
      modifies this`heap
      ensures heap == old(heap) - {p}
    {
      heap := heap - {p};
    }

    method Realloc(p: nat, layout: Layout, newSize: nat) returns (q: Option<nat>)
      requires p in heap && heap[p].layout == layout && newSize > 0 && Consistent(heap)
      modifies this
      ensures refusals == old(refusals) + if q.None? then 1 else 0
      ensures q.None? ==> heap == old(heap)
      ensures q.Some? ==>
                && q.value !in old(heap) - {p} && q.value in heap && heap == (old(heap) - {p})[q.value := heap[q.value]]
                && heap[q.value].layout == Layout(newSize, layout.align) && |heap[q.value].bytes| == newSize
                && forall i :: 0 <= i < layout.size && i < newSize ==> heap[q.value].bytes[i] == old(heap)[p].bytes[i]
    {
      var out :| out || !out;
      if out {
        refusals := refusals + 1;
        return None;
      }
      var block := heap[p];
      var bytes := if newSize <= layout.size then block.bytes[..newSize] else block.bytes + seq(newSize - layout.size, _ => 0);
      heap := heap - {p};
      var moves :| moves || !moves;
      var address := p;
      if moves {
        address := FreshAddress(heap.Keys);
      }
      heap := heap[address := Block(Layout(newSize, layout.align), bytes)];
      return Some(address);
    }

    /** A store by the client into a block of its own. */
    method Store(p: nat, k: nat, v: byte)
      requires p in heap && k < |heap[p].bytes|
      modifies this`heap
      ensures heap == old(heap)[p := old(heap)[p].(bytes := old(heap)[p].bytes[k := v])]
    {
      heap := heap[p := heap[p].(bytes := heap[p].bytes[k := v])];
    }

    /** write_bytes(0) from offset to the end of the block. */
    method ZeroFrom(p: nat, offset: nat)
      requires p in heap && Consistent(heap) && offset <= heap[p].layout.size
      modifies this`heap
      ensures p in heap && heap == old(heap)[p := heap[p]] && heap[p].layout == old(heap)[p].layout
      ensures |heap[p].bytes| == |old(heap)[p].bytes|
      ensures forall i :: 0 <= i < |heap[p].bytes| ==> heap[p].bytes[i] == if i < offset then old(heap)[p].bytes[i] else 0
    {
      var block := heap[p];
      heap := heap[p := block.(bytes := block.bytes[..offset] + seq(|block.bytes| - offset, _ => 0))];
    }
  }

  // ---------------------------------------------------------------------------------------------
  // The front end. That each call of the raw allocator meets its demands is checked at the calls below.

  class Global {
    const raw: Raw

    constructor (raw: Raw)
      ensures this.raw == raw
    {
      this.raw := raw;
    }

    method Alloc(layout: Layout, init: AllocInit) returns (r: Result)
      requires Consistent(raw.heap)
      modifies raw
      ensures Consistent(raw.heap)
      ensures layout.size == 0 ==> r == Ok(MemoryBlock(Dangling(layout.align), 0))
      ensures raw.refusals == old(raw.refusals) + if r.AllocErr? then 1 else 0
      ensures r.AllocErr? ==> raw.heap == old(raw.heap)
      ensures r.Ok? ==>
                && Replaced(old(raw.heap), raw.heap, Dangling(layout.align), Layout(0, layout.align), r.memory, layout.size)
                && (init.Zeroed? ==> ZeroTail(Bytes(raw.heap, r.memory.ptr, layout), 0))
    {
      if layout.size == 0 {
        return Ok(MemoryBlock(Dangling(layout.align), 0));
      }
      var p := raw.Alloc(layout, init.Zeroed?);
      if p.None? {
        return AllocErr;
      }
      return Ok(MemoryBlock(At(p.value), layout.size));
    }

    method Dealloc(ptr: Ptr, layout: Layout)
      requires Consistent(raw.heap) && Owns(raw.heap, ptr, layout)
      modifies raw`heap
      ensures Consistent(raw.heap) && raw.heap == Without(old(raw.heap), ptr, layout)
    {
      if layout.size != 0 {
        raw.Dealloc(ptr.address, layout);
      }
    }

    /** A successful grow keeps all the bytes there were, and zeroes the others if asked; a failed one changes nothing. It
        fails if it may not move, and otherwise only if the raw allocator has just refused. */
    method Grow(ptr: Ptr, layout: Layout, newSize: nat, placement: ReallocPlacement, init: AllocInit) returns (r: Result)
      requires Consistent(raw.heap) && Owns(raw.heap, ptr, layout) && newSize >= layout.size
      modifies raw
      ensures Consistent(raw.heap)
      ensures newSize == layout.size ==> r == Ok(MemoryBlock(ptr, newSize))
      ensures r.AllocErr? ==> raw.heap == old(raw.heap)
      ensures placement.InPlace? && newSize > layout.size ==> r.AllocErr?
      ensures raw.refusals == old(raw.refusals) + if r.AllocErr? && placement.MayMove? then 1 else 0
      ensures r.Ok? ==>
                && Replaced(old(raw.heap), raw.heap, ptr, layout, r.memory, newSize)
                && var before, after := Bytes(old(raw.heap), ptr, layout), Bytes(raw.heap, r.memory.ptr, Layout(newSize, layout.align));
                && |after| == newSize && before <= after
                && (init.Zeroed? ==> ZeroTail(after, layout.size))
    {
      var size := layout.size;
      if size == newSize {
        return Ok(MemoryBlock(ptr, size));
      }
      if placement.InPlace? {
        return AllocErr;
      }
      if layout.size == 0 {
        r := Alloc(Layout(newSize, layout.align), init);
        return;
      }
      var q := raw.Realloc(ptr.address, layout, newSize);
      if q.None? {
        return AllocErr;
      }
      if init.Zeroed? {
        raw.ZeroFrom(q.value, size);
      }
      return Ok(MemoryBlock(At(q.value), newSize));
    }

    /** A successful shrink keeps the first newSize bytes; a failed one changes nothing. It fails if it may not move, and
        otherwise only if the raw allocator has just refused. */
    method Shrink(ptr: Ptr, layout: Layout, newSize: nat, placement: ReallocPlacement) returns (r: Result)
      requires Consistent(raw.heap) && Owns(raw.heap, ptr, layout) && newSize <= layout.size
      modifies raw
      ensures Consistent(raw.heap)
      ensures newSize == layout.size ==> r == Ok(MemoryBlock(ptr, newSize))
      ensures newSize == 0 < layout.size && placement.MayMove? ==> r == Ok(MemoryBlock(Dangling(layout.align), 0))
      ensures r.AllocErr? ==> raw.heap == old(raw.heap)
      ensures placement.InPlace? && newSize < layout.size ==> r.AllocErr?
      ensures raw.refusals == old(raw.refusals) + if r.AllocErr? && placement.MayMove? then 1 else 0
      ensures r.Ok? ==>
                && Replaced(old(raw.heap), raw.heap, ptr, layout, r.memory, newSize)
                && var before, after := Bytes(old(raw.heap), ptr, layout), Bytes(raw.heap, r.memory.ptr, Layout(newSize, layout.align));
                && |after| == newSize && after <= before
    {
      var size := layout.size;
      if size == newSize {
        return Ok(MemoryBlock(ptr, size));
      }
      if placement.InPlace? {
        return AllocErr;
      }
      if newSize == 0 {
        Dealloc(ptr, layout);
        return Ok(MemoryBlock(Dangling(layout.align), 0));
      }
      var q := raw.Realloc(ptr.address, layout, newSize);
      if q.None? {
        return AllocErr;
      }
      return Ok(MemoryBlock(At(q.value), newSize));
    }
  }

  predicate ZeroTail(bytes: seq<byte>, offset: nat) {
    forall i :: offset <= i < |bytes| ==> bytes[i] == 0
  }

  // ---------------------------------------------------------------------------------------------
  // Whole runs: a client that keeps to the contract, and what it can rely on.

  /** A block the client holds, with what it knows of the contents. */
  datatype Held = Held(ptr: Ptr, layout: Layout, known: seq<Option<byte>>)

  datatype Op =
    | DoAlloc(layout: Layout, init: AllocInit)
    | DoDealloc(i: nat)
    | DoGrow(i: nat, newSize: nat, placement: ReallocPlacement, init: AllocInit)
    | DoShrink(i: nat, newSize: nat, placement: ReallocPlacement)
    | DoStore(i: nat, k: nat, v: byte)

  predicate Knows(heap: Heap, h: Held) {
    && Owns(heap, h.ptr, h.layout)
    && |h.known| == |Bytes(heap, h.ptr, h.layout)|
    && forall k :: 0 <= k < |h.known| && h.known[k].Some? ==> Bytes(heap, h.ptr, h.layout)[k] == h.known[k].value
  }

  predicate Uses(h: Held, p: nat) {
    h.layout.size > 0 && h.ptr == At(p)
  }

  /** Everything held is live and holds what is known of it, no block is held twice, and no block is leaked. */
  ghost predicate Tracks(heap: Heap, held: seq<Held>) {
    && Consistent(heap)
    && (forall i :: 0 <= i < |held| ==> Knows(heap, held[i]))
    && (forall i, j, p :: 0 <= i < j < |held| && Uses(held[i], p) ==> !Uses(held[j], p))
    && (forall p :: p in heap ==> exists i :: 0 <= i < |held| && Uses(held[i], p))
  }

  function Fill(n: nat, init: AllocInit): seq<Option<byte>> {
    seq(n, _ => if init.Zeroed? then Some(0) else None)
  }

  /** What the contract of Global allows a client to ask for. */
  predicate Allowed(held: seq<Held>, op: Op) {
    op.DoAlloc? || (op.i < |held| &&
      match op
      case DoDealloc(i) => true
      case DoGrow(i, newSize, _, _) => newSize >= held[i].layout.size
      case DoShrink(i, newSize, _) => newSize <= held[i].layout.size
      case DoStore(i, k, _) => k < |held[i].known|)
  }

  /** Only a request for memory, or a change of size, can fail. */
  predicate MayFail(held: seq<Held>, op: Op)
    requires Allowed(held, op)
  {
    match op
    case DoAlloc(layout, _) => layout.size > 0
    case DoGrow(i, newSize, _, _) => newSize > held[i].layout.size
    case DoShrink(i, newSize, _) => newSize < held[i].layout.size
    case _ => false
  }

  /** What the client holds after an operation that succeeds and hands out the pointer. */
  function AfterOp(held: seq<Held>, op: Op, ptr: Ptr): seq<Held>
    requires Allowed(held, op) && forall i :: 0 <= i < |held| ==> |held[i].known| == held[i].layout.size
  {
    match op
    case DoAlloc(layout, init) => held + [Held(ptr, layout, Fill(layout.size, init))]
    case DoDealloc(i) => held[..i] + held[i + 1..]
    case DoGrow(i, newSize, _, init) =>
      var h := held[i];
      held[i := Held(ptr, Layout(newSize, h.layout.align), h.known + Fill(newSize - h.layout.size, init))]
    case DoShrink(i, newSize, _) =>
      held[i := Held(ptr, Layout(newSize, held[i].layout.align), held[i].known[..newSize])]
    case DoStore(i, k, v) => held[i := held[i].(known := held[i].known[k := Some(v)])]
  }

  /** A change of size in place. */
  predicate Immovable(op: Op) {
    (op.DoGrow? || op.DoShrink?) && op.placement.InPlace?
  }

  /** An operation that may fail does so if it may not move, and otherwise exactly if the raw allocator refuses once. */
  ghost predicate Stepped(held: seq<Held>, op: Op, held': seq<Held>, refused: nat) {
    && (forall i :: 0 <= i < |held| ==> |held[i].known| == held[i].layout.size)
    && if Allowed(held, op) && MayFail(held, op) && (Immovable(op) || refused == 1) then
         held' == held && refused == if Immovable(op) then 0 else 1
       else
         refused == 0 && if Allowed(held, op) then exists ptr :: held' == AfterOp(held, op, ptr) else held' == held
  }

  lemma IsStep(held: seq<Held>, op: Op, ptr: Ptr, held': seq<Held>)
    requires forall i :: 0 <= i < |held| ==> |held[i].known| == held[i].layout.size
    requires Allowed(held, op) && (MayFail(held, op) ==> !Immovable(op)) && held' == AfterOp(held, op, ptr)
    ensures Stepped(held, op, held', 0)
  {
  }

  lemma IsFailure(held: seq<Held>, op: Op)
    requires forall i :: 0 <= i < |held| ==> |held[i].known| == held[i].layout.size
    requires Allowed(held, op) && MayFail(held, op)
    ensures Stepped(held, op, held, if Immovable(op) then 0 else 1)
  {
  }

  /** What a script can lead to, with that many refusals of the raw allocator. */
  ghost predicate Reached(script: seq<Op>, held: seq<Held>, refusals: nat) {
    if script == [] then held == [] && refusals == 0
    else
      var earlier, op := script[..|script| - 1], script[|script| - 1];
      exists before, refused: nat ::
        refused <= refusals && Reached(earlier, before, refusals - refused) && Stepped(before, op, held, refused)
  }

  lemma ReachedMore(script: seq<Op>, n: nat, before: seq<Held>, held: seq<Held>, refusals: nat, refused: nat)
    requires n < |script| && Reached(script[..n], before, refusals) && Stepped(before, script[n], held, refused)
    ensures Reached(script[..n + 1], held, refusals + refused)
  {
    hide Stepped;
    var longer := script[..n + 1];
    assert longer[..|longer| - 1] == script[..n] && longer[|longer| - 1] == script[n];
    assert Reached(longer[..|longer| - 1], before, refusals + refused - refused);
  }

  lemma OwnersDiffer(heap: Heap, held: seq<Held>, i: nat, j: nat)
    requires Tracks(heap, held) && i < |held| && j < |held| && i != j && held[i].layout.size > 0 && held[j].layout.size > 0
    ensures held[i].ptr != held[j].ptr
  {
    assert Uses(held[if i < j then i else j], held[i].ptr.address) || held[i].ptr != held[j].ptr;
  }

  /** When one block is replaced by another, what is known of the others stays true. */
  lemma OthersKept(heap: Heap, heap': Heap, held: seq<Held>, i: nat, j: nat, memory: MemoryBlock, newSize: nat)
    requires Tracks(heap, held) && i < |held| && j < |held| && i != j
    requires Replaced(heap, heap', held[i].ptr, held[i].layout, memory, newSize)
    ensures Knows(heap', held[j])
    ensures held[j].layout.size > 0 && newSize > 0 ==> held[j].ptr != memory.ptr
  {
    if held[j].layout.size > 0 {
      if held[i].layout.size > 0 {
        OwnersDiffer(heap, held, i, j);
      }
      var q := held[j].ptr.address;
      var rest := Without(heap, held[i].ptr, held[i].layout);
      assert q in rest && rest[q] == heap[q];
      assert q in Without(heap', memory.ptr, Layout(newSize, held[i].layout.align));
    }
  }

  lemma ReplaceTracked(heap: Heap, heap': Heap, held: seq<Held>, i: nat, memory: MemoryBlock, newSize: nat, known: seq<Option<byte>>)
    requires Tracks(heap, held) && Consistent(heap') && i < |held|
    requires Replaced(heap, heap', held[i].ptr, held[i].layout, memory, newSize)
    requires Knows(heap', Held(memory.ptr, Layout(newSize, held[i].layout.align), known))
    ensures Tracks(heap', held[i := Held(memory.ptr, Layout(newSize, held[i].layout.align), known)])
  {
    var h' := Held(memory.ptr, Layout(newSize, held[i].layout.align), known);
    var held' := held[i := h'];
    forall j | 0 <= j < |held'| ensures Knows(heap', held'[j]) {
      if j != i { OthersKept(heap, heap', held, i, j, memory, newSize); }
    }
    forall a, b, p | 0 <= a < b < |held'| && Uses(held'[a], p) ensures !Uses(held'[b], p) {
      if a == i { OthersKept(heap, heap', held, i, b, memory, newSize); }
      if b == i { OthersKept(heap, heap', held, i, a, memory, newSize); }
    }
    hide Knows;
    forall p | p in heap' ensures exists j :: 0 <= j < |held'| && Uses(held'[j], p) {
      if Uses(h', p) {
        assert held'[i] == h';
      } else {
        assert p in Without(heap', memory.ptr, h'.layout);
        assert p in Without(heap, held[i].ptr, held[i].layout);
        var j :| 0 <= j < |held| && Uses(held[j], p);
        assert held'[j] == held[j];
      }
    }
  }

  lemma OwnsReplaced(heap: Heap, heap': Heap, ptr: Ptr, layout: Layout, memory: MemoryBlock, newSize: nat)
    requires Replaced(heap, heap', ptr, layout, memory, newSize) && Consistent(heap')
    ensures memory.size == newSize && Owns(heap', memory.ptr, Layout(newSize, layout.align))
    ensures |Bytes(heap', memory.ptr, Layout(newSize, layout.align))| == newSize
  {
  }

  lemma KnowsEach(heap: Heap, held: seq<Held>, i: nat)
    requires Tracks(heap, held) && i < |held|
    ensures Consistent(heap) && Knows(heap, held[i])
  {
  }

  lemma KnownSizes(heap: Heap, held: seq<Held>)
    requires Tracks(heap, held)
    ensures Consistent(heap) && forall i :: 0 <= i < |held| ==> |held[i].known| == held[i].layout.size
  {
    forall i | 0 <= i < |held| ensures |held[i].known| == held[i].layout.size {
      assert Knows(heap, held[i]);
    }
  }

  /** A block of size zero may be held or not held. */
  lemma AppendNothing(heap: Heap, held: seq<Held>, ptr: Ptr, align: nat)
    requires Tracks(heap, held)
    ensures Tracks(heap, held + [Held(ptr, Layout(0, align), [])])
  {
    var held' := held + [Held(ptr, Layout(0, align), [])];
    forall p | p in heap ensures exists j :: 0 <= j < |held'| && Uses(held'[j], p) {
      var j :| 0 <= j < |held| && Uses(held[j], p);
      assert held'[j] == held[j];
    }
  }

  lemma DropNothing(heap: Heap, held: seq<Held>, i: nat)
    requires Tracks(heap, held) && i < |held| && held[i].layout.size == 0
    ensures Tracks(heap, held[..i] + held[i + 1..])
  {
    hide Knows, Consistent;
    var held' := held[..i] + held[i + 1..];
    assert forall j :: 0 <= j < |held'| ==> held'[j] == held[if j < i then j else j + 1];
    forall p | p in heap ensures exists j :: 0 <= j < |held'| && Uses(held'[j], p) {
      var j :| 0 <= j < |held| && Uses(held[j], p);
      assert held'[if j < i then j else j - 1] == held[j];
    }
  }

  function AfterStore(heap: Heap, p: nat, k: nat, v: byte): Heap
    requires p in heap && k < |heap[p].bytes|
  {
    heap[p := heap[p].(bytes := heap[p].bytes[k := v])]
  }

  lemma StoreKnown(heap: Heap, held: seq<Held>, i: nat, j: nat, k: nat, v: byte)
    requires Tracks(heap, held) && i < |held| && j < |held| && k < held[i].layout.size
    ensures held[i].ptr.address in heap && k < |heap[held[i].ptr.address].bytes| && k < |held[i].known|
    ensures Knows(AfterStore(heap, held[i].ptr.address, k, v),
                  if j == i then held[i].(known := held[i].known[k := Some(v)]) else held[j])
  {
    assert Knows(heap, held[i]) && Knows(heap, held[j]);
    if j != i && held[j].layout.size > 0 {
      OwnersDiffer(heap, held, i, j);
    }
  }

  lemma StoreTracked(heap: Heap, held: seq<Held>, i: nat, k: nat, v: byte)
    requires Tracks(heap, held) && i < |held| && k < held[i].layout.size
    ensures held[i].ptr.address in heap && k < |heap[held[i].ptr.address].bytes| && k < |held[i].known|
    ensures Tracks(AfterStore(heap, held[i].ptr.address, k, v), held[i := held[i].(known := held[i].known[k := Some(v)])])
  {
    StoreKnown(heap, held, i, i, k, v);
    var heap', held' := AfterStore(heap, held[i].ptr.address, k, v), held[i := held[i].(known := held[i].known[k := Some(v)])];
    assert Consistent(heap') && heap'.Keys == heap.Keys by { assert Consistent(heap); }
    hide Knows, Consistent, Tracks, AfterStore;
    forall j | 0 <= j < |held'| ensures Knows(heap', held'[j]) {
      StoreKnown(heap, held, i, j, k, v);
    }
    SameHolders(heap, heap', held, held');
  }

  /** The same blocks are held. */
  lemma SameHolders(heap: Heap, heap': Heap, held: seq<Held>, held': seq<Held>)
    requires Tracks(heap, held) && |held'| == |held| && heap'.Keys == heap.Keys && Consistent(heap')
    requires forall j :: 0 <= j < |held| ==> held'[j].ptr == held[j].ptr && held'[j].layout == held[j].layout
    requires forall j :: 0 <= j < |held| ==> Knows(heap', held'[j])
    ensures Tracks(heap', held')
  {
    hide Knows, Consistent;
    forall a, b, q | 0 <= a < b < |held'| && Uses(held'[a], q) ensures !Uses(held'[b], q) {
      assert Uses(held[a], q) && !Uses(held[b], q);
    }
    forall q | q in heap' ensures exists j :: 0 <= j < |held'| && Uses(held'[j], q) {
      var j :| 0 <= j < |held| && Uses(held[j], q);
      assert Uses(held'[j], q);
    }
  }

  /** After a grow the client knows what it knew, and zeroes where it asked for them. */
  lemma GrowKnown(heap: Heap, heap': Heap, h: Held, ptr: Ptr, newSize: nat, init: AllocInit)
    requires Knows(heap, h) && |h.known| == h.layout.size <= newSize && Owns(heap', ptr, Layout(newSize, h.layout.align))
    requires var before, after := Bytes(heap, h.ptr, h.layout), Bytes(heap', ptr, Layout(newSize, h.layout.align));
      |after| == newSize && before <= after && (init.Zeroed? ==> ZeroTail(after, h.layout.size))
    ensures Knows(heap', Held(ptr, Layout(newSize, h.layout.align), h.known + Fill(newSize - h.layout.size, init)))
  {
    hide Bytes, Owns;
    FillKnown(heap', ptr, Layout(newSize, h.layout.align), init, h.known, newSize - h.layout.size);
  }

  lemma FillKnown(heap: Heap, ptr: Ptr, layout: Layout, init: AllocInit, known: seq<Option<byte>>, n: nat)
    requires Owns(heap, ptr, layout) && |Bytes(heap, ptr, layout)| == layout.size == |known| + n
    requires forall k :: 0 <= k < |known| && known[k].Some? ==> Bytes(heap, ptr, layout)[k] == known[k].value
    requires init.Zeroed? ==> ZeroTail(Bytes(heap, ptr, layout), |known|)
    ensures Knows(heap, Held(ptr, layout, known + Fill(n, init)))
  {
  }

  /** The client: any script of operations on the blocks it holds. A step that the contract of Global forbids is not
      taken; one that fails leaves everything as it was, and except in place fails only when the raw allocator refuses. After any script, every block held is live with the layout it
      was last given, everything the client put or asked into it and has not given up is still there, and nothing is
      live but what is held. */
  method Client(script: seq<Op>) returns (global: Global, held: seq<Held>)
    ensures Tracks(global.raw.heap, held) && Reached(script, held, global.raw.refusals)
  {
    var raw := new Raw();
    global := new Global(raw);
    held := [];
    for n := 0 to |script|
      invariant fresh(global) && fresh(global.raw) && Tracks(global.raw.heap, held)
      invariant Reached(script[..n], held, global.raw.refusals)
    {
      hide Tracks, Knows, Replaced, Stepped, Reached;
      ghost var before, refusals := held, global.raw.refusals;
      held := Perform(global, held, script[n]);
      ReachedMore(script, n, before, held, refusals, global.raw.refusals - refusals);
    }
    assert script[..|script|] == script;
  }

  method Perform(global: Global, held: seq<Held>, op: Op) returns (held': seq<Held>)
    requires Tracks(global.raw.heap, held)
    modifies global.raw
    ensures Tracks(global.raw.heap, held') && old(global.raw.refusals) <= global.raw.refusals
    ensures Stepped(held, op, held', global.raw.refusals - old(global.raw.refusals))
  {
    KnownSizes(global.raw.heap, held);
    hide Tracks, AfterOp, MayFail;
    held' := held;
    if op.DoAlloc? {
      held' := PerformAlloc(global, held, op.layout, op.init);
    } else if op.i < |held| {
      var size := held[op.i].layout.size;
      if op.DoDealloc? {
        held' := PerformDealloc(global, held, op.i);
      } else if op.DoGrow? && op.newSize >= size {
        held' := PerformGrow(global, held, op.i, op.newSize, op.placement, op.init);
      } else if op.DoShrink? && op.newSize <= size {
        held' := PerformShrink(global, held, op.i, op.newSize, op.placement);
      } else if op.DoStore? && op.k < size {
        held' := PerformStore(global, held, op.i, op.k, op.v);
      }
    }
  }

  method PerformDealloc(global: Global, held: seq<Held>, i: nat) returns (held': seq<Held>)
    requires Tracks(global.raw.heap, held) && i < |held|
    modifies global.raw
    ensures Tracks(global.raw.heap, held') && old(global.raw.refusals) <= global.raw.refusals
    ensures Stepped(held, DoDealloc(i), held', global.raw.refusals - old(global.raw.refusals))
  {
    KnownSizes(global.raw.heap, held);
    var h := held[i];
    assert Knows(global.raw.heap, h);
    global.Dealloc(h.ptr, h.layout);
    hide Tracks;
    ReplaceTracked(old(global.raw.heap), global.raw.heap, held, i, MemoryBlock(Dangling(h.layout.align), 0), 0, []);
    held' := held[i := Held(Dangling(h.layout.align), Layout(0, h.layout.align), [])];
    DropNothing(global.raw.heap, held', i);
    held' := held'[..i] + held'[i + 1..];
    assert held' == held[..i] + held[i + 1..];
    IsStep(held, DoDealloc(i), h.ptr, held');
  }

  method PerformStore(global: Global, held: seq<Held>, i: nat, k: nat, v: byte) returns (held': seq<Held>)
    requires Tracks(global.raw.heap, held) && i < |held| && k < held[i].layout.size
    modifies global.raw
    ensures Tracks(global.raw.heap, held') && old(global.raw.refusals) <= global.raw.refusals
    ensures Stepped(held, DoStore(i, k, v), held', global.raw.refusals - old(global.raw.refusals))
  {
    KnownSizes(global.raw.heap, held);
    hide Tracks, Knows;
    var h := held[i];
    StoreTracked(global.raw.heap, held, i, k, v);
    global.raw.Store(h.ptr.address, k, v);
    held' := held[i := h.(known := h.known[k := Some(v)])];
    IsStep(held, DoStore(i, k, v), h.ptr, held');
  }

  method PerformAlloc(global: Global, held: seq<Held>, layout: Layout, init: AllocInit) returns (held': seq<Held>)
    requires Tracks(global.raw.heap, held)
    modifies global.raw
    ensures Tracks(global.raw.heap, held') && old(global.raw.refusals) <= global.raw.refusals
    ensures Stepped(held, DoAlloc(layout, init), held', global.raw.refusals - old(global.raw.refusals))
  {
    hide Tracks, Stepped, Replaced;
    KnownSizes(global.raw.heap, held);
    var r := global.Alloc(layout, init);
    if r.AllocErr? {
      IsFailure(held, DoAlloc(layout, init));
      return held;
    }
    AppendNothing(old(global.raw.heap), held, Dangling(layout.align), layout.align);
    held' := held + [Held(Dangling(layout.align), Layout(0, layout.align), [])];
    OwnsReplaced(old(global.raw.heap), global.raw.heap, Dangling(layout.align), Layout(0, layout.align), r.memory, layout.size);
    FillKnown(global.raw.heap, r.memory.ptr, layout, init, [], layout.size);
    assert [] + Fill(layout.size, init) == Fill(layout.size, init);
    hide Knows, Fill, Consistent;
    ReplaceTracked(old(global.raw.heap), global.raw.heap, held', |held|, r.memory, layout.size, Fill(layout.size, init));
    held' := held'[|held| := Held(r.memory.ptr, layout, Fill(layout.size, init))];
    IsStep(held, DoAlloc(layout, init), r.memory.ptr, held');
  }

  method PerformGrow(global: Global, held: seq<Held>, i: nat, newSize: nat, placement: ReallocPlacement, init: AllocInit)
    returns (held': seq<Held>)
    requires Tracks(global.raw.heap, held) && i < |held| && newSize >= held[i].layout.size
    modifies global.raw
    ensures Tracks(global.raw.heap, held') && old(global.raw.refusals) <= global.raw.refusals
    ensures Stepped(held, DoGrow(i, newSize, placement, init), held', global.raw.refusals - old(global.raw.refusals))
  {
    hide Tracks, Stepped, Replaced, Knows, Fill, Consistent, Owns, Bytes, ZeroTail;
    KnownSizes(global.raw.heap, held);
    var h := held[i];
    KnowsEach(global.raw.heap, held, i);
    var r := global.Grow(h.ptr, h.layout, newSize, placement, init);
    if r.AllocErr? {
      IsFailure(held, DoGrow(i, newSize, placement, init));
      return held;
    }
    var layout := Layout(newSize, h.layout.align);
    var known := h.known + Fill(newSize - h.layout.size, init);
    OwnsReplaced(old(global.raw.heap), global.raw.heap, h.ptr, h.layout, r.memory, newSize);
    GrowKnown(old(global.raw.heap), global.raw.heap, h, r.memory.ptr, newSize, init);
    ReplaceTracked(old(global.raw.heap), global.raw.heap, held, i, r.memory, newSize, known);
    held' := held[i := Held(r.memory.ptr, layout, known)];
    IsStep(held, DoGrow(i, newSize, placement, init), r.memory.ptr, held');
  }

  method PerformShrink(global: Global, held: seq<Held>, i: nat, newSize: nat, placement: ReallocPlacement)
    returns (held': seq<Held>)
    requires Tracks(global.raw.heap, held) && i < |held| && newSize <= held[i].layout.size
    modifies global.raw
    ensures Tracks(global.raw.heap, held') && old(global.raw.refusals) <= global.raw.refusals
    ensures Stepped(held, DoShrink(i, newSize, placement), held', global.raw.refusals - old(global.raw.refusals))
  {
    hide Tracks, Stepped, Replaced;
    KnownSizes(global.raw.heap, held);
    var h := held[i];
    KnowsEach(global.raw.heap, held, i);
    var r := global.Shrink(h.ptr, h.layout, newSize, placement);
    if r.AllocErr? {
      IsFailure(held, DoShrink(i, newSize, placement));
      return held;
    }
    var layout := Layout(newSize, h.layout.align);
    OwnsReplaced(old(global.raw.heap), global.raw.heap, h.ptr, h.layout, r.memory, newSize);
    assert Knows(global.raw.heap, Held(r.memory.ptr, layout, h.known[..newSize]));
    hide Knows;
    ReplaceTracked(old(global.raw.heap), global.raw.heap, held, i, r.memory, newSize, h.known[..newSize]);
    held' := held[i := Held(r.memory.ptr, layout, h.known[..newSize])];
    IsStep(held, DoShrink(i, newSize, placement), r.memory.ptr, held');
  }
}
