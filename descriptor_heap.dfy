/**
 * The fixed-capacity descriptor allocator of the Direct3D 12 backend
 * (`D3D12DescriptorHeapAllocator`). It hands out slots of one shader-visible descriptor
 * heap to the ImGui Direct3D 12 bridge. Free slots are kept on a stack of indices;
 * a slot index becomes a CPU and a GPU handle as `base + index * handleSize`,
 * and a handle is turned back into an index by the inverse computation.
 *
 * The native heap is abstracted by the constructor's parameters: the CPU and GPU
 * addresses of its first descriptor, the descriptor increment size and the number
 * of descriptors. The integer widths of the source are kept: indices and the
 * product `index * handleSize` are 32-bit `UINT`s, handles are 64-bit addresses.
 */
module DescriptorHeap {

  const UINT32_LIMIT: int := 0x1_0000_0000
  const ADDRESS_LIMIT: int := 0x1_0000_0000_0000_0000

  /** A `UINT`. */
  type uint32 = x: int | 0 <= x < UINT32_LIMIT

  /** The `ptr` of a CPU or GPU descriptor handle: a 64-bit address. */
  type Address = x: int | 0 <= x < ADDRESS_LIMIT

  /** Number of descriptors both Direct3D 12 backends reserve for ImGui. */
  const IMGUI_DESCRIPTOR_COUNT: uint32 := 64

  /** The byte offset of a slot: a `UINT` product, so it wraps modulo 2^32. */
  function Offset(index: uint32, handleSize: uint32): uint32 {
    (index * handleSize) % UINT32_LIMIT
  }

  /** The handle of slot `index`: the heap start plus the slot's offset, modulo 2^64. */
  function Encode(base: Address, handleSize: uint32, index: uint32): Address {
    (base + Offset(index, handleSize)) % ADDRESS_LIMIT
  }

  /**
   * The slot index of a handle: the unsigned difference to the heap start, divided
   * by the increment size and truncated to a `UINT`.
   */
  function Decode(base: Address, handleSize: uint32, handle: Address): uint32
    requires handleSize > 0
  {
    (((handle - base) % ADDRESS_LIMIT) / handleSize) % UINT32_LIMIT
  }

  /**
   * The heap's slots are addressable without any wrap-around: every slot offset fits in
   * a `UINT` and the heap ends inside the 64-bit address space.
   */
  predicate HeapFits(base: Address, handleSize: uint32, capacity: uint32) {
    capacity * handleSize <= UINT32_LIMIT && base + capacity * handleSize <= ADDRESS_LIMIT
  }

  lemma MulStrictlyIncreasing(i: int, n: int, size: int)
    requires 0 <= i < n && size > 0
    ensures 0 <= i * size < n * size
  {
    assert (n - i) * size > 0;
  }

  /** Inside a heap that fits, a slot's handle is exactly `base + index * handleSize`. */
  lemma EncodeInHeap(base: Address, handleSize: uint32, capacity: uint32, index: uint32)
    requires handleSize > 0 && HeapFits(base, handleSize, capacity) && index < capacity
    ensures Offset(index, handleSize) == index * handleSize
    ensures Encode(base, handleSize, index) == base + index * handleSize
    ensures Encode(base, handleSize, index) + handleSize <= base + capacity * handleSize
  {
    MulStrictlyIncreasing(index, capacity, handleSize);
    assert (index + 1) * handleSize <= capacity * handleSize by {
      if index + 1 < capacity {
        MulStrictlyIncreasing(index + 1, capacity, handleSize);
      }
    }
  }

  lemma DivideExact(q: int, d: int)
    requires q >= 0 && d > 0
    ensures (q * d) / d == q
  {
    var r, m := (q * d) / d, (q * d) % d;
    assert q * d == r * d + m && 0 <= m < d;
    assert (q - r) * d == m;
    if q - r >= 1 {
      assert false;
    } else if q - r <= -1 {
      assert false;
    }
  }

  /** Decoding the handle of a slot gives back that slot's index. */
  lemma DecodeEncode(base: Address, handleSize: uint32, capacity: uint32, index: uint32)
    requires handleSize > 0 && HeapFits(base, handleSize, capacity) && index < capacity
    ensures Decode(base, handleSize, Encode(base, handleSize, index)) == index
  {
    EncodeInHeap(base, handleSize, capacity, index);
    var offset := index * handleSize;
    assert (Encode(base, handleSize, index) - base) % ADDRESS_LIMIT == offset;
    DivideExact(index, handleSize);
  }

  /** Distinct slots of a heap that fits have distinct handles. */
  lemma EncodeInjective(base: Address, handleSize: uint32, capacity: uint32, i: uint32, j: uint32)
    requires handleSize > 0 && HeapFits(base, handleSize, capacity)
    requires i < capacity && j < capacity && i != j
    ensures Encode(base, handleSize, i) != Encode(base, handleSize, j)
  {
    DecodeEncode(base, handleSize, capacity, i);
    DecodeEncode(base, handleSize, capacity, j);
  }

  /**
   * The free list as the constructor builds it: `[hi - 1, ..., lo + 1, lo]`,
   * so that `lo` is on top of the stack (the end of the vector).
   */
  function CountDown(lo: uint32, hi: uint32): seq<uint32>
    decreases hi - lo
  {
    if lo >= hi then [] else CountDown(lo + 1, hi) + [lo]
  }

  /** `CountDown(lo, hi)` holds `hi - lo` entries, counting down from `hi - 1` to `lo`. */
  lemma {:induction false} CountDownAt(lo: uint32, hi: uint32)
    ensures |CountDown(lo, hi)| == if lo < hi then hi - lo else 0
    ensures forall k :: 0 <= k < |CountDown(lo, hi)| ==> CountDown(lo, hi)[k] == hi - 1 - k
    decreases hi - lo
  {
    if lo < hi {
      CountDownAt(lo + 1, hi);
    }
  }

  /** Each index of `lo..hi-1` appears in `CountDown(lo, hi)` exactly once, and nothing else does. */
  lemma CountDownIsSlotRange(lo: uint32, hi: uint32)
    ensures forall x: uint32 :: x in CountDown(lo, hi) <==> lo <= x < hi
    ensures Distinct(CountDown(lo, hi))
  {
    CountDownAt(lo, hi);
    var s := CountDown(lo, hi);
    forall x: uint32 | lo <= x < hi ensures x in s {
      assert s[hi - 1 - x] == x;
    }
  }

  /** Popping the top of `CountDown(lo, hi)` yields `lo` and leaves `CountDown(lo + 1, hi)`. */
  lemma CountDownPop(lo: uint32, hi: uint32)
    requires lo < hi
    ensures CountDown(lo, hi) != []
    ensures CountDown(lo, hi)[|CountDown(lo, hi)| - 1] == lo
    ensures CountDown(lo, hi)[..|CountDown(lo, hi)| - 1] == CountDown(lo + 1, hi)
  {
  }

  /** No index occurs twice. */
  predicate Distinct(s: seq<uint32>) {
    forall i, j :: 0 <= i < j < |s| ==> s[i] != s[j]
  }

  /** The indices a sequence holds. */
  ghost function Elements(s: seq<uint32>): set<uint32> {
    set x | x in s
  }

  /** A duplicate-free sequence has as many distinct elements as entries. */
  lemma {:induction false} DistinctCardinality(s: seq<uint32>)
    requires Distinct(s)
    ensures |Elements(s)| == |s|
  {
    if s != [] {
      var init, last := s[..|s| - 1], s[|s| - 1];
      assert Distinct(init);
      DistinctCardinality(init);
      assert last !in Elements(init);
      assert Elements(s) == Elements(init) + {last};
    }
  }

  /** Appending an index that is already present makes a sequence lose `Distinct`. */
  lemma PushDuplicate(s: seq<uint32>, x: uint32)
    requires x in s
    ensures !Distinct(s + [x])
  {
    var i :| 0 <= i < |s| && s[i] == x;
    assert (s + [x])[i] == (s + [x])[|s|];
  }

  class DescriptorHeapAllocator {
    const cpuBase: Address      // d3dCPUHandle: CPU address of the heap's first descriptor
    const gpuBase: Address      // d3dGPUHandle: GPU address of the heap's first descriptor
    const handleSize: uint32    // d3dHandleSize: the descriptor increment size
    const capacity: uint32      // numDescriptors
    var freeIndices: seq<uint32>

    /** `Free` divides by the increment size, which the device never reports as 0. */
    predicate Valid()
      reads this
    {
      handleSize > 0
    }

    /** Both views of the heap are addressable without wrap-around. */
    predicate Fits()
      reads this
    {
      HeapFits(cpuBase, handleSize, capacity) && HeapFits(gpuBase, handleSize, capacity)
    }

    /** The free list names only slots of the heap, each at most once. */
    predicate Sound()
      reads this
    {
      (forall i :: 0 <= i < |freeIndices| ==> freeIndices[i] < capacity) && Distinct(freeIndices)
    }

    /** The slots currently handed out: those of the heap that are not on the free list. */
    ghost function Outstanding(): set<uint32>
      reads this
    {
      set x: uint32 | 0 <= x < capacity && x !in freeIndices
    }

    /** The index the next `Alloc` hands out. */
    function Top(): uint32
      reads this
      requires freeIndices != []
    {
      freeIndices[|freeIndices| - 1]
    }

    constructor (cpuHeapStart: Address, gpuHeapStart: Address, incrementSize: uint32, numDescriptors: uint32)
      requires incrementSize > 0
      ensures Valid() && Sound()
      ensures cpuBase == cpuHeapStart && gpuBase == gpuHeapStart
      ensures handleSize == incrementSize && capacity == numDescriptors
      ensures freeIndices == CountDown(0, numDescriptors)
      ensures Outstanding() == {}
    {
      cpuBase, gpuBase := cpuHeapStart, gpuHeapStart;
      handleSize, capacity := incrementSize, numDescriptors;
      freeIndices := [];
      new;
      var n: uint32 := numDescriptors;
      while n > 0
        invariant freeIndices == CountDown(n, numDescriptors)
      {
        freeIndices := freeIndices + [n - 1];
        n := n - 1;
      }
      CountDownIsSlotRange(0, numDescriptors);
      CountDownAt(0, numDescriptors);
    }

    method Alloc() returns (cpuHandle: Address, gpuHandle: Address)
      requires Valid()
      requires freeIndices != []
      modifies this
      ensures Valid()
      ensures freeIndices == old(freeIndices[..|freeIndices| - 1])
      ensures cpuHandle == Encode(cpuBase, handleSize, old(Top()))
      ensures gpuHandle == Encode(gpuBase, handleSize, old(Top()))
      ensures old(Sound()) && Fits() ==> cpuHandle == cpuBase + old(Top()) * handleSize
      ensures old(Sound()) && Fits() ==> gpuHandle == gpuBase + old(Top()) * handleSize
      ensures old(Sound()) ==> Sound()
      ensures old(Sound()) ==> old(Top()) !in freeIndices
      ensures old(Sound()) ==> Outstanding() == old(Outstanding()) + {old(Top())}
      ensures old(Sound()) && Fits() ==>
        Decode(cpuBase, handleSize, cpuHandle) == old(Top()) == Decode(gpuBase, handleSize, gpuHandle)
    {
      var index := freeIndices[|freeIndices| - 1];
      freeIndices := freeIndices[..|freeIndices| - 1];
      cpuHandle := (cpuBase + (index * handleSize) % UINT32_LIMIT) % ADDRESS_LIMIT;
      gpuHandle := (gpuBase + (index * handleSize) % UINT32_LIMIT) % ADDRESS_LIMIT;
      if old(Sound()) {
        assert old(freeIndices) == freeIndices + [index];
      }
      if old(Sound()) && Fits() {
        DecodeEncode(cpuBase, handleSize, capacity, index);
        DecodeEncode(gpuBase, handleSize, capacity, index);
        EncodeInHeap(cpuBase, handleSize, capacity, index);
        EncodeInHeap(gpuBase, handleSize, capacity, index);
      }
    }

    method Free(cpuHandle: Address, gpuHandle: Address)
      requires Valid()
      requires Decode(cpuBase, handleSize, cpuHandle) == Decode(gpuBase, handleSize, gpuHandle)
      modifies this
      ensures Valid()
      ensures freeIndices == old(freeIndices) + [Decode(cpuBase, handleSize, cpuHandle)]
      ensures var index := Decode(cpuBase, handleSize, cpuHandle);
        old(Sound()) && index in old(Outstanding()) ==> Sound() && Outstanding() == old(Outstanding()) - {index}
      ensures Decode(cpuBase, handleSize, cpuHandle) in old(freeIndices) ==> !Sound()
    {
      var cpuIndex := (((cpuHandle - cpuBase) % ADDRESS_LIMIT) / handleSize) % UINT32_LIMIT;
      var gpuIndex := (((gpuHandle - gpuBase) % ADDRESS_LIMIT) / handleSize) % UINT32_LIMIT;
      assert cpuIndex == gpuIndex;
      freeIndices := freeIndices + [cpuIndex];
      if cpuIndex in old(freeIndices) {
        PushDuplicate(old(freeIndices), cpuIndex);
      }
    }

    /**
     * While the free list is sound, the free and the outstanding slots partition the
     * heap, so at most `capacity` descriptors are ever handed out at once.
     */
    lemma OutstandingBound()
      requires Sound()
      ensures forall x: uint32 :: x < capacity ==> (x in freeIndices <==> x !in Outstanding())
      ensures |Outstanding()| == capacity - |freeIndices|
      ensures |Outstanding()| <= capacity
    {
      var free := Elements(freeIndices);
      var slots := Elements(CountDown(0, capacity));
      CountDownIsSlotRange(0, capacity);
      CountDownAt(0, capacity);
      DistinctCardinality(CountDown(0, capacity));
      DistinctCardinality(freeIndices);
      assert free <= slots;
      assert Outstanding() == slots - free;
      assert slots == (slots - free) + free;
      assert |slots| == |slots - free| + |free|;
    }
  }

  /**
   * The allocator both Direct3D 12 backends create for ImGui's shader resource views:
   * a heap of 64 descriptors, all free, slot 0 on top.
   */
  method CreateImGuiHeapAllocator(cpuHeapStart: Address, gpuHeapStart: Address, incrementSize: uint32)
    returns (allocator: DescriptorHeapAllocator)
    requires incrementSize > 0
    ensures fresh(allocator) && allocator.Valid() && allocator.Sound()
    ensures allocator.capacity == IMGUI_DESCRIPTOR_COUNT
    ensures allocator.freeIndices == CountDown(0, IMGUI_DESCRIPTOR_COUNT)
    ensures |allocator.freeIndices| == 64 && allocator.Top() == 0
  {
    allocator := new DescriptorHeapAllocator(cpuHeapStart, gpuHeapStart, incrementSize, IMGUI_DESCRIPTOR_COUNT);
    CountDownAt(0, IMGUI_DESCRIPTOR_COUNT);
  }

  /**
   * On a fresh allocator, `k` successive allocations return the handles of slots
   * `0, 1, ..., k - 1`, in that order.
   */
  method FreshAllocationOrder(cpuHeapStart: Address, gpuHeapStart: Address, incrementSize: uint32,
                              numDescriptors: uint32, k: nat)
    returns (cpuHandles: seq<Address>, gpuHandles: seq<Address>)
    requires incrementSize > 0
    requires HeapFits(cpuHeapStart, incrementSize, numDescriptors)
    requires HeapFits(gpuHeapStart, incrementSize, numDescriptors)
    requires k <= numDescriptors
    ensures |cpuHandles| == |gpuHandles| == k
    ensures forall j :: 0 <= j < k ==> cpuHandles[j] == cpuHeapStart + j * incrementSize
    ensures forall j :: 0 <= j < k ==> gpuHandles[j] == gpuHeapStart + j * incrementSize
  {
    var allocator := new DescriptorHeapAllocator(cpuHeapStart, gpuHeapStart, incrementSize, numDescriptors);
    cpuHandles, gpuHandles := [], [];
    var j: uint32 := 0;
    while j < k
      invariant j <= k
      invariant allocator.Valid() && allocator.Fits()
      invariant allocator.cpuBase == cpuHeapStart && allocator.gpuBase == gpuHeapStart
      invariant allocator.handleSize == incrementSize && allocator.capacity == numDescriptors
      invariant allocator.freeIndices == CountDown(j, numDescriptors)
      invariant |cpuHandles| == |gpuHandles| == j
      invariant forall i :: 0 <= i < j ==> cpuHandles[i] == cpuHeapStart + i * incrementSize
      invariant forall i :: 0 <= i < j ==> gpuHandles[i] == gpuHeapStart + i * incrementSize
    {
      CountDownPop(j, numDescriptors);
      var cpu, gpu := allocator.Alloc();
      EncodeInHeap(cpuHeapStart, incrementSize, numDescriptors, j);
      EncodeInHeap(gpuHeapStart, incrementSize, numDescriptors, j);
      cpuHandles, gpuHandles := cpuHandles + [cpu], gpuHandles + [gpu];
      j := j + 1;
    }
  }

  /**
   * An `Alloc` followed by a `Free` of the pair it returned passes the LLGL_VERIFY check of
   * `Free` and restores the free list to what it was.
   */
  method AllocThenFree(allocator: DescriptorHeapAllocator) returns (cpuHandle: Address, gpuHandle: Address)
    requires allocator.Valid() && allocator.Fits() && allocator.Sound() && allocator.freeIndices != []
    modifies allocator
    ensures allocator.Valid() && allocator.Sound()
    ensures allocator.freeIndices == old(allocator.freeIndices)
    ensures cpuHandle == Encode(allocator.cpuBase, allocator.handleSize, old(allocator.Top()))
    ensures gpuHandle == Encode(allocator.gpuBase, allocator.handleSize, old(allocator.Top()))
  {
    cpuHandle, gpuHandle := allocator.Alloc();
    allocator.Free(cpuHandle, gpuHandle);
  }

  /**
   * Freeing the handle pair of an outstanding slot and allocating again returns the same
   * pair (the free list is a stack) and leaves the free list as it was.
   */
  method FreeThenAlloc(allocator: DescriptorHeapAllocator, index: uint32) returns (cpuHandle: Address, gpuHandle: Address)
    requires allocator.Valid() && allocator.Fits() && allocator.Sound() && index in allocator.Outstanding()
    modifies allocator
    ensures allocator.Valid() && allocator.Sound()
    ensures allocator.freeIndices == old(allocator.freeIndices)
    ensures cpuHandle == Encode(allocator.cpuBase, allocator.handleSize, index)
    ensures gpuHandle == Encode(allocator.gpuBase, allocator.handleSize, index)
  {
    var cpu := Encode(allocator.cpuBase, allocator.handleSize, index);
    var gpu := Encode(allocator.gpuBase, allocator.handleSize, index);
    DecodeEncode(allocator.cpuBase, allocator.handleSize, allocator.capacity, index);
    DecodeEncode(allocator.gpuBase, allocator.handleSize, allocator.capacity, index);
    allocator.Free(cpu, gpu);
    cpuHandle, gpuHandle := allocator.Alloc();
  }
}
