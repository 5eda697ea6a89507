/**
 * `vulkan::Buffer<T>` (`src/graphics/vulkan/buffer.rs`): a device buffer
 * with its bound memory, holding `count` elements of `T` that are copied in
 * through mapped memory, reallocated when the element count changes.
 *
 * The device is a handle allocator plus the log of the calls that took
 * effect on it: every call that returned success, and the calls that return
 * nothing (unmap, free, destroy). A call that fails is not logged. What each
 * fallible Vulkan call returns is given by an oracle. A call that fails with
 * an error is `Failed`; the `unimplemented!` of the memory-type search is
 * `Panicked`.
 */
module VulkanBuffer {
  import opened Outcomes
  import opened Errors
  import opened VulkanUtil

  /** `vk::MemoryRequirements`: the allocation size and the memory types the buffer accepts. */
  datatype MemoryRequirements = MemoryRequirements(size: nat, memoryTypeBits: nat)

  /** The device calls the buffer code makes, by the handles they name. */
  datatype DeviceCall =
    | CreateBuffer(buffer: nat, size: nat, usage: nat)
    | AllocateMemory(memory: nat, size: nat, typeIndex: nat)
    | BindBufferMemory(buffer: nat, memory: nat)
    | FreeMemory(memory: nat)
    | DestroyBuffer(buffer: nat)
    | MapMemory(memory: nat, size: nat)
    | UnmapMemory(memory: nat)
    | FlushRange(memory: nat, size: nat)
    | InvalidateRange(memory: nat, size: nat)

  datatype Failure = Failed(error: GameError) | Panicked

  /** The next unused handle and the calls made so far. */
  datatype DeviceState = DeviceState(nextHandle: nat, log: seq<DeviceCall>)

  /**
   * What the calls of `create_buffer` return: an error from `create_buffer`,
   * the requirements reported for the new buffer, an error from
   * `allocate_memory`, an error from `bind_buffer_memory` (`None` = success).
   */
  datatype CreateOracle = CreateOracle(
    createBuffer: Option<GameError>,
    requirements: MemoryRequirements,
    allocate: Option<GameError>,
    bind: Option<GameError>)

  /** The triple `create_buffer` returns. */
  datatype Allocation = Allocation(buffer: nat, requirements: MemoryRequirements, memory: nat)

  /** The result of one step on the device. */
  datatype Created = Created(device: DeviceState, result: Result<Allocation, Failure>)

  /**
   * The free function `create_buffer`: create the buffer, search a memory
   * type for its requirements with the requested properties, allocate that
   * memory and bind it. Each `?` returns early, leaving what was created so far.
   */
  function CreateSpec(dev: DeviceState, memoryTypes: seq<MemoryPropertyFlags>, size: nat, usage: nat,
                      props: MemoryPropertyFlags, o: CreateOracle): (c: Created)
    requires |memoryTypes| == MaxMemoryTypes
    ensures c.device.nextHandle >= dev.nextHandle && dev.log <= c.device.log
    ensures forall call :: call in c.device.log[|dev.log|..] ==> call.CreateBuffer? || call.AllocateMemory? || call.BindBufferMemory?
    ensures c.result.Ok? ==> dev.nextHandle <= c.result.value.buffer < c.result.value.memory < c.device.nextHandle
    ensures c.result.Ok? ==> c.result.value.requirements == o.requirements
    ensures c.result.Ok? <==> o.createBuffer.None? && o.allocate.None? && o.bind.None?
                              && FirstQualifying(o.requirements.memoryTypeBits, memoryTypes, props, 0).Some?
  {
    if o.createBuffer.Some? then Created(dev, Err(Failed(o.createBuffer.value)))
    else
      var buffer := dev.nextHandle;
      var dev1 := DeviceState(buffer + 1, dev.log + [CreateBuffer(buffer, size, usage)]);
      var typeIndex := FirstQualifying(o.requirements.memoryTypeBits, memoryTypes, props, 0);
      if typeIndex.None? then Created(dev1, Err(Panicked))
      else if o.allocate.Some? then Created(dev1, Err(Failed(o.allocate.value)))
      else
        var memory := dev1.nextHandle;
        var dev2 := DeviceState(memory + 1, dev1.log + [AllocateMemory(memory, o.requirements.size, typeIndex.value)]);
        if o.bind.Some? then Created(dev2, Err(Failed(o.bind.value)))
        else Created(dev2.(log := dev2.log + [BindBufferMemory(buffer, memory)]), Ok(Allocation(buffer, o.requirements, memory)))
  }

  /** The fields of a `Buffer<T>` that `update` changes, and the contents of its memory. */
  datatype BufferState<T> = BufferState(buffer: nat, memory: nat, requirements: MemoryRequirements, count: nat, contents: seq<T>)

  /** `PartialEq for Buffer<T>`: same buffer handle, same memory handle, same count. */
  predicate SameBuffer<T>(a: BufferState<T>, b: BufferState<T>)
  {
    a.buffer == b.buffer && a.memory == b.memory && a.count == b.count
  }

  /**
   * What the calls of `update` return: the creation oracle for a
   * reallocation, and errors from `map_memory`, `flush_mapped_memory_ranges`
   * and `invalidate_mapped_memory_ranges`.
   */
  datatype UpdateOracle = UpdateOracle(create: CreateOracle, mapping: Option<GameError>, flush: Option<GameError>, invalidate: Option<GameError>)

  datatype UpdateStep<T> = UpdateStep(state: BufferState<T>, device: DeviceState, result: Result<(), Failure>)

  /**
   * The flush and invalidate calls of a write to memory `m` of `z` bytes that
   * is not host-coherent, with the result: each `?` stops at the first
   * failing call.
   */
  function RangeCalls(m: nat, z: nat, o: UpdateOracle): (seq<DeviceCall>, Result<(), Failure>)
  {
    if o.flush.Some? then ([], Err(Failed(o.flush.value)))
    else if o.invalidate.Some? then ([FlushRange(m, z)], Err(Failed(o.invalidate.value)))
    else ([FlushRange(m, z), InvalidateRange(m, z)], Ok(()))
  }

  /**
   * The part of `update` after any reallocation, in the corrected order (see
   * `WriteAsWritten` for the source's): set the count, map the memory and
   * copy `data` in, flush and invalidate the mapped range unless the memory
   * is host-coherent, then unmap, on every path once the mapping succeeded.
   */
  function WriteSpec<T>(s: BufferState<T>, dev: DeviceState, props: MemoryPropertyFlags, data: seq<T>, o: UpdateOracle): (u: UpdateStep<T>)
    ensures u.state.buffer == s.buffer && u.state.memory == s.memory && u.state.requirements == s.requirements
    ensures u.state.count == |data| && u.device.nextHandle == dev.nextHandle && dev.log <= u.device.log
    ensures u.state.contents == if o.mapping.Some? then s.contents else data
  {
    var s1 := s.(count := |data|);
    if o.mapping.Some? then UpdateStep(s1, dev, Err(Failed(o.mapping.value)))
    else
      var m, z := s.memory, s.requirements.size;
      var ranges := if HostCoherent in props then ([], Ok(())) else RangeCalls(m, z, o);
      UpdateStep(s1.(contents := data), dev.(log := dev.log + [MapMemory(m, z)] + ranges.0 + [UnmapMemory(m)]), ranges.1)
  }

  /**
   * The write as `update` is written: the memory is unmapped right after the
   * copy, and only then is the range flushed and invalidated.
   */
  function WriteAsWritten<T>(s: BufferState<T>, dev: DeviceState, props: MemoryPropertyFlags, data: seq<T>, o: UpdateOracle): UpdateStep<T>
  {
    var s1 := s.(count := |data|);
    if o.mapping.Some? then UpdateStep(s1, dev, Err(Failed(o.mapping.value)))
    else
      var m, z := s.memory, s.requirements.size;
      var ranges := if HostCoherent in props then ([], Ok(())) else RangeCalls(m, z, o);
      UpdateStep(s1.(contents := data), dev.(log := dev.log + [MapMemory(m, z), UnmapMemory(m)] + ranges.0), ranges.1)
  }

  /** Memory `m` is mapped at position `i` of `calls`: an earlier call maps it and no call since unmaps it. */
  predicate MappedAt(calls: seq<DeviceCall>, i: nat, m: nat)
  {
    exists j :: 0 <= j < i && j < |calls| && calls[j].MapMemory? && calls[j].memory == m
                && forall l :: j < l < i && l < |calls| ==> calls[l] != UnmapMemory(m)
  }

  /**
   * The host-access rules of the Vulkan specification for mapped memory
   * (`VkMappedMemoryRange`: the memory must be currently host mapped): every
   * flushed or invalidated range is in memory mapped at that point.
   */
  predicate RangesWhileMapped(calls: seq<DeviceCall>)
  {
    forall i :: 0 <= i < |calls| && (calls[i].FlushRange? || calls[i].InvalidateRange?) ==> MappedAt(calls, i, calls[i].memory)
  }

  /** Every mapping is undone later in the same calls. */
  predicate UnmapsWhatItMaps(calls: seq<DeviceCall>)
  {
    forall j :: 0 <= j < |calls| && calls[j].MapMemory? ==> UnmapMemory(calls[j].memory) in calls[j + 1..]
  }

  /**
   * As written, a write to memory that is not host-coherent flushes a range
   * of memory it has already unmapped.
   */
  lemma AsWrittenFlushesAfterUnmap<T>(s: BufferState<T>, dev: DeviceState, props: MemoryPropertyFlags, data: seq<T>, o: UpdateOracle)
    requires HostCoherent !in props
    requires o.mapping.None? && o.flush.None?
    ensures var calls := NewCalls(dev, WriteAsWritten(s, dev, props, data, o).device);
      calls[..3] == [MapMemory(s.memory, s.requirements.size), UnmapMemory(s.memory), FlushRange(s.memory, s.requirements.size)]
      && !RangesWhileMapped(calls)
  {
    var m, z := s.memory, s.requirements.size;
    var calls := NewCalls(dev, WriteAsWritten(s, dev, props, data, o).device);
    assert calls == [MapMemory(m, z), UnmapMemory(m)] + RangeCalls(m, z, o).0;
    assert calls[2] == FlushRange(m, z);
    assert !MappedAt(calls, 2, m) by {
      forall j | 0 <= j < 2 && calls[j].MapMemory? && calls[j].memory == m
        ensures exists l :: j < l < 2 && calls[l] == UnmapMemory(m)
      {
        assert calls[1] == UnmapMemory(m);
      }
    }
  }

  /**
   * In the corrected write, every flushed or invalidated range is in memory
   * that is mapped at that point, and the mapping is always undone.
   */
  lemma WriteMapsAroundRanges<T>(s: BufferState<T>, dev: DeviceState, props: MemoryPropertyFlags, data: seq<T>, o: UpdateOracle)
    ensures var calls := NewCalls(dev, WriteSpec(s, dev, props, data, o).device);
      RangesWhileMapped(calls) && UnmapsWhatItMaps(calls)
  {
    var m, z := s.memory, s.requirements.size;
    var calls := NewCalls(dev, WriteSpec(s, dev, props, data, o).device);
    if o.mapping.None? {
      var ranges := if HostCoherent in props then [] else RangeCalls(m, z, o).0;
      assert calls == [MapMemory(m, z)] + ranges + [UnmapMemory(m)];
      assert forall c :: c in ranges ==> c == FlushRange(m, z) || c == InvalidateRange(m, z);
      forall i | 0 <= i < |calls| && (calls[i].FlushRange? || calls[i].InvalidateRange?)
        ensures MappedAt(calls, i, calls[i].memory)
      {
        assert calls[i] in ranges;
        assert calls[0] == MapMemory(m, z);
      }
      forall j | 0 <= j < |calls| && calls[j].MapMemory?
        ensures UnmapMemory(calls[j].memory) in calls[j + 1..]
      {
        assert j == 0;
        assert calls[|calls| - 1] == UnmapMemory(m);
      }
    } else {
      assert calls == [];
    }
  }

  /**
   * `Buffer::update(data)`: when the element count changes, free the memory
   * and destroy the buffer, then create new ones of `|data| * elementSize`
   * bytes (an early return on failure keeps the freed handles in the
   * struct); then write the data.
   */
  function UpdateSpec<T>(s: BufferState<T>, dev: DeviceState, memoryTypes: seq<MemoryPropertyFlags>, usage: nat,
                         props: MemoryPropertyFlags, elementSize: nat, data: seq<T>, o: UpdateOracle): (u: UpdateStep<T>)
    requires |memoryTypes| == MaxMemoryTypes
    ensures dev.log <= u.device.log && dev.nextHandle <= u.device.nextHandle
  {
    if |data| == s.count then WriteSpec(s, dev, props, data, o)
    else
      var freed := dev.(log := dev.log + [FreeMemory(s.memory), DestroyBuffer(s.buffer)]);
      var created := CreateSpec(freed, memoryTypes, |data| * elementSize, usage, props, o.create);
      if created.result.Err? then UpdateStep(s, created.device, Err(created.result.error))
      else
        var a := created.result.value;
        WriteSpec(s.(buffer := a.buffer, requirements := a.requirements, memory := a.memory), created.device, props, data, o)
  }

  /** The calls an update made: the log it produced minus the log it started from. */
  function NewCalls(before: DeviceState, after: DeviceState): seq<DeviceCall>
    requires before.log <= after.log
  {
    after.log[|before.log|..]
  }

  // ---------------------------------------------------------------------
  // Properties of update
  // ---------------------------------------------------------------------

  /** A successful update leaves `count == |data|` and the memory holding exactly `data`. */
  lemma UpdateStoresData<T>(s: BufferState<T>, dev: DeviceState, memoryTypes: seq<MemoryPropertyFlags>, usage: nat,
                            props: MemoryPropertyFlags, elementSize: nat, data: seq<T>, o: UpdateOracle)
    requires |memoryTypes| == MaxMemoryTypes
    ensures var u := UpdateSpec(s, dev, memoryTypes, usage, props, elementSize, data, o);
      u.result.Ok? ==> u.state.count == |data| && u.state.contents == data
  {
  }

  /**
   * An update of the same length keeps the buffer, the memory and the
   * requirements, makes no allocation or release, and leaves a buffer equal
   * to the old one under `PartialEq` even though the contents changed.
   */
  lemma SameLengthUpdateKeepsAllocation<T>(s: BufferState<T>, dev: DeviceState, memoryTypes: seq<MemoryPropertyFlags>, usage: nat,
                                           props: MemoryPropertyFlags, elementSize: nat, data: seq<T>, o: UpdateOracle)
    requires |memoryTypes| == MaxMemoryTypes
    requires |data| == s.count
    ensures var u := UpdateSpec(s, dev, memoryTypes, usage, props, elementSize, data, o);
      && u.state.buffer == s.buffer && u.state.memory == s.memory && u.state.requirements == s.requirements
      && SameBuffer(u.state, s)
      && u.device.nextHandle == dev.nextHandle
      && forall c :: c in NewCalls(dev, u.device) ==> c.MapMemory? || c.UnmapMemory? || c.FlushRange? || c.InvalidateRange?
  {
    var u := UpdateSpec(s, dev, memoryTypes, usage, props, elementSize, data, o);
    var calls := NewCalls(dev, u.device);
    if o.mapping.None? {
      var m, z := s.memory, s.requirements.size;
      var ranges := if HostCoherent in props then [] else RangeCalls(m, z, o).0;
      assert calls == [MapMemory(m, z)] + ranges + [UnmapMemory(m)];
      assert forall c :: c in ranges ==> c == FlushRange(m, z) || c == InvalidateRange(m, z);
    } else {
      assert calls == [];
    }
  }

  /**
   * An update that changes the length first frees the old memory and
   * destroys the old buffer. If it then succeeds, the buffer and memory are
   * new handles, distinct from every handle issued before, and count and
   * contents are the new data.
   */
  lemma ResizingUpdateReallocates<T>(s: BufferState<T>, dev: DeviceState, memoryTypes: seq<MemoryPropertyFlags>, usage: nat,
                                     props: MemoryPropertyFlags, elementSize: nat, data: seq<T>, o: UpdateOracle)
    requires |memoryTypes| == MaxMemoryTypes
    requires |data| != s.count
    requires s.buffer < dev.nextHandle && s.memory < dev.nextHandle
    ensures var u := UpdateSpec(s, dev, memoryTypes, usage, props, elementSize, data, o);
      && dev.log + [FreeMemory(s.memory), DestroyBuffer(s.buffer)] <= u.device.log
      && (u.result.Ok? ==>
            && dev.nextHandle <= u.state.buffer && dev.nextHandle <= u.state.memory
            && u.state.buffer != s.buffer && u.state.memory != s.memory && !SameBuffer(u.state, s)
            && u.state.count == |data| && u.state.contents == data)
  {
    var freed := dev.(log := dev.log + [FreeMemory(s.memory), DestroyBuffer(s.buffer)]);
    var created := CreateSpec(freed, memoryTypes, |data| * elementSize, usage, props, o.create);
    assert freed.log <= created.device.log;
  }

  /**
   * `PartialEq` after an update: a successfully updated buffer is `==` to
   * its old self exactly when the element count did not change, because a
   * new count always means new handles.
   */
  lemma UpdateKeepsEqualityIffSameLength<T>(s: BufferState<T>, dev: DeviceState, memoryTypes: seq<MemoryPropertyFlags>, usage: nat,
                                            props: MemoryPropertyFlags, elementSize: nat, data: seq<T>, o: UpdateOracle)
    requires |memoryTypes| == MaxMemoryTypes
    requires s.buffer < dev.nextHandle && s.memory < dev.nextHandle
    ensures var u := UpdateSpec(s, dev, memoryTypes, usage, props, elementSize, data, o);
      u.result.Ok? ==> (SameBuffer(u.state, s) <==> |data| == s.count)
  {
    if |data| == s.count {
      SameLengthUpdateKeepsAllocation(s, dev, memoryTypes, usage, props, elementSize, data, o);
    } else {
      ResizingUpdateReallocates(s, dev, memoryTypes, usage, props, elementSize, data, o);
    }
  }

  /**
   * When the new buffer cannot be created, `update` returns early and the
   * struct still names the buffer and memory it has just released, with the
   * old count.
   */
  lemma FailedReallocationKeepsFreedHandles<T>(s: BufferState<T>, dev: DeviceState, memoryTypes: seq<MemoryPropertyFlags>, usage: nat,
                                               props: MemoryPropertyFlags, elementSize: nat, data: seq<T>, o: UpdateOracle)
    requires |memoryTypes| == MaxMemoryTypes
    requires |data| != s.count
    requires o.create.createBuffer.Some?
    ensures var u := UpdateSpec(s, dev, memoryTypes, usage, props, elementSize, data, o);
      && u.state == s && u.result == Err(Failed(o.create.createBuffer.value))
      && u.device.log == dev.log + [FreeMemory(s.memory), DestroyBuffer(s.buffer)]
      && FreeMemory(u.state.memory) in u.device.log && DestroyBuffer(u.state.buffer) in u.device.log
  {
  }

  /** The calls of the write phase once the memory maps and every flush and invalidate succeeds. */
  lemma WriteCalls<T>(s: BufferState<T>, dev: DeviceState, props: MemoryPropertyFlags, data: seq<T>, o: UpdateOracle)
    requires o.mapping.None? && o.flush.None? && o.invalidate.None?
    ensures var m, z := s.memory, s.requirements.size;
      NewCalls(dev, WriteSpec(s, dev, props, data, o).device)
        == [MapMemory(m, z)] + (if HostCoherent in props then [] else [FlushRange(m, z), InvalidateRange(m, z)]) + [UnmapMemory(m)]
  {
    var m, z := s.memory, s.requirements.size;
    var tail := if HostCoherent in props then [] else [FlushRange(m, z), InvalidateRange(m, z)];
    assert WriteSpec(s, dev, props, data, o).device.log == dev.log + ([MapMemory(m, z)] + tail + [UnmapMemory(m)]);
  }

  /**
   * Once the memory is mapped, the range is flushed and invalidated exactly
   * when the memory properties lack `HOST_COHERENT`.
   */
  lemma FlushIffNotCoherent<T>(s: BufferState<T>, dev: DeviceState, memoryTypes: seq<MemoryPropertyFlags>, usage: nat,
                               props: MemoryPropertyFlags, elementSize: nat, data: seq<T>, o: UpdateOracle)
    requires |memoryTypes| == MaxMemoryTypes
    requires o.mapping.None? && o.flush.None? && o.invalidate.None?
    requires |data| == s.count || CreateSpec(dev.(log := dev.log + [FreeMemory(s.memory), DestroyBuffer(s.buffer)]),
                                             memoryTypes, |data| * elementSize, usage, props, o.create).result.Ok?
    ensures var u := UpdateSpec(s, dev, memoryTypes, usage, props, elementSize, data, o);
      && (FlushRange(u.state.memory, u.state.requirements.size) in NewCalls(dev, u.device) <==> HostCoherent !in props)
      && (InvalidateRange(u.state.memory, u.state.requirements.size) in NewCalls(dev, u.device) <==> HostCoherent !in props)
      && (HostCoherent in props ==> u.result.Ok?)
  {
    var u := UpdateSpec(s, dev, memoryTypes, usage, props, elementSize, data, o);
    if |data| == s.count {
      WriteCalls(s, dev, props, data, o);
    } else {
      var freed := dev.(log := dev.log + [FreeMemory(s.memory), DestroyBuffer(s.buffer)]);
      var created := CreateSpec(freed, memoryTypes, |data| * elementSize, usage, props, o.create);
      var a := created.result.value;
      var s1 := s.(buffer := a.buffer, requirements := a.requirements, memory := a.memory);
      WriteCalls(s1, created.device, props, data, o);
      var before := created.device.log[|dev.log|..];
      var after := NewCalls(created.device, u.device);
      assert NewCalls(dev, u.device) == before + after;
      assert before == [FreeMemory(s.memory), DestroyBuffer(s.buffer)] + created.device.log[|freed.log|..];
      assert forall call :: call in before ==> !call.FlushRange? && !call.InvalidateRange?;
    }
  }

  // ---------------------------------------------------------------------
  // The device and the buffer objects
  // ---------------------------------------------------------------------

  /** The logical device, with the memory types of its physical device. */
  class Device {
    const memoryTypes: seq<MemoryPropertyFlags>
    var nextHandle: nat
    var log: seq<DeviceCall>

    constructor (memoryTypes: seq<MemoryPropertyFlags>)
      requires |memoryTypes| == MaxMemoryTypes
      ensures this.memoryTypes == memoryTypes && nextHandle == 1 && log == []
    {
      this.memoryTypes := memoryTypes;
      nextHandle := 1;
      log := [];
    }

    function State(): DeviceState
      reads this
    {
      DeviceState(nextHandle, log)
    }

    /** Hands out the next unused handle. */
    method NewHandle() returns (handle: nat)
      modifies this
      ensures handle == old(nextHandle) && nextHandle == handle + 1 && log == old(log)
    {
      handle := nextHandle;
      nextHandle := nextHandle + 1;
    }

    method Record(calls: seq<DeviceCall>)
      modifies this
      ensures nextHandle == old(nextHandle) && log == old(log) + calls
    {
      log := log + calls;
    }
  }

  /** `create_buffer`, step by step, on a device object. */
  method CreateBufferOn(device: Device, size: nat, usage: nat, props: MemoryPropertyFlags, o: CreateOracle)
    returns (r: Result<Allocation, Failure>)
    requires |device.memoryTypes| == MaxMemoryTypes
    requires o.requirements.memoryTypeBits < VulkanUtil.U32Limit
    modifies device
    ensures Created(device.State(), r) == CreateSpec(old(device.State()), device.memoryTypes, size, usage, props, o)
  {
    if o.createBuffer.Some? {
      return Err(Failed(o.createBuffer.value));
    }
    var buffer := device.NewHandle();
    device.Record([CreateBuffer(buffer, size, usage)]);
    var typeIndex := FindMemoryTypeIndex(o.requirements.memoryTypeBits, device.memoryTypes, props);
    if typeIndex.None? {
      return Err(Panicked);
    }
    if o.allocate.Some? {
      return Err(Failed(o.allocate.value));
    }
    var memory := device.NewHandle();
    device.Record([AllocateMemory(memory, o.requirements.size, typeIndex.value)]);
    if o.bind.Some? {
      return Err(Failed(o.bind.value));
    }
    device.Record([BindBufferMemory(buffer, memory)]);
    r := Ok(Allocation(buffer, o.requirements, memory));
  }

  /** `Buffer<T>`: usage, memory properties and element size are fixed at creation. */
  class Buffer<T> {
    const device: Device
    const usage: nat
    const props: MemoryPropertyFlags
    const elementSize: nat
    var buffer: nat
    var memory: nat
    var requirements: MemoryRequirements
    var count: nat
    var contents: seq<T>

    constructor FromAllocation(device: Device, a: Allocation, usage: nat, props: MemoryPropertyFlags, elementSize: nat)
      ensures this.device == device && this.usage == usage && this.props == props && this.elementSize == elementSize
      ensures State() == BufferState(a.buffer, a.memory, a.requirements, 0, [])
    {
      this.device := device;
      this.usage := usage;
      this.props := props;
      this.elementSize := elementSize;
      buffer := a.buffer;
      memory := a.memory;
      requirements := a.requirements;
      count := 0;
      contents := [];
    }

    function State(): BufferState<T>
      reads this
    {
      BufferState(buffer, memory, requirements, count, contents)
    }

    /** `size()`: the allocation size in bytes. */
    function Size(): nat
      reads this
    {
      requirements.size
    }

    /** `count()`: the number of elements. */
    function Count(): nat
      reads this
    {
      count
    }

    /** `PartialEq::eq`. */
    function Equals(other: Buffer<T>): bool
      reads this, other
    {
      SameBuffer(State(), other.State())
    }

    /** `update`, on the objects. */
    method Update(data: seq<T>, o: UpdateOracle) returns (r: Result<(), Failure>)
      requires |device.memoryTypes| == MaxMemoryTypes
      requires o.create.requirements.memoryTypeBits < VulkanUtil.U32Limit
      requires device != this as object
      modifies this, device
      ensures UpdateStep(State(), device.State(), r)
              == UpdateSpec(old(State()), old(device.State()), device.memoryTypes, usage, props, elementSize, data, o)
      ensures r.Ok? ==> Count() == |data| && contents == data
      ensures r.Ok? ==> Size() == if |data| == old(count) then old(Size()) else o.create.requirements.size
    {
      if |data| != count {
        device.Record([FreeMemory(memory), DestroyBuffer(buffer)]);
        var created := CreateBufferOn(device, |data| * elementSize, usage, props, o.create);
        if created.Err? {
          return Err(created.error);
        }
        buffer := created.value.buffer;
        requirements := created.value.requirements;
        memory := created.value.memory;
      }
      count := |data|;
      if o.mapping.Some? {
        return Err(Failed(o.mapping.value));
      }
      contents := data;
      device.Record([MapMemory(memory, requirements.size)]);
      r := Ok(());
      if HostCoherent !in props {
        if o.flush.Some? {
          r := Err(Failed(o.flush.value));
        } else {
          device.Record([FlushRange(memory, requirements.size)]);
          if o.invalidate.Some? {
            r := Err(Failed(o.invalidate.value));
          } else {
            device.Record([InvalidateRange(memory, requirements.size)]);
          }
        }
      }
      device.Record([UnmapMemory(memory)]);
    }
  }

  /** `Buffer::empty`: a new allocation of `size` bytes holding no elements. */
  method Empty<T>(device: Device, size: nat, usage: nat, props: MemoryPropertyFlags, elementSize: nat, o: CreateOracle)
    returns (r: Result<Buffer<T>, Failure>)
    requires |device.memoryTypes| == MaxMemoryTypes
    requires o.requirements.memoryTypeBits < VulkanUtil.U32Limit
    modifies device
    ensures var c := CreateSpec(old(device.State()), device.memoryTypes, size, usage, props, o);
      && device.State() == c.device
      && (r.Ok? <==> c.result.Ok?)
      && (r.Err? ==> r.error == c.result.error)
      && (r.Ok? ==> fresh(r.value) && r.value.device == device && r.value.Count() == 0 && r.value.contents == []
                    && r.value.buffer == c.result.value.buffer && r.value.memory == c.result.value.memory
                    && r.value.usage == usage && r.value.props == props && r.value.elementSize == elementSize)
  {
    var created := CreateBufferOn(device, size, usage, props, o);
    if created.Err? {
      return Err(created.error);
    }
    var b := new Buffer.FromAllocation(device, created.value, usage, props, elementSize);
    return Ok(b);
  }

  /**
   * `Buffer::new(data)`: `empty` with the byte size of `data`, then `update`.
   * The empty buffer holds no element, so nonempty data is always written
   * to a second allocation and the first one is released.
   */
  method New<T>(device: Device, data: seq<T>, usage: nat, props: MemoryPropertyFlags, elementSize: nat,
                first: CreateOracle, o: UpdateOracle)
    returns (r: Result<Buffer<T>, Failure>)
    requires |device.memoryTypes| == MaxMemoryTypes
    requires first.requirements.memoryTypeBits < VulkanUtil.U32Limit
    requires o.create.requirements.memoryTypeBits < VulkanUtil.U32Limit
    modifies device
    ensures r.Ok? ==> fresh(r.value) && r.value.Count() == |data| && r.value.contents == data
    ensures var c := CreateSpec(old(device.State()), device.memoryTypes, |data| * elementSize, usage, props, first);
      r.Ok? && |data| > 0 ==>
        (c.result.Ok?
         && FreeMemory(c.result.value.memory) in device.log && DestroyBuffer(c.result.value.buffer) in device.log
         && r.value.buffer != c.result.value.buffer && r.value.memory != c.result.value.memory)
    ensures var c := CreateSpec(old(device.State()), device.memoryTypes, |data| * elementSize, usage, props, first);
      r.Ok? && |data| == 0 ==> c.result.Ok? && r.value.buffer == c.result.value.buffer && r.value.memory == c.result.value.memory
  {
    var empty := Empty<T>(device, |data| * elementSize, usage, props, elementSize, first);
    if empty.Err? {
      return Err(empty.error);
    }
    var b := empty.value;
    ghost var before := b.State();
    ghost var devBefore := device.State();
    var updated := b.Update(data, o);
    if updated.Err? {
      return Err(updated.error);
    }
    UpdateStoresData(before, devBefore, device.memoryTypes, usage, props, elementSize, data, o);
    if |data| > 0 {
      ResizingUpdateReallocates(before, devBefore, device.memoryTypes, usage, props, elementSize, data, o);
      assert FreeMemory(before.memory) in device.log by {
        assert (devBefore.log + [FreeMemory(before.memory), DestroyBuffer(before.buffer)])[|devBefore.log|] == FreeMemory(before.memory);
      }
      assert DestroyBuffer(before.buffer) in device.log by {
        assert (devBefore.log + [FreeMemory(before.memory), DestroyBuffer(before.buffer)])[|devBefore.log| + 1] == DestroyBuffer(before.buffer);
      }
    } else {
      SameLengthUpdateKeepsAllocation(before, devBefore, device.memoryTypes, usage, props, elementSize, data, o);
    }
    return Ok(b);
  }
}
