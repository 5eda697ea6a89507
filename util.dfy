/**
 * The memory-type search of the ash backend (`vulkan::util`): given the
 * memory-type bits a resource accepts and the property flags of the
 * physical device's memory types, the first acceptable type whose flags
 * contain the requested ones.
 *
 * A `u32` bit mask is a `nat` below 2^32; shifting it right one place is
 * halving it. A set of memory property flags is a `set` of flag names.
 */
module VulkanUtil {
  import opened Outcomes

  /** `VK_MAX_MEMORY_TYPES`: the length of `memory_types` in `PhysicalDeviceMemoryProperties`. */
  const MaxMemoryTypes: nat := 32

  const U32Limit: nat := 0x1_0000_0000

  /** The bits of `VkMemoryPropertyFlags`. */
  datatype MemoryProperty = DeviceLocal | HostVisible | HostCoherent | HostCached | LazilyAllocated

  type MemoryPropertyFlags = set<MemoryProperty>

  /** `mask` shifted right one place `n` times, as the loop shifts its copy of the type bits. */
  function Shifted(mask: nat, n: nat): (r: nat)
    ensures r <= mask
  {
    if n == 0 then mask else Shifted(mask, n - 1) / 2
  }

  /** Bit `i` of a bit mask: the low bit after `i` single shifts. */
  predicate BitSet(mask: nat, i: nat)
  {
    Shifted(mask, i) % 2 == 1
  }

  /** ash's `flags.subset(other)`: `flags` holds every flag of `other`. */
  predicate Contains(flags: MemoryPropertyFlags, other: MemoryPropertyFlags)
  {
    other <= flags
  }

  /** Memory type `i` is acceptable to the resource and has every requested property. */
  predicate Qualifies(memoryTypeBits: nat, memoryTypes: seq<MemoryPropertyFlags>, flags: MemoryPropertyFlags, i: nat)
    requires i < |memoryTypes|
  {
    BitSet(memoryTypeBits, i) && Contains(memoryTypes[i], flags)
  }

  /** The first memory type from index `from` on that qualifies: the reference the search is proved against. */
  function FirstQualifying(memoryTypeBits: nat, memoryTypes: seq<MemoryPropertyFlags>, flags: MemoryPropertyFlags, from: nat): (r: Option<nat>)
    requires from <= |memoryTypes|
    ensures r.Some? ==> from <= r.value < |memoryTypes| && Qualifies(memoryTypeBits, memoryTypes, flags, r.value)
    ensures r.Some? ==> forall j :: from <= j < r.value ==> !Qualifies(memoryTypeBits, memoryTypes, flags, j)
    ensures r.None? <==> forall j :: from <= j < |memoryTypes| ==> !Qualifies(memoryTypeBits, memoryTypes, flags, j)
    decreases |memoryTypes| - from
  {
    if from == |memoryTypes| then None
    else if Qualifies(memoryTypeBits, memoryTypes, flags, from) then Some(from)
    else FirstQualifying(memoryTypeBits, memoryTypes, flags, from + 1)
  }

  /** Two answers that are both the first qualifying index agree. */
  lemma FirstQualifyingUnique(memoryTypeBits: nat, memoryTypes: seq<MemoryPropertyFlags>, flags: MemoryPropertyFlags, r: Option<nat>)
    requires r.Some? ==> r.value < |memoryTypes| && Qualifies(memoryTypeBits, memoryTypes, flags, r.value)
    requires r.Some? ==> forall j :: 0 <= j < r.value ==> !Qualifies(memoryTypeBits, memoryTypes, flags, j)
    requires r.None? <==> forall j :: 0 <= j < |memoryTypes| ==> !Qualifies(memoryTypeBits, memoryTypes, flags, j)
    ensures r == FirstQualifying(memoryTypeBits, memoryTypes, flags, 0)
  {
  }

  /**
   * `find_memory_type_index`. `memoryTypes[i]` is the `property_flags` of
   * entry `i`; all 32 entries are visited, whatever `memory_type_count` says.
   * `None` stands for the `unimplemented!` panic when no entry qualifies.
   */
  method FindMemoryTypeIndex(memoryTypeBits: nat, memoryTypes: seq<MemoryPropertyFlags>, flags: MemoryPropertyFlags)
    returns (r: Option<nat>)
    requires memoryTypeBits < U32Limit
    requires |memoryTypes| == MaxMemoryTypes
    ensures r.Some? ==> r.value < |memoryTypes| && Qualifies(memoryTypeBits, memoryTypes, flags, r.value)
    ensures r.Some? ==> forall j :: 0 <= j < r.value ==> !Qualifies(memoryTypeBits, memoryTypes, flags, j)
    ensures r.None? <==> forall j :: 0 <= j < |memoryTypes| ==> !Qualifies(memoryTypeBits, memoryTypes, flags, j)
    ensures r == FirstQualifying(memoryTypeBits, memoryTypes, flags, 0)
  {
    var bits := memoryTypeBits;
    var index := 0;
    while index < |memoryTypes|
      invariant 0 <= index <= |memoryTypes|
      invariant bits == Shifted(memoryTypeBits, index)
      invariant forall j :: 0 <= j < index ==> !Qualifies(memoryTypeBits, memoryTypes, flags, j)
    {
      if bits % 2 == 1 && Contains(memoryTypes[index], flags) {
        assert Qualifies(memoryTypeBits, memoryTypes, flags, index);
        FirstQualifyingUnique(memoryTypeBits, memoryTypes, flags, Some(index));
        return Some(index);
      }
      bits := bits / 2;
      index := index + 1;
    }
    FirstQualifyingUnique(memoryTypeBits, memoryTypes, flags, None);
    return None;
  }

  /** The mask with only bit `i` set. */
  function Pow2(i: nat): (r: nat)
    ensures r >= 1
  {
    if i == 0 then 1 else 2 * Pow2(i - 1)
  }

  /** A bit mask `2^k` shifted right `n <= k` places is `2^(k - n)`. */
  lemma {:induction false} ShiftedPow2(k: nat, n: nat)
    requires n <= k
    ensures Shifted(Pow2(k), n) == Pow2(k - n)
  {
    if n > 0 {
      ShiftedPow2(k, n - 1);
      assert Pow2(k - n + 1) == 2 * Pow2(k - n);
    }
  }

  /** Bit `i` of the mask `2^i` is set: a resource that accepts only type `i` is offered type `i`. */
  lemma SingleBitSet(i: nat)
    ensures BitSet(Pow2(i), i)
  {
    ShiftedPow2(i, i);
  }
}
