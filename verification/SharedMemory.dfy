/** Views into a block: sharing and copying parts of a memory. */
module SharedMemory {
  import opened Arithmetic

  type byte = bv8

  /** A memory is a window of a block. A shared memory refers to the root it was cut from. */
  datatype Memory = Memory(block: nat, parent: Option<Memory>, readOnly: bool, maxSize: nat, offset: nat, size: nat)

  function RootOf(m: Memory): Memory { if m.parent.Some? then m.parent.value else m }

  /** Memories are blocks from the allocator or shares, and the parent of a share is a root. */
  predicate Wellformed(m: Memory) {
    m.parent.Some? ==> m.parent.value.parent.None? && m.parent.value.block == m.block
  }

  /** _aja_memory_share. Without a size the share reaches to the end of m; the source computes
      that size with an unsigned subtraction. */
  function Shared(m: Memory, offset: int, size: Option<nat>): Memory
    requires m.offset + offset >= 0
  {
    var parent := RootOf(m);
    var length := if size.Some? then size.value else (m.size - offset) % TWO64;
    Memory(parent.block, Some(parent), true, m.maxSize, m.offset + offset, length)
  }

  /** The window lies inside its block. */
  predicate InBounds(heap: map<nat, seq<byte>>, m: Memory) {
    m.block in heap && m.offset + m.size <= |heap[m.block]|
  }

  function Bytes(heap: map<nat, seq<byte>>, m: Memory): seq<byte>
    requires InBounds(heap, m)
  {
    heap[m.block][m.offset..m.offset + m.size]
  }

  /** Without a size a copy reaches to the end of m, and is empty past it; the source compares with
      the offset as an unsigned number, so a negative offset counts as past the end. */
  function CopySize(m: Memory, offset: int, size: Option<nat>): nat {
    if size.Some? then size.value else if m.size > offset % TWO64 then m.size - offset % TWO64 else 0
  }

  /** The bytes that a copy reads lie inside the block. */
  predicate Copyable(heap: map<nat, seq<byte>>, m: Memory, offset: int, size: Option<nat>) {
    && m.block in heap && 0 <= m.offset + offset
    && m.offset + offset + CopySize(m, offset, size) <= |heap[m.block]|
  }

  /** copy holds, byte for byte, what lies at the summed offset. */
  ghost predicate IsCopy(copy: seq<byte>, heap: map<nat, seq<byte>>, m: Memory, offset: int, size: Option<nat>)
    requires Copyable(heap, m, offset, size)
  {
    && |copy| == CopySize(m, offset, size)
    && forall i :: 0 <= i < |copy| ==> copy[i] == heap[m.block][m.offset + offset + i]
  }

  /** _aja_memory_copy: the bytes of the new memory, which lives in ordinary system memory. They are
      the bytes of the corresponding share, whenever there is one inside m. */
  method Copy(heap: map<nat, seq<byte>>, m: Memory, offset: int, size: Option<nat>) returns (copy: seq<byte>)
    requires Copyable(heap, m, offset, size)
    ensures IsCopy(copy, heap, m, offset, size)
    ensures
      Wellformed(m) && InBounds(heap, m) && m.size < TWO64 && Within(m, offset, size) ==>
        InBounds(heap, Shared(m, offset, size)) && copy == Bytes(heap, Shared(m, offset, size))
  {
    var length := CopySize(m, offset, size);
    copy := [];
    for i := 0 to length
      invariant |copy| == i
      invariant forall j :: 0 <= j < i ==> copy[j] == heap[m.block][m.offset + offset + j]
    {
      copy := copy + [heap[m.block][m.offset + offset + i]];
    }
    if Wellformed(m) && InBounds(heap, m) && m.size < TWO64 && Within(m, offset, size) {
      CopyIsShare(heap, m, offset, size, copy);
    }
  }

  /** A share is cut from the same block, and its parent is the root however often it is shared. */
  lemma ShareParentIsRoot(m: Memory, offset: int, size: Option<nat>)
    requires Wellformed(m) && m.offset + offset >= 0
    ensures
      var sub := Shared(m, offset, size);
      Wellformed(sub) && sub.parent == Some(RootOf(m)) && RootOf(sub) == RootOf(m) && sub.block == m.block
      && sub.readOnly && sub.maxSize == m.maxSize
  {}

  /** Sharing a share is one share with the offsets added; the default size of the second share
      reaches to the end of the first. */
  lemma ShareOfShare(m: Memory, a: int, b: int, size1: nat, size2: Option<nat>)
    requires Wellformed(m) && m.offset + a >= 0 && m.offset + a + b >= 0
    requires b <= size1 < TWO64 + b
    ensures Shared(Shared(m, a, Some(size1)), b, size2)
         == Shared(m, a + b, Some(if size2.Some? then size2.value else size1 - b))
  {}

  /** The bytes of a share are the corresponding slice of the bytes it was cut from. */
  lemma ShareIsSlice(heap: map<nat, seq<byte>>, m: Memory, offset: nat, size: nat)
    requires Wellformed(m) && InBounds(heap, m) && offset + size <= m.size
    ensures
      var sub := Shared(m, offset, Some(size));
      InBounds(heap, sub) && Bytes(heap, sub) == Bytes(heap, m)[offset..offset + size]
  {
    var data := heap[m.block];
    assert data[m.offset..m.offset + m.size][offset..offset + size]
        == data[m.offset + offset..m.offset + offset + size];
  }

  /** The part of m lies inside m. */
  predicate Within(m: Memory, offset: int, size: Option<nat>) {
    0 <= offset && (if size.Some? then offset + size.value <= m.size else offset <= m.size)
  }

  lemma CopyIsShare(heap: map<nat, seq<byte>>, m: Memory, offset: int, size: Option<nat>, copy: seq<byte>)
    requires Wellformed(m) && InBounds(heap, m) && m.size < TWO64 && Within(m, offset, size)
    requires Copyable(heap, m, offset, size) && IsCopy(copy, heap, m, offset, size)
    ensures InBounds(heap, Shared(m, offset, size)) && copy == Bytes(heap, Shared(m, offset, size))
  {}

  /** Without a size, copying and sharing agree on the length exactly when the offset lies inside m:
      past the end, or with a negative offset, a copy is empty while the size of a share wraps around
      or reaches back. With a size they always agree. */
  lemma CopyMatchesShareIff(m: Memory, offset: int, size: Option<nat>)
    requires m.offset + offset >= 0 && m.size < TWO64 / 2 && -(TWO64 / 2) <= offset < TWO64 / 2
    ensures
      Shared(m, offset, size).size == CopySize(m, offset, size) <==> size.Some? || 0 <= offset <= m.size
  {
    if size.None? && offset > m.size {
      assert (m.size - offset) % TWO64 == TWO64 + m.size - offset;
    }
    if size.None? && offset < 0 {
      assert offset % TWO64 == TWO64 + offset;
    }
  }
}
