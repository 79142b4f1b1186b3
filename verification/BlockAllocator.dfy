/** The allocator of DMA-locked blocks: a free list with a preallocated floor. Addresses of new
    blocks come from the system; locking and unlocking a block for DMA is kept as a log. */
module BlockAllocator {
  import opened Arithmetic
  import opened SharedMemory

  const KEEP: nat := 8

  datatype DmaOp = Lock(block: nat) | Unlock(block: nat)

  /** live are the blocks of live root memories; it is not a field of the source. */
  datatype AllocState = AllocState(numAllocated: nat, freeList: seq<nat>, live: set<nat>, log: seq<DmaOp>)

  function Elements(s: seq<nat>): set<nat> { set x | x in s }

  function Held(s: AllocState): set<nat> { Elements(s.freeList) + s.live }

  // ------------------------------------------------------------------- operations

  /** _aja_memory_new_block: reuses the oldest free block, or has the system allocate one. */
  function Allocated(s: AllocState, supplied: nat): (AllocState, nat) {
    if s.freeList != [] then
      (s.(freeList := s.freeList[1..], live := s.live + {s.freeList[0]}), s.freeList[0])
    else
      (s.(numAllocated := s.numAllocated + 1, live := s.live + {supplied}, log := s.log + [Lock(supplied)]), supplied)
  }

  /** gst_aja_allocator_free of a root memory. */
  function Freed(s: AllocState, numPrealloc: nat, block: nat): AllocState {
    if |s.freeList| >= KEEP && numPrealloc < s.numAllocated then
      s.(numAllocated := s.numAllocated - 1, live := s.live - {block}, log := s.log + [Unlock(block)])
    else
      s.(freeList := s.freeList + [block], live := s.live - {block})
  }

  /** gst_aja_allocator_free: only a memory without a parent gives up its block. */
  function FreedMemory(s: AllocState, numPrealloc: nat, m: Memory): AllocState {
    if m.parent.None? then Freed(s, numPrealloc, m.block) else s
  }

  function Unlocks(blocks: seq<nat>): seq<DmaOp> { seq(|blocks|, i requires 0 <= i < |blocks| => Unlock(blocks[i])) }

  function Locks(blocks: seq<nat>): seq<DmaOp> { seq(|blocks|, i requires 0 <= i < |blocks| => Lock(blocks[i])) }

  function Finalized(s: AllocState): AllocState { s.(freeList := [], log := s.log + Unlocks(s.freeList)) }

  /** A new allocator with the given preallocated blocks. */
  function New(blocks: seq<nat>): AllocState { AllocState(|blocks|, blocks, {}, Locks(blocks)) }

  class Allocator {
    const numPrealloc: nat
    var numAllocated: nat
    var freeList: seq<nat>
    ghost var live: set<nat>
    ghost var log: seq<DmaOp>

    ghost function View(): AllocState
      reads this
    {
      AllocState(numAllocated, freeList, live, log)
    }

    /** gst_aja_allocator_new. blocks are the addresses the system returns. */
    constructor (numPrealloc: nat, blocks: seq<nat>)
      requires |blocks| == numPrealloc
      ensures this.numPrealloc == numPrealloc && View() == New(blocks)
    {
      this.numPrealloc := numPrealloc;
      freeList, live, log, numAllocated := [], {}, [], 0;
      new;
      for i := 0 to numPrealloc
        invariant freeList == blocks[..i] && live == {} && log == Locks(blocks[..i])
      {
        log := log + [Lock(blocks[i])];
        freeList := freeList + [blocks[i]];
        assert blocks[..i + 1] == blocks[..i] + [blocks[i]];
      }
      assert blocks[..numPrealloc] == blocks;
      numAllocated := numPrealloc;
    }

    method NewBlock(supplied: nat) returns (block: nat)
      modifies this
      ensures (View(), block) == Allocated(old(View()), supplied)
    {
      if freeList == [] {
        numAllocated := numAllocated + 1;
        block := supplied;
        log := log + [Lock(block)];
      } else {
        block := freeList[0];
        freeList := freeList[1..];
      }
      live := live + {block};
    }

    method Free(m: Memory)
      modifies this
      ensures View() == FreedMemory(old(View()), numPrealloc, m)
    {
      if m.parent.None? {
        if |freeList| >= KEEP && numPrealloc < numAllocated {
          numAllocated := numAllocated - 1;
          log := log + [Unlock(m.block)];
        } else {
          freeList := freeList + [m.block];
        }
        live := live - {m.block};
      }
    }

    method Finalize()
      modifies this
      ensures View() == Finalized(old(View()))
    {
      ghost var n, was := 0, freeList;
      while freeList != []
        invariant 0 <= n <= |was| && freeList == was[n..] && log == old(log) + Unlocks(was[..n])
        invariant numAllocated == old(numAllocated) && live == old(live)
        decreases |freeList|
      {
        assert Unlocks(was[..n + 1]) == Unlocks(was[..n]) + [Unlock(freeList[0])];
        log := log + [Unlock(freeList[0])];
        freeList := freeList[1..];
        n := n + 1;
      }
      assert was[..n] == was;
    }
  }

  // ------------------------------------------------------------------- locking

  function LockedAfter(before: set<nat>, op: DmaOp): set<nat> {
    if op.Lock? then before + {op.block} else before - {op.block}
  }

  /** The blocks that are locked after these operations. */
  function Locked(log: seq<DmaOp>): set<nat> {
    if log == [] then {} else LockedAfter(Locked(log[..|log| - 1]), log[|log| - 1])
  }

  predicate Proper(before: set<nat>, op: DmaOp) { op.Lock? <==> op.block !in before }

  /** No block is locked twice or unlocked while it is not locked. */
  predicate Paired(log: seq<DmaOp>) {
    log != [] ==> Paired(log[..|log| - 1]) && Proper(Locked(log[..|log| - 1]), log[|log| - 1])
  }

  lemma LogOne(log: seq<DmaOp>, op: DmaOp)
    ensures Locked(log + [op]) == LockedAfter(Locked(log), op)
    ensures Paired(log + [op]) <==> Paired(log) && Proper(Locked(log), op)
  {
    assert (log + [op])[..|log + [op]| - 1] == log;
  }

  // ------------------------------------------------------------------- invariant

  ghost predicate Distinct(s: seq<nat>) { forall i, j :: 0 <= i < j < |s| ==> s[i] != s[j] }

  /** The allocated count, and the bounds on it and on the free list. */
  predicate CountsRight(s: AllocState, numPrealloc: nat) {
    && s.numAllocated == |s.freeList| + |s.live|
    && numPrealloc <= s.numAllocated
    && |s.freeList| <= Max(KEEP, numPrealloc)
  }

  /** No block is free twice, or free and live. */
  ghost predicate Disjoint(freeList: seq<nat>, live: set<nat>) {
    Distinct(freeList) && forall x :: x in freeList ==> x !in live
  }

  /** Exactly the blocks held are locked, each of them once. */
  predicate LocksRight(s: AllocState) { Locked(s.log) == Held(s) && Paired(s.log) }

  ghost predicate Inv(s: AllocState, numPrealloc: nat) {
    CountsRight(s, numPrealloc) && Disjoint(s.freeList, s.live) && LocksRight(s)
  }

  lemma ElementsAppend(s: seq<nat>, x: nat)
    ensures Elements(s + [x]) == Elements(s) + {x}
  {}

  lemma {:induction false} LocksPaired(blocks: seq<nat>)
    requires Distinct(blocks)
    ensures Locked(Locks(blocks)) == Elements(blocks) && Paired(Locks(blocks))
    decreases |blocks|
  {
    if blocks == [] {
    } else {
      var front, last := blocks[..|blocks| - 1], blocks[|blocks| - 1];
      assert Locks(blocks) == Locks(front) + [Lock(last)];
      assert blocks == front + [last];
      LocksPaired(front);
      LogOne(Locks(front), Lock(last));
      ElementsAppend(front, last);
    }
  }

  lemma NewKeepsInv(blocks: seq<nat>)
    requires Distinct(blocks)
    ensures Inv(New(blocks), |blocks|)
  {
    LocksPaired(blocks);
    assert Held(New(blocks)) == Elements(blocks) + {};
  }

  lemma ElementsSplit(s: seq<nat>)
    requires s != []
    ensures Elements(s) == {s[0]} + Elements(s[1..])
  {
    assert s == [s[0]] + s[1..];
  }

  lemma TailDisjoint(freeList: seq<nat>, live: set<nat>)
    requires Disjoint(freeList, live) && freeList != []
    ensures Disjoint(freeList[1..], live + {freeList[0]}) && freeList[0] !in live
  {
    var rest := freeList[1..];
    assert forall i :: 0 <= i < |rest| ==> rest[i] == freeList[i + 1] && rest[i] in freeList;
  }

  lemma ExtendDisjoint(freeList: seq<nat>, live: set<nat>, block: nat)
    requires Disjoint(freeList, live) && block in live
    ensures Disjoint(freeList + [block], live - {block}) && Disjoint(freeList, live - {block})
  {
    assert forall i :: 0 <= i < |freeList| ==> freeList[i] in freeList;
  }

  lemma OneMore(live: set<nat>, block: nat)
    ensures block !in live ==> |live + {block}| == |live| + 1
    ensures block in live ==> |live - {block}| == |live| - 1
  {}

  lemma AllocatedKeepsInv(s: AllocState, numPrealloc: nat, supplied: nat)
    requires Inv(s, numPrealloc) && supplied !in Held(s)
    ensures
      var (s', block) := Allocated(s, supplied);
      Inv(s', numPrealloc) && block !in s.live && block in s'.live
  {
    var s' := Allocated(s, supplied).0;
    if s.freeList == [] {
      OneMore(s.live, supplied);
      LogOne(s.log, Lock(supplied));
      assert Held(s') == Held(s) + {supplied};
    } else {
      TailDisjoint(s.freeList, s.live);
      OneMore(s.live, s.freeList[0]);
      ElementsSplit(s.freeList);
      assert Held(s') == Held(s);
    }
  }

  /** A free block is used again: an allocation gives the one that has been free the longest, and neither
      locks nor counts another. Only without a free block the system's block is taken, counted and
      locked. */
  lemma FreeBlockIsReused(s: AllocState, supplied: nat)
    ensures
      var (s', block) := Allocated(s, supplied);
      if s.freeList != [] then
        && block in s.freeList && [block] + s'.freeList == s.freeList
        && s'.log == s.log && s'.numAllocated == s.numAllocated && s'.live == s.live + {block}
      else
        && block == supplied && s'.freeList == [] && s'.live == s.live + {supplied}
        && s'.log == s.log + [Lock(supplied)] && s'.numAllocated == s.numAllocated + 1
  {}

  /** A block that is given up waits at the end of the free list, still locked, unless eight are waiting
      and more than the floor are allocated; then it is unlocked and no longer counted. */
  lemma GivenUpBlockWaitsIff(s: AllocState, numPrealloc: nat, block: nat)
    ensures
      var s' := Freed(s, numPrealloc, block);
      && s'.live == s.live - {block}
      && (if |s.freeList| < 8 || s.numAllocated <= numPrealloc then
            s'.freeList == s.freeList + [block] && s'.log == s.log && s'.numAllocated == s.numAllocated
          else
            s'.freeList == s.freeList && s'.log == s.log + [Unlock(block)] && s'.numAllocated == s.numAllocated - 1)
  {}

  lemma FreedKeepsInv(s: AllocState, numPrealloc: nat, block: nat)
    requires Inv(s, numPrealloc) && block in s.live
    ensures Inv(Freed(s, numPrealloc, block), numPrealloc)
  {
    var s' := Freed(s, numPrealloc, block);
    OneMore(s.live, block);
    ExtendDisjoint(s.freeList, s.live, block);
    if |s.freeList| >= KEEP && numPrealloc < s.numAllocated {
      LogOne(s.log, Unlock(block));
      NotElement(s.freeList, block);
      assert Held(s') == Held(s) - {block};
    } else {
      ElementsAppend(s.freeList, block);
      assert Held(s') == Held(s);
    }
  }

  lemma NotElement(s: seq<nat>, x: nat)
    requires x !in s
    ensures x !in Elements(s)
  {}

  // ------------------------------------------------------------------- memories

  /** The allocator and the memories that are referred to: the blocks whose root memory has a user,
      and the shares. A share keeps a reference to its root, as GStreamer does for any memory with a
      parent. */
  datatype Memories = Memories(alloc: AllocState, owned: set<nat>, shares: multiset<Memory>)

  datatype Event = Alloc(supplied: nat) | Share(m: Memory, offset: int, size: Option<nat>) | Drop(m: Memory)

  function SharedBlocks(shares: multiset<Memory>): set<nat> { set m | m in shares :: m.block }

  /** A reference to the root memory of a block is given up, and with the last one the root. */
  function Unreffed(h: Memories, numPrealloc: nat, root: Memory): Memories {
    if root.block in h.owned || root.block in SharedBlocks(h.shares) then h
    else h.(alloc := FreedMemory(h.alloc, numPrealloc, root))
  }

  function Step(h: Memories, numPrealloc: nat, ev: Event): Memories
    requires Feasible(h, ev)
  {
    match ev
    case Alloc(supplied) =>
      var (alloc', block) := Allocated(h.alloc, supplied);
      h.(alloc := alloc', owned := h.owned + {block})
    case Share(m, offset, size) => h.(shares := h.shares + multiset{Shared(m, offset, size)})
    case Drop(m) =>
      if m.parent.None? then Unreffed(h.(owned := h.owned - {m.block}), numPrealloc, m)
      else
        var h1 := h.(shares := h.shares - multiset{m}, alloc := FreedMemory(h.alloc, numPrealloc, m));
        Unreffed(h1, numPrealloc, RootOf(m))
  }

  predicate Referred(h: Memories, m: Memory) { if m.parent.None? then m.block in h.owned else m in h.shares }

  /** The system returns only addresses that are not in use, and only live memories are shared or
      given up. */
  predicate Feasible(h: Memories, ev: Event) {
    match ev
    case Alloc(supplied) => supplied !in Held(h.alloc)
    case Share(m, offset, _) => Referred(h, m) && m.offset + offset >= 0
    case Drop(m) => Referred(h, m)
  }

  /** The state after a run, or None if one of its events was not possible. */
  function Exec(blocks: seq<nat>, events: seq<Event>): Option<Memories>
    decreases |events|
  {
    if events == [] then Some(Memories(New(blocks), {}, multiset{}))
    else
      var before, ev := Exec(blocks, events[..|events| - 1]), events[|events| - 1];
      if before.Some? && Feasible(before.value, ev) then Some(Step(before.value, |blocks|, ev)) else None
  }

  /** Exactly the blocks of memories referred to are live, and shares are cut from root memories. */
  ghost predicate MemoriesRight(h: Memories) {
    && h.alloc.live == h.owned + SharedBlocks(h.shares)
    && (forall m :: m in h.shares ==> m.parent.Some? && Wellformed(m))
  }

  lemma SharedBlocksMove(shares: multiset<Memory>, m: Memory)
    ensures SharedBlocks(shares + multiset{m}) == SharedBlocks(shares) + {m.block}
    ensures SharedBlocks(shares - multiset{m}) <= SharedBlocks(shares) <= SharedBlocks(shares - multiset{m}) + {m.block}
  {
    assert forall x :: x in shares - multiset{m} ==> x in shares;
    assert forall x :: x in shares && x != m ==> x in shares - multiset{m};
    assert m in shares + multiset{m};
    assert forall x :: x in shares ==> x in shares + multiset{m};
  }

  lemma AllocKeeps(h: Memories, numPrealloc: nat, supplied: nat)
    requires Inv(h.alloc, numPrealloc) && MemoriesRight(h) && Feasible(h, Alloc(supplied))
    ensures var h' := Step(h, numPrealloc, Alloc(supplied)); Inv(h'.alloc, numPrealloc) && MemoriesRight(h')
  {
    AllocatedKeepsInv(h.alloc, numPrealloc, supplied);
  }

  lemma ShareKeeps(h: Memories, numPrealloc: nat, m: Memory, offset: int, size: Option<nat>)
    requires MemoriesRight(h) && Feasible(h, Share(m, offset, size))
    ensures MemoriesRight(Step(h, numPrealloc, Share(m, offset, size)))
  {
    SharedBlocksMove(h.shares, Shared(m, offset, size));
    ShareParentIsRoot(m, offset, size);
  }

  lemma UnrefKeeps(h: Memories, numPrealloc: nat, root: Memory)
    requires Inv(h.alloc, numPrealloc) && root.parent.None? && root.block in h.alloc.live
    requires h.alloc.live == h.owned + SharedBlocks(h.shares) + {root.block}
    requires forall m :: m in h.shares ==> m.parent.Some? && Wellformed(m)
    ensures var h' := Unreffed(h, numPrealloc, root); Inv(h'.alloc, numPrealloc) && MemoriesRight(h')
  {
    FreedKeepsInv(h.alloc, numPrealloc, root.block);
    assert Freed(h.alloc, numPrealloc, root.block).live == h.alloc.live - {root.block};
  }

  lemma DropRootKeeps(h: Memories, numPrealloc: nat, m: Memory)
    requires Inv(h.alloc, numPrealloc) && MemoriesRight(h) && m.parent.None? && m.block in h.owned
    ensures var h' := Step(h, numPrealloc, Drop(m)); Inv(h'.alloc, numPrealloc) && MemoriesRight(h')
  {
    UnrefKeeps(h.(owned := h.owned - {m.block}), numPrealloc, m);
  }

  lemma SetsMove(owned: set<nat>, before: set<nat>, after: set<nat>, x: nat)
    requires x in before && after <= before <= after + {x}
    ensures owned + before == owned + after + {x}
  {}

  lemma ShareLeaves(h: Memories, m: Memory)
    requires MemoriesRight(h) && m in h.shares
    ensures
      var shares' := h.shares - multiset{m};
      && m.block in h.alloc.live && RootOf(m).block == m.block && RootOf(m).parent.None?
      && h.alloc.live == h.owned + SharedBlocks(shares') + {m.block}
      && (forall x :: x in shares' ==> x in h.shares)
  {
    SharedBlocksMove(h.shares, m);
    assert m.block in SharedBlocks(h.shares);
    SetsMove(h.owned, SharedBlocks(h.shares), SharedBlocks(h.shares - multiset{m}), m.block);
  }

  lemma DropShareUnrefs(h: Memories, numPrealloc: nat, m: Memory)
    requires m.parent.Some? && m in h.shares
    ensures Step(h, numPrealloc, Drop(m)) == Unreffed(h.(shares := h.shares - multiset{m}), numPrealloc, RootOf(m))
  {}

  lemma DropShareKeeps(h: Memories, numPrealloc: nat, m: Memory)
    requires Inv(h.alloc, numPrealloc) && MemoriesRight(h) && m.parent.Some? && m in h.shares
    ensures var h' := Step(h, numPrealloc, Drop(m)); Inv(h'.alloc, numPrealloc) && MemoriesRight(h')
  {
    ShareLeaves(h, m);
    DropShareUnrefs(h, numPrealloc, m);
    UnrefKeeps(h.(shares := h.shares - multiset{m}), numPrealloc, RootOf(m));
  }

  lemma DropKeeps(h: Memories, numPrealloc: nat, m: Memory)
    requires Inv(h.alloc, numPrealloc) && MemoriesRight(h) && Feasible(h, Drop(m))
    ensures var h' := Step(h, numPrealloc, Drop(m)); Inv(h'.alloc, numPrealloc) && MemoriesRight(h')
  {
    if m.parent.None? {
      DropRootKeeps(h, numPrealloc, m);
    } else {
      DropShareKeeps(h, numPrealloc, m);
    }
  }

  lemma StepKeeps(h: Memories, numPrealloc: nat, ev: Event)
    requires Inv(h.alloc, numPrealloc) && MemoriesRight(h) && Feasible(h, ev)
    ensures var h' := Step(h, numPrealloc, ev); Inv(h'.alloc, numPrealloc) && MemoriesRight(h')
  {
    match ev
    case Alloc(supplied) => AllocKeeps(h, numPrealloc, supplied);
    case Share(m, offset, size) => ShareKeeps(h, numPrealloc, m, offset, size);
    case Drop(m) => DropKeeps(h, numPrealloc, m);
  }

  /** In every run of allocations, shares and releases, the allocated count is free plus live blocks
      and never below the preallocated floor, the free list holds no block twice and none that is
      live and stays within its bound, exactly the blocks held are locked, each once, and the live
      blocks are those of the memories referred to. */
  lemma {:induction false} InvHolds(blocks: seq<nat>, events: seq<Event>)
    requires Distinct(blocks) && Exec(blocks, events).Some?
    ensures Inv(Exec(blocks, events).value.alloc, |blocks|) && MemoriesRight(Exec(blocks, events).value)
    decreases |events|
  {
    if events == [] {
      NewKeepsInv(blocks);
    } else {
      InvHolds(blocks, events[..|events| - 1]);
      StepKeeps(Exec(blocks, events[..|events| - 1]).value, |blocks|, events[|events| - 1]);
    }
  }

  /** The most blocks that were ever live at once. */
  function MostLive(blocks: seq<nat>, events: seq<Event>): nat
    requires Exec(blocks, events).Some?
    decreases |events|
  {
    var now := |Exec(blocks, events).value.alloc.live|;
    if events == [] then now else Max(MostLive(blocks, events[..|events| - 1]), now)
  }

  lemma UnreffedAllocatesNoMore(h: Memories, numPrealloc: nat, root: Memory)
    ensures Unreffed(h, numPrealloc, root).alloc.numAllocated <= h.alloc.numAllocated
  {}

  lemma StepAllocates(h: Memories, numPrealloc: nat, ev: Event)
    requires Inv(h.alloc, numPrealloc) && MemoriesRight(h) && Feasible(h, ev)
    ensures
      var h' := Step(h, numPrealloc, ev);
      h'.alloc.numAllocated <= h.alloc.numAllocated || h'.alloc.numAllocated == |h'.alloc.live|
  {
    match ev
    case Alloc(supplied) =>
      AllocKeeps(h, numPrealloc, supplied);
      FreeBlockIsReused(h.alloc, supplied);
    case Share(_, _, _) =>
    case Drop(m) =>
      if m.parent.None? {
        UnreffedAllocatesNoMore(h.(owned := h.owned - {m.block}), numPrealloc, m);
      } else {
        DropShareUnrefs(h, numPrealloc, m);
        UnreffedAllocatesNoMore(h.(shares := h.shares - multiset{m}), numPrealloc, RootOf(m));
      }
  }

  /** Over every run no more blocks are allocated than were preallocated or once needed at the same time. */
  lemma {:induction false} AllocatesNoMoreThanNeeded(blocks: seq<nat>, events: seq<Event>)
    requires Distinct(blocks) && Exec(blocks, events).Some?
    ensures Exec(blocks, events).value.alloc.numAllocated <= Max(|blocks|, MostLive(blocks, events))
    decreases |events|
  {
    if events == [] {
    } else {
      var front := events[..|events| - 1];
      AllocatesNoMoreThanNeeded(blocks, front);
      InvHolds(blocks, front);
      StepAllocates(Exec(blocks, front).value, |blocks|, events[|events| - 1]);
    }
  }

  /** As long as a share lives, however its root and other shares are given up, its block is neither
      on the free list nor unlocked. */
  lemma LiveShareKeepsBlock(blocks: seq<nat>, events: seq<Event>, m: Memory)
    requires Distinct(blocks) && Exec(blocks, events).Some? && m in Exec(blocks, events).value.shares
    ensures
      var s := Exec(blocks, events).value.alloc;
      m.block in s.live && m.block !in s.freeList && m.block in Locked(s.log)
  {
    InvHolds(blocks, events);
    var h := Exec(blocks, events).value;
    assert m.block in SharedBlocks(h.shares);
    assert m.block in Held(h.alloc);
  }

  /** A block is given up exactly with the last reference to its root, the user's or a share's. */
  lemma LastReferenceFrees(h: Memories, numPrealloc: nat, m: Memory)
    requires Inv(h.alloc, numPrealloc) && MemoriesRight(h) && Referred(h, m)
    ensures
      var h' := Step(h, numPrealloc, Drop(m));
      && (m.block !in h'.alloc.live <==> m.block !in h'.owned && m.block !in SharedBlocks(h'.shares))
      && (h'.alloc != h.alloc ==> h'.alloc == Freed(h.alloc, numPrealloc, m.block))
  {
    DropKeeps(h, numPrealloc, m);
  }

  /** Finalizing unlocks exactly the free blocks, each of them once. The allocator is finalized
      when no memory is left, so nothing stays locked. */
  lemma FinalizeUnlocks(s: AllocState, numPrealloc: nat)
    requires Inv(s, numPrealloc)
    ensures Paired(Finalized(s).log) && Locked(Finalized(s).log) == s.live
  {
    UnlockAll(s.log, s.freeList, s.live);
  }

  lemma {:induction false} UnlockAll(log: seq<DmaOp>, blocks: seq<nat>, others: set<nat>)
    requires Paired(log) && Locked(log) == Elements(blocks) + others
    requires Distinct(blocks)
    requires forall x :: x in blocks ==> x !in others
    ensures Paired(log + Unlocks(blocks)) && Locked(log + Unlocks(blocks)) == others
    decreases |blocks|
  {
    if blocks == [] {
      assert log + Unlocks(blocks) == log;
    } else {
      var x, rest := blocks[0], blocks[1..];
      ElementsSplit(blocks);
      LogOne(log, Unlock(x));
      assert x in blocks && x !in Elements(rest);
      UnlockAll(log + [Unlock(x)], rest, others);
      assert log + [Unlock(x)] + Unlocks(rest) == log + Unlocks(blocks);
    }
  }
}
