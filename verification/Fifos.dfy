/** The FIFO with several readers as linked lists of cells, and its readers. */
module Fifos {
  import opened Sequences
  import FifoPool

  type Pool = FifoPool.Pool<Chain>

  class Chain {
    const data: int
    var next: Chain?
    var expectedReads: set<nat>

    constructor (data: int)
      ensures this.data == data && next == null && expectedReads == {}
    {
      this.data := data;
      next, expectedReads := null, {};
    }
  }

  // The cells of q hang together from head on
  ghost predicate Linked(head: Chain?, q: seq<Chain>)
    reads q`next
  {
    && NoDup(q)
    && head == (if |q| == 0 then null else q[0])
    && forall i {:trigger q[i].next} :: 0 <= i < |q| ==> q[i].next == if i + 1 < |q| then q[i + 1] else null
  }

  ghost predicate Disjoint(u: seq<Chain>, t: seq<Chain>, f: seq<Chain>) {
    && (forall c :: c in u ==> c !in t && c !in f)
    && (forall c :: c in t ==> c !in f)
  }

  function LastOf(q: seq<Chain>): Chain? {
    if |q| == 0 then null else q[|q| - 1]
  }

  class FifoGeneric {
    var unusedHead: Chain?
    var allocatedHead: Chain?
    var fifoFirst: Chain?
    var fifoLast: Chain?
    var lastPushed: Option<int>
    var readers: seq<FifoGenericReader>
    var readerBitMask: set<nat>
    ghost var pool: Pool
    ghost var cellAt: map<int, Chain>

    // The three lists are u, t and f
    ghost predicate Lists(u: seq<Chain>, t: seq<Chain>, f: seq<Chain>)
      reads `unusedHead, `allocatedHead, `fifoFirst, `fifoLast, u`next, t`next, f`next
    {
      Linked(unusedHead, u) && Linked(allocatedHead, t) && Linked(fifoFirst, f) && fifoLast == LastOf(f) &&
        Disjoint(u, t, f)
    }

    ghost predicate Masks(m: map<Chain, set<nat>>)
      reads m.Keys`expectedReads
    {
      forall c :: c in m ==> c.expectedReads == m[c]
    }

    // Cells are told apart by their data
    ghost predicate Addressed(m: map<Chain, set<nat>>)
      reads `cellAt
    {
      forall c :: c in m ==> c.data in cellAt && cellAt[c.data] == c
    }

    // The fields are as the pool q says
    ghost predicate Holds(q: Pool)
      reads `unusedHead, `allocatedHead, `fifoFirst, `fifoLast, `cellAt
      reads q.unused`next, q.taken`next, q.fifo`next, q.masks.Keys`expectedReads
    {
      Lists(q.unused, q.taken, q.fifo) && Masks(q.masks) && Addressed(q.masks)
    }

    ghost predicate Valid()
      reads `unusedHead, `allocatedHead, `fifoFirst, `fifoLast, `cellAt, `pool, `readerBitMask
      reads pool.unused`next, pool.taken`next, pool.fifo`next, pool.masks.Keys`expectedReads
    {
      Holds(pool) && FifoPool.Partition(pool) && readerBitMask == pool.readerMask && 0 in readerBitMask
    }

    ghost method Commit(q: Pool)
      requires Holds(q) && FifoPool.Partition(q) && readerBitMask == q.readerMask && 0 in readerBitMask
      modifies `pool
      ensures Valid() && pool == q
    {
      pool := q;
    }

    // A FIFO over new cells for items of some positive size
    constructor (size: nat, items: nat)
      requires 0 < size
      ensures Valid() && fresh(pool.masks.Keys) && |pool.unused| == items
      ensures pool.taken == [] && pool.fifo == [] && pool.readerMask == {0} && readers == [] && lastPushed == None
    {
      unusedHead, allocatedHead, fifoFirst, fifoLast, lastPushed := null, null, null, null, None;
      readers, readerBitMask, cellAt := [], {0}, map[];
      pool := FifoPool.Pool([], [], [], map[], {0});
      new;
      for i := 0 to items
        invariant Valid() && fresh(pool.masks.Keys) && |pool.unused| == i
        invariant pool.taken == [] && pool.fifo == [] && pool.readerMask == {0} && readers == [] && lastPushed == None
        invariant forall c :: c in pool.masks ==> c.data < size * i
      {
        assert size * (i + 1) == size * i + size;
        AddCell(size * i);
      }
    }

    method AddCell(data: int)
      requires Valid() && pool.taken == [] && pool.fifo == [] && forall c :: c in pool.masks ==> c.data != data
      modifies `pool, `unusedHead, `cellAt
      ensures Valid() && fresh(pool.masks.Keys - old(pool.masks.Keys)) && |pool.unused| == |old(pool.unused)| + 1
      ensures pool.taken == [] && pool.fifo == [] && pool.readerMask == old(pool.readerMask)
      ensures forall c :: c in pool.masks ==> c in old(pool.masks) || c.data == data
    {
      ghost var p := pool;
      var c := new Chain(data);
      PushUnused(c, p.unused, p.taken, p.fifo);
      cellAt := cellAt[data := c];
      pool := p.(unused := [c] + p.unused, masks := p.masks[c := {}]);
    }

    // ---- single list operations

    method PushUnused(c: Chain, ghost u: seq<Chain>, ghost t: seq<Chain>, ghost f: seq<Chain>)
      requires Lists(u, t, f) && c !in u && c !in t && c !in f
      modifies `unusedHead, c`next
      ensures Lists([c] + u, t, f)
    {
      FifoPool.MovedToFront(u, c);
      c.next := unusedHead;
      unusedHead := c;
    }

    method PushAllocated(c: Chain, ghost u: seq<Chain>, ghost t: seq<Chain>, ghost f: seq<Chain>)
      requires Lists(u, t, f) && c !in u && c !in t && c !in f
      modifies `allocatedHead, c`next
      ensures Lists(u, [c] + t, f)
    {
      FifoPool.MovedToFront(t, c);
      c.next := allocatedHead;
      allocatedHead := c;
    }

    method AppendFifo(c: Chain, ghost u: seq<Chain>, ghost t: seq<Chain>, ghost f: seq<Chain>)
      requires Lists(u, t, f) && c !in u && c !in t && c !in f
      modifies `fifoFirst, `fifoLast, c`next, f`next
      ensures Lists(u, t, f + [c])
    {
      NoDupAppended(f, c);
      assert f != [] ==> f[|f| - 1] in f;
      if fifoFirst != null {
        NoDupFrom(f, |f| - 1);
        fifoLast.next := c;
      } else {
        fifoFirst := c;
      }
      fifoLast := c;
      c.next := null;
    }

    method TakeUnused(ghost u: seq<Chain>, ghost t: seq<Chain>, ghost f: seq<Chain>) returns (c: Chain)
      requires Lists(u, t, f) && u != []
      modifies `unusedHead
      ensures c == u[0] && Lists(u[1..], t, f) && c !in u[1..]
    {
      assert RemovesAt(u, 0, u[1..]);
      NoDupRemoved(u, 0, u[1..]);
      c := unusedHead;
      unusedHead := c.next;
    }

    // Take c, which is element k, out of the allocated cells; previous is the cell before it, or null
    method UnlinkAllocated(previous: Chain?, c: Chain, ghost k: nat, ghost u: seq<Chain>, ghost t: seq<Chain>,
                           ghost f: seq<Chain>)
      requires Lists(u, t, f) && k < |t| && c == t[k] && previous == if k == 0 then null else t[k - 1]
      modifies `allocatedHead, t`next
      ensures Lists(u, Without(t, k), f) && c !in Without(t, k)
    {
      WithoutRemoves(t, k);
      NoDupRemoved(t, k, Without(t, k));
      if previous == null {
        allocatedHead := c.next;
      } else {
        NoDupFrom(t, k - 1);
        assert t[k - 1] in t;
        previous.next := c.next;
      }
    }

    // Take c, which is element k, out of the FIFO; previous is the cell before it, or null
    method UnlinkFifo(previous: Chain?, c: Chain, ghost k: nat, ghost u: seq<Chain>, ghost t: seq<Chain>,
                      ghost f: seq<Chain>)
      requires Lists(u, t, f) && k < |f| && c == f[k] && previous == if k == 0 then null else f[k - 1]
      modifies `fifoFirst, `fifoLast, f`next
      ensures Lists(u, t, Without(f, k)) && c !in Without(f, k)
    {
      WithoutRemoves(f, k);
      NoDupRemoved(f, k, Without(f, k));
      NoDupFrom(f, |f| - 1);
      if previous == null {
        fifoFirst := c.next;
      } else {
        NoDupFrom(f, k - 1);
        assert f[k - 1] in f;
        previous.next := c.next;
      }
      if c == fifoLast {
        fifoLast := previous;
      }
    }

    // ---- the operations of the FIFO

    // The allocated cell with this data, or null
    ghost function AllocatedCell(data: int): (c: Chain?)
      reads `cellAt, `pool
      ensures c != null ==> c in pool.taken && c.data == data
    {
      if data in cellAt && cellAt[data].data == data && cellAt[data] in pool.taken then cellAt[data] else null
    }

    // An allocated cell is found by its data, and nothing else is
    lemma {:induction false} AllocatedCellIs(c: Chain)
      requires Valid() && c in pool.taken
      ensures AllocatedCell(c.data) == c
    {
      assert c in pool.masks;
    }

    // The bits of the readers that the mask of all readers can hold
    ghost function Ids(): set<nat>
      reads `readers, readers`readerId
    {
      set r | r in readers && r.readerId < 8 :: r.readerId
    }

    ghost predicate Associated()
      reads `readers, `readerBitMask, readers`readerId
    {
      Ids() <= readerBitMask
    }

    // Find it, and the cell before it
    method Find(data: int) returns (c: Chain?, previous: Chain?)
      requires Valid()
      ensures c == AllocatedCell(data) && (c == null ==> forall d :: d in pool.taken ==> d.data != data)
      ensures c != null ==> var k := Index(pool.taken, c); previous == if k == 0 then null else pool.taken[k - 1]
    {
      ghost var t, i := pool.taken, 0;
      c, previous := allocatedHead, null;
      while c != null && c.data != data
        invariant 0 <= i <= |t| && c == (if i < |t| then t[i] else null)
        invariant previous == if i == 0 then null else t[i - 1]
        invariant forall k :: 0 <= k < i ==> t[k].data != data
        decreases |t| - i
      {
        previous, c := c, c.next;
        i := i + 1;
      }
      assert c != null ==> c in pool.masks;
      assert forall d :: d in t ==> d in pool.masks;
    }

    method Unmark(c: Chain, readerId: nat) returns (empty: bool)
      requires c in pool.masks && Masks(pool.masks)
      modifies c`expectedReads
      ensures Masks(pool.masks[c := pool.masks[c] - {readerId}])
      ensures empty <==> pool.masks[c] - {readerId} == {}
    {
      c.expectedReads := c.expectedReads - {readerId};
      empty := c.expectedReads == {};
    }

    method AllocatedToUnused(previous: Chain?, c: Chain)
      requires Lists(pool.unused, pool.taken, pool.fifo) && c in pool.taken
      requires var k := Index(pool.taken, c); previous == if k == 0 then null else pool.taken[k - 1]
      modifies `unusedHead, `allocatedHead, pool.taken`next
      ensures Lists([c] + pool.unused, Without(pool.taken, Index(pool.taken, c)), pool.fifo)
    {
      ghost var k := Index(pool.taken, c);
      UnlinkAllocated(previous, c, k, pool.unused, pool.taken, pool.fifo);
      PushUnused(c, pool.unused, Without(pool.taken, k), pool.fifo);
    }

    method AllocatedToFifo(previous: Chain?, c: Chain)
      requires Lists(pool.unused, pool.taken, pool.fifo) && c in pool.taken
      requires var k := Index(pool.taken, c); previous == if k == 0 then null else pool.taken[k - 1]
      modifies `allocatedHead, `fifoFirst, `fifoLast, `lastPushed, pool.taken`next, pool.fifo`next
      ensures Lists(pool.unused, Without(pool.taken, Index(pool.taken, c)), pool.fifo + [c]) &&
        lastPushed == Some(c.data)
    {
      ghost var k := Index(pool.taken, c);
      UnlinkAllocated(previous, c, k, pool.unused, pool.taken, pool.fifo);
      AppendFifo(c, pool.unused, Without(pool.taken, k), pool.fifo);
      lastPushed := Some(c.data);
    }

    method FifoToUnused(previous: Chain?, c: Chain)
      requires Lists(pool.unused, pool.taken, pool.fifo) && c in pool.fifo
      requires var k := Index(pool.fifo, c); previous == if k == 0 then null else pool.fifo[k - 1]
      modifies `unusedHead, `fifoFirst, `fifoLast, pool.fifo`next
      ensures Lists([c] + pool.unused, pool.taken, Without(pool.fifo, Index(pool.fifo, c)))
    {
      ghost var k := Index(pool.fifo, c);
      UnlinkFifo(previous, c, k, pool.unused, pool.taken, pool.fifo);
      PushUnused(c, pool.unused, pool.taken, Without(pool.fifo, k));
    }

    method UnusedToAllocated() returns (c: Chain)
      requires Lists(pool.unused, pool.taken, pool.fifo) && pool.unused != []
      modifies `unusedHead, `allocatedHead, pool.unused`next
      ensures c == pool.unused[0] && Lists(pool.unused[1..], [c] + pool.taken, pool.fifo)
    {
      c := TakeUnused(pool.unused, pool.taken, pool.fifo);
      PushAllocated(c, pool.unused[1..], pool.taken, pool.fifo);
    }

    method FirstToAllocated() returns (c: Chain)
      requires Lists(pool.unused, pool.taken, pool.fifo) && pool.fifo != []
      modifies `allocatedHead, `fifoFirst, `fifoLast, pool.fifo`next
      ensures c == pool.fifo[0] && Lists(pool.unused, [c] + pool.taken, pool.fifo[1..])
    {
      c := fifoFirst;
      assert Without(pool.fifo, 0) == pool.fifo[1..];
      UnlinkFifo(null, c, 0, pool.unused, pool.taken, pool.fifo);
      PushAllocated(c, pool.unused, pool.taken, pool.fifo[1..]);
    }

    method Allocate() returns (result: Option<int>)
      requires Valid()
      modifies `pool, `unusedHead, `allocatedHead, pool.unused`next, pool.unused`expectedReads
      ensures Valid()
      ensures if old(pool.unused) == [] then result == None && pool == old(pool)
        else result == Some(old(pool.unused)[0].data) && pool == FifoPool.Allocate(old(pool))
    {
      result := None;
      if unusedHead != null {
        ghost var q := FifoPool.Allocate(pool);
        FifoPool.AllocateKeeps(pool);
        var element := UnusedToAllocated();
        element.expectedReads := {0};
        result := Some(element.data);
        Commit(q);
      }
    }

    method ReleaseItem(removeItem: Chain, previous: Chain?, readerId: nat)
      requires Valid() && removeItem in pool.taken
      requires var k := Index(pool.taken, removeItem); previous == if k == 0 then null else pool.taken[k - 1]
      modifies `unusedHead, `allocatedHead, pool.taken`next, removeItem`expectedReads
      ensures Holds(FifoPool.Release(pool, removeItem, readerId))
    {
      var empty := Unmark(removeItem, readerId);
      if empty {
        AllocatedToUnused(previous, removeItem);
      }
    }

    method ReleaseAllocated(removeItem: Chain, previous: Chain?, readerId: nat)
      requires Valid() && removeItem in pool.taken
      requires var k := Index(pool.taken, removeItem); previous == if k == 0 then null else pool.taken[k - 1]
      modifies `pool, `unusedHead, `allocatedHead, pool.taken`next, removeItem`expectedReads
      ensures Valid() && pool == FifoPool.Release(old(pool), removeItem, readerId)
    {
      ghost var q := FifoPool.Release(pool, removeItem, readerId);
      FifoPool.ReleaseKeeps(pool, removeItem, readerId);
      ReleaseItem(removeItem, previous, readerId);
      Commit(q);
    }

    method Release(data: int, readerId: nat)
      requires Valid()
      modifies `pool, `unusedHead, `allocatedHead, pool.taken`next, pool.taken`expectedReads
      ensures Valid()
      ensures var c := old(AllocatedCell(data));
        pool == if c == null then old(pool) else FifoPool.Release(old(pool), c, readerId)
    {
      var removeItem, previous := Find(data);
      if removeItem != null {
        ReleaseAllocated(removeItem, previous, readerId);
      }
    }

    method PushItem(element: Chain, previous: Chain?)
      requires Valid() && element in pool.taken
      requires var k := Index(pool.taken, element); previous == if k == 0 then null else pool.taken[k - 1]
      modifies `allocatedHead, `fifoFirst, `fifoLast, `lastPushed, pool.taken`next, pool.fifo`next
      modifies element`expectedReads
      ensures Holds(FifoPool.Push(pool, element)) && lastPushed == Some(element.data)
    {
      AllocatedToFifo(previous, element);
      element.expectedReads := readerBitMask;
    }

    method PushAllocatedItem(element: Chain, previous: Chain?)
      requires Valid() && element in pool.taken
      requires var k := Index(pool.taken, element); previous == if k == 0 then null else pool.taken[k - 1]
      modifies `pool, `allocatedHead, `fifoFirst, `fifoLast, `lastPushed, pool.taken`next, pool.fifo`next
      modifies element`expectedReads
      ensures Valid() && pool == FifoPool.Push(old(pool), element) && lastPushed == Some(element.data)
    {
      ghost var q := FifoPool.Push(pool, element);
      FifoPool.AppendKeeps(pool, element, pool.readerMask);
      PushItem(element, previous);
      Commit(q);
    }

    method Push(data: int) returns (result: bool)
      requires Valid()
      modifies `pool, `allocatedHead, `fifoFirst, `fifoLast, `lastPushed
      modifies pool.taken`next, pool.fifo`next, pool.taken`expectedReads
      ensures Valid()
      ensures var c := old(AllocatedCell(data));
        && (result <==> c != null)
        && pool == (if c == null then old(pool) else FifoPool.Push(old(pool), c))
        && lastPushed == if c == null then old(lastPushed) else Some(data)
      ensures var c := old(AllocatedCell(data));
        c != null ==> fifoLast == c && c.expectedReads == readerBitMask
      ensures var c := old(AllocatedCell(data));
        old(Associated()) && c != null ==> old(Ids()) <= c.expectedReads
    {
      var element, previous := Find(data);
      result := element != null;
      if element != null {
        PushAllocatedItem(element, previous);
      }
    }

    // Only a FIFO without readers can be read directly
    method Pop() returns (result: Option<int>)
      requires Valid()
      modifies `pool, `allocatedHead, `fifoFirst, `fifoLast, pool.fifo`next
      ensures Valid()
      ensures if old(pool.fifo) == [] || readers != [] then result == None && pool == old(pool)
        else result == Some(old(pool.fifo)[0].data) && pool == FifoPool.PopFirst(old(pool))
    {
      result := None;
      if fifoFirst != null && |readers| == 0 {
        ghost var q := FifoPool.PopFirst(pool);
        FifoPool.PopFirstKeeps(pool);
        var element := FirstToAllocated();
        result := Some(element.data);
        Commit(q);
      }
    }

    // The cell before link in the FIFO, or null
    method FindPrevious(link: Chain) returns (previous: Chain?)
      requires Valid() && link in pool.fifo
      ensures var k := Index(pool.fifo, link); previous == if k == 0 then null else pool.fifo[k - 1]
    {
      previous := null;
      if link != fifoFirst {
        previous := fifoFirst;
        ghost var i := 0;
        while previous.next != link
          invariant 0 <= i < Index(pool.fifo, link) && previous == pool.fifo[i]
          decreases |pool.fifo| - i
        {
          previous := previous.next;
          i := i + 1;
        }
        IndexAt(pool.fifo, i + 1);
      }
    }

    // The bit for a new reader: the lowest free one above the first
    method FindBit() returns (bit: nat)
      ensures bit == FifoPool.FreeBit(readerBitMask, 1)
    {
      bit := 0;
      ghost var free := FifoPool.FreeBit(readerBitMask, 1);
      while bit + 1 in readerBitMask
        invariant bit < free
        decreases free - bit
      {
        bit := bit + 1;
      }
      bit := bit + 1;
    }

    // Add the bit to all cells in the FIFO
    method MarkAll(bit: nat)
      requires Linked(fifoFirst, pool.fifo)
      modifies pool.fifo`expectedReads
      ensures forall c :: c in pool.fifo ==> c.expectedReads == old(c.expectedReads) + {bit}
    {
      ghost var f, i := pool.fifo, 0;
      var element := fifoFirst;
      while element != null
        invariant 0 <= i <= |f| && element == if i < |f| then f[i] else null
        invariant forall k {:trigger f[k].expectedReads} :: 0 <= k < i ==>
          f[k].expectedReads == old(f[k].expectedReads) + {bit}
        invariant forall k {:trigger f[k].expectedReads} :: i <= k < |f| ==>
          f[k].expectedReads == old(f[k].expectedReads)
        decreases |f| - i
      {
        NoDupFrom(f, i);
        element.expectedReads := element.expectedReads + {bit};
        element := element.next;
        i := i + 1;
      }
    }

    method MarkForReader(bit: nat)
      requires Valid()
      modifies pool.fifo`expectedReads
      ensures Holds(FifoPool.Associate(pool, bit))
    {
      MarkAll(bit);
    }

    method AssociateReader(reader: FifoGenericReader)
      requires Valid()
      modifies `pool, `readers, `readerBitMask, reader`fifo, reader`readerId, pool.fifo`expectedReads
      ensures Valid()
      ensures if reader in old(readers) then pool == old(pool) && readers == old(readers)
        else var bit := FifoPool.NewBit(old(pool), old(readers) == []);
          && readers == [reader] + old(readers) && reader.fifo == this && reader.readerId == bit
          && pool == FifoPool.Associate(old(pool), bit)
      ensures old(Associated()) ==> Associated()
    {
      if reader !in readers {
        var bit := 0;
        if |readers| > 0 {
          bit := FindBit();
        }
        Enlist(reader, bit);
        Admit(bit);
      }
    }

    method Enlist(reader: FifoGenericReader, bit: nat)
      requires Valid()
      modifies `readers, reader`fifo, reader`readerId
      ensures Valid() && readers == [reader] + old(readers) && reader.fifo == this && reader.readerId == bit
    {
      readers := [reader] + readers;
      reader.Attach(this, bit);
    }

    method Admit(bit: nat)
      requires Valid()
      modifies `pool, `readerBitMask, pool.fifo`expectedReads
      ensures Valid() && pool == FifoPool.Associate(old(pool), bit)
    {
      ghost var q := FifoPool.Associate(pool, bit);
      FifoPool.MarkKeeps(FifoPool.Admit(pool, bit), bit);
      MarkForReader(bit);
      readerBitMask := readerBitMask + FifoPool.Narrow({bit});
      Commit(q);
    }

    // The first cell in the FIFO that carries the bit
    method SkipRead(bit: nat) returns (element: Chain)
      requires Valid() && FifoPool.FirstWith(pool.fifo, pool.masks, bit) < |pool.fifo|
      ensures element == pool.fifo[FifoPool.FirstWith(pool.fifo, pool.masks, bit)]
    {
      ghost var f, k, i := pool.fifo, FifoPool.FirstWith(pool.fifo, pool.masks, bit), 0;
      element := fifoFirst;
      while bit !in element.expectedReads
        invariant 0 <= i <= k && element == f[i]
        decreases |f| - i
      {
        assert f[i] in f;
        element := element.next;
        i := i + 1;
      }
      assert f[i] in f;
    }

    // The cell n places behind element k
    method Walk(start: Chain, n: nat, ghost k: nat) returns (element: Chain)
      requires Valid() && k + n < |pool.fifo| && start == pool.fifo[k]
      ensures element == pool.fifo[k + n]
    {
      element := start;
      for i := 0 to n
        invariant element == pool.fifo[k + i]
      {
        element := element.next;
      }
    }

    // The first new cell for the reader; it becomes the first one of an empty window
    method FirstNew(reader: FifoGenericReader, volume: nat) returns (newItem: Chain)
      requires Valid() && CanSynchronize(reader, volume)
      modifies reader`fifoFirst
      ensures newItem == old(pool.fifo[FifoPool.SyncStart(pool, reader.Value())])
      ensures reader.fifoFirst == if old(reader.fifoFirst) == null then newItem else old(reader.fifoFirst)
    {
      if reader.fifoFirst == null {
        newItem := SkipRead(reader.readerId);
        reader.fifoFirst := newItem;
      } else {
        newItem := reader.fifoLast.next;
      }
    }

    method SynchronizeReader(reader: FifoGenericReader, volume: nat)
      requires Valid() && CanSynchronize(reader, volume)
      modifies reader`fifoFirst, reader`fifoLast
      ensures reader.Value() == FifoPool.Synchronize(pool, old(reader.Value()), volume)
    {
      ghost var r, from := reader.Value(), FifoPool.SyncStart(pool, reader.Value());
      var newItem := FirstNew(reader, volume);
      newItem := Walk(newItem, volume - 1, from);
      reader.fifoLast := newItem;
    }

    // The first reader of the task is synchronized; no volume means nothing to do
    method Synchronize(task: nat, volume: nat)
      requires Valid() && NoDup(readers)
      requires var k := FirstOf(readers, task);
        k < |readers| && 0 < volume ==> CanSynchronize(readers[k], volume)
      modifies readers`fifoFirst, readers`fifoLast
      ensures var k := FirstOf(readers, task);
        forall i {:trigger readers[i]} :: 0 <= i < |readers| ==>
          readers[i].Value() ==
            if 0 < volume && i == k then FifoPool.Synchronize(pool, old(readers[i].Value()), volume)
            else old(readers[i].Value())
    {
      if 0 < volume {
        var i := 0;
        while i < |readers| && readers[i].readerTask != task
          invariant 0 <= i <= FirstOf(readers, task)
        {
          i := i + 1;
        }
        if i < |readers| {
          NoDupFrom(readers, i);
          SynchronizeReader(readers[i], volume);
        }
      }
    }

    // The FIFO has the volume for the reader
    ghost predicate CanSynchronize(reader: FifoGenericReader, volume: nat)
      requires FifoPool.Partition(pool)
      reads `pool, reader
    {
      FifoPool.CanSynchronize(pool, reader.Value(), volume) && (reader.fifoFirst == null <==> reader.fifoLast == null)
    }

    method ReleaseLink(link: Chain, previous: Chain?, readerId: nat)
      requires Valid() && link in pool.fifo
      requires var k := Index(pool.fifo, link); previous == if k == 0 then null else pool.fifo[k - 1]
      modifies `unusedHead, `fifoFirst, `fifoLast, pool.fifo`next, link`expectedReads
      ensures Holds(FifoPool.ReleaseElement(pool, link, readerId))
    {
      var empty := Unmark(link, readerId);
      if empty {
        FifoToUnused(previous, link);
      }
    }

    method ReleaseElement(link: Chain, readerId: nat)
      requires Valid() && link in pool.fifo
      modifies `pool, `unusedHead, `fifoFirst, `fifoLast, pool.fifo`next, link`expectedReads
      ensures Valid() && pool == FifoPool.ReleaseElement(old(pool), link, readerId)
    {
      ghost var q := FifoPool.ReleaseElement(pool, link, readerId);
      FifoPool.ReleaseElementKeeps(pool, link, readerId);
      var previous := FindPrevious(link);
      ReleaseLink(link, previous, readerId);
      Commit(q);
    }
  }

  // The first cell with this data, or the number of cells
  function FirstWith(q: seq<Chain>, data: int): (k: nat)
    ensures k <= |q| && (k < |q| ==> q[k].data == data && Index(q, q[k]) == k)
    ensures forall j :: 0 <= j < k ==> q[j].data != data
  {
    if q == [] || q[0].data == data then 0 else 1 + FirstWith(q[1..], data)
  }

  // The first reader of a task, or the number of readers
  function FirstOf(readers: seq<FifoGenericReader>, task: nat): (k: nat)
    ensures k <= |readers| && (k < |readers| ==> readers[k].readerTask == task)
    ensures forall j :: 0 <= j < k ==> readers[j].readerTask != task
  {
    if readers == [] || readers[0].readerTask == task then 0 else 1 + FirstOf(readers[1..], task)
  }

  function Opt(c: Chain?): Option<Chain> {
    if c == null then None else Some(c)
  }

  class FifoGenericReader {
    const readerTask: nat
    var readerId: nat
    var fifo: FifoGeneric?
    var fifoFirst: Chain?
    var fifoLast: Chain?
    var allocatedElements: seq<Chain>

    ghost function Value(): FifoPool.Reader<Chain>
      reads `readerId, `fifoFirst, `fifoLast, `allocatedElements
    {
      FifoPool.Reader(readerId, Opt(fifoFirst), Opt(fifoLast), allocatedElements)
    }

    constructor (task: nat)
      ensures readerTask == task && fifo == null && Value() == FifoPool.Reader(0, None, None, [])
    {
      readerTask, readerId, fifo, fifoFirst, fifoLast, allocatedElements := task, 0, null, null, null, [];
    }

    method Attach(fifo: FifoGeneric, bit: nat)
      modifies `fifo, `readerId
      ensures this.fifo == fifo && readerId == bit
    {
      this.fifo, readerId := fifo, bit;
    }

    // The window lies inside the FIFO
    ghost predicate Sees(p: Pool)
      reads `fifoFirst, `fifoLast
    {
      (fifoFirst == null <==> fifoLast == null) &&
      (fifoFirst != null ==>
        fifoFirst in p.fifo && fifoLast in p.fifo && Index(p.fifo, fifoFirst) <= Index(p.fifo, fifoLast))
    }

    // The next cell of the window, unless all links are in use
    method Pop() returns (data: Option<int>)
      requires fifo != null ==> fifo.Valid() && Sees(fifo.pool)
      modifies `fifoFirst, `fifoLast, `allocatedElements
      ensures
        if fifo == null || old(fifoFirst) == null || |old(allocatedElements)| >= FifoPool.MAXIMUM_FIFO_READER_LINKS
        then data == None && Value() == old(Value())
        else
          && data == Some(old(fifoFirst).data) && FifoPool.CanPop(fifo.pool, old(Value()))
          && Value() == FifoPool.Pop(fifo.pool, old(Value()))
    {
      if fifo == null || fifoFirst == null {
        return None;
      }
      if |allocatedElements| >= FifoPool.MAXIMUM_FIFO_READER_LINKS {
        return None;
      }
      var link := fifoFirst;
      ghost var k, e := Index(fifo.pool.fifo, link), Index(fifo.pool.fifo, fifoLast);
      allocatedElements := [link] + allocatedElements;
      fifoFirst := link.next;
      if link == fifoLast {
        fifoFirst := null;
        fifoLast := null;
      }
      data := Some(link.data);
    }

    // The place of the data among the popped cells
    method Find(data: int) returns (i: nat)
      ensures i == FirstWith(allocatedElements, data)
    {
      i := 0;
      while i < |allocatedElements| && allocatedElements[i].data != data
        invariant i <= FirstWith(allocatedElements, data)
      {
        i := i + 1;
      }
    }

    ghost predicate Holds(p: Pool)
      reads `allocatedElements
    {
      forall c :: c in allocatedElements ==> c in p.fifo && c in p.masks
    }

    method ReleaseAt(i: nat)
      requires fifo != null && fifo.Valid() && Holds(fifo.pool) && i < |allocatedElements|
      modifies `allocatedElements, fifo`pool, fifo`unusedHead, fifo`fifoFirst, fifo`fifoLast
      modifies fifo.pool.fifo`next, {allocatedElements[i]}`expectedReads
      ensures fifo.Valid() && fifo.pool == FifoPool.ReleaseElement(old(fifo.pool), old(allocatedElements[i]), readerId)
      ensures allocatedElements == Without(old(allocatedElements), i)
    {
      fifo.ReleaseElement(allocatedElements[i], readerId);
      allocatedElements := Without(allocatedElements, i);
    }

    // Release the popped cell with this data, if there is one
    method Release(data: int)
      requires fifo != null ==> fifo.Valid() && Holds(fifo.pool)
      modifies `allocatedElements
      modifies (if fifo == null then {} else {fifo})`pool, (if fifo == null then {} else {fifo})`unusedHead
      modifies (if fifo == null then {} else {fifo})`fifoFirst, (if fifo == null then {} else {fifo})`fifoLast
      modifies (if fifo == null then {} else set c | c in fifo.pool.fifo)`next
      modifies allocatedElements`expectedReads
      ensures fifo != null ==> fifo.Valid()
      ensures var i := FirstWith(old(allocatedElements), data);
        if fifo == null || i == |old(allocatedElements)|
        then allocatedElements == old(allocatedElements) && (fifo != null ==> fifo.pool == old(fifo.pool))
        else fifo.pool == FifoPool.ReleaseElement(old(fifo.pool), old(allocatedElements[i]), readerId) &&
             Value() == FifoPool.ReleaseHeld(old(Value()), old(allocatedElements[i]))
    {
      if fifo == null || |allocatedElements| == 0 {
        return;
      }
      var i := Find(data);
      if i < |allocatedElements| {
        ReleaseAt(i);
      }
    }
  }
}
