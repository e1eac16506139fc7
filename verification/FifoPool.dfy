/** The cells of a FIFO with several readers: where they are, and who still has to read them. */
module FifoPool {
  import opened Sequences

  // Bit masks are sets of bit positions
  datatype Pool<T> = Pool(unused: seq<T>, taken: seq<T>, fifo: seq<T>, masks: map<T, set<nat>>, readerMask: set<nat>)

  // A reader sees the cells from first to last, and holds the cells it has popped until it releases them
  datatype Reader<T> = Reader(bit: nat, first: Option<T>, last: Option<T>, held: seq<T>)

  // Every cell is in exactly one of the three lists
  ghost predicate Partition<T>(p: Pool<T>) {
    && NoDup(p.unused) && NoDup(p.taken) && NoDup(p.fifo)
    && (forall c :: c in p.unused ==> c !in p.taken && c !in p.fifo && c in p.masks)
    && (forall c :: c in p.taken ==> c !in p.fifo && c in p.masks)
    && (forall c :: c in p.fifo ==> c in p.masks)
    && (forall c :: c in p.masks ==> c in p.unused || c in p.taken || c in p.fifo)
  }

  function Allocate<T>(p: Pool<T>): Pool<T>
    requires p.unused != []
  {
    var c := p.unused[0];
    p.(unused := p.unused[1..], taken := [c] + p.taken, masks := p.masks[c := {0}])
  }

  // An allocated cell whose mask becomes empty is unused again
  function Release<T(==)>(p: Pool<T>, c: T, bit: nat): Pool<T>
    requires c in p.taken && c in p.masks
  {
    var m := p.masks[c] - {bit};
    var q := p.(masks := p.masks[c := m]);
    if m == {} then q.(taken := Without(p.taken, Index(p.taken, c)), unused := [c] + p.unused) else q
  }

  // The allocated cell becomes the last one of the FIFO, to be read by the readers of the mask
  function Append<T(==)>(p: Pool<T>, c: T, mask: set<nat>): Pool<T>
    requires c in p.taken
  {
    p.(taken := Without(p.taken, Index(p.taken, c)), fifo := p.fifo + [c], masks := p.masks[c := mask])
  }

  function Push<T(==)>(p: Pool<T>, c: T): Pool<T>
    requires c in p.taken
  {
    Append(p, c, p.readerMask)
  }

  function PopFirst<T>(p: Pool<T>): Pool<T>
    requires p.fifo != []
  {
    p.(fifo := p.fifo[1..], taken := [p.fifo[0]] + p.taken)
  }

  // A cell of the FIFO that no reader still has to read is unused again
  function ReleaseElement<T(==)>(p: Pool<T>, c: T, bit: nat): Pool<T>
    requires c in p.fifo && c in p.masks
  {
    var m := p.masks[c] - {bit};
    var q := p.(masks := p.masks[c := m]);
    if m == {} then q.(fifo := Without(p.fifo, Index(p.fifo, c)), unused := [c] + p.unused) else q
  }

  // The lowest position from b on that is not in the mask
  function FreeBit(mask: set<nat>, b: nat): (r: nat)
    ensures b <= r && r !in mask && forall x :: b <= x < r ==> x in mask
    decreases |mask|
  {
    if b in mask then
      var r := FreeBit(mask - {b}, b + 1);
      assert forall x :: b <= x < r ==> x in mask by {
        forall x | b <= x < r ensures x in mask { assert x == b || x in mask - {b}; }
      }
      r
    else b
  }

  // The mask of all readers has eight bits
  function Narrow(mask: set<nat>): set<nat> {
    set b | b in mask && b < 8
  }

  function NewBit<T>(p: Pool<T>, first: bool): nat {
    if first then 0 else FreeBit(p.readerMask, 1)
  }

  // A reader with this bit has to read the cells that are pushed from now on
  function Admit<T>(p: Pool<T>, bit: nat): Pool<T> {
    p.(readerMask := p.readerMask + Narrow({bit}))
  }

  // A reader with this bit has to read all cells that are in the FIFO
  function Mark<T>(p: Pool<T>, bit: nat): Pool<T> {
    p.(masks := map c | c in p.masks :: if c in p.fifo then p.masks[c] + {bit} else p.masks[c])
  }

  function Associate<T>(p: Pool<T>, bit: nat): Pool<T> {
    Mark(Admit(p, bit), bit)
  }

  // The first place in the FIFO whose cell carries the bit, or the length of the FIFO
  function FirstWith<T>(fifo: seq<T>, masks: map<T, set<nat>>, bit: nat): (k: nat)
    requires forall c :: c in fifo ==> c in masks
    ensures k <= |fifo| && (k < |fifo| ==> bit in masks[fifo[k]])
    ensures forall j :: 0 <= j < k ==> bit !in masks[fifo[j]]
  {
    if fifo == [] || bit in masks[fifo[0]] then 0 else 1 + FirstWith(fifo[1..], masks, bit)
  }

  // Where the cells of the next synchronization start
  function SyncStart<T(==)>(p: Pool<T>, r: Reader<T>): nat
    requires forall c :: c in p.fifo ==> c in p.masks
  {
    if r.first == None || r.last == None then FirstWith(p.fifo, p.masks, r.bit) else Index(p.fifo, r.last.value) + 1
  }

  predicate CanSynchronize<T(==)>(p: Pool<T>, r: Reader<T>, volume: nat)
    requires forall c :: c in p.fifo ==> c in p.masks
  {
    0 < volume && SyncStart(p, r) + volume <= |p.fifo|
  }

  function Synchronize<T(==)>(p: Pool<T>, r: Reader<T>, volume: nat): Reader<T>
    requires forall c :: c in p.fifo ==> c in p.masks
    requires CanSynchronize(p, r, volume)
  {
    var from := SyncStart(p, r);
    r.(first := if r.first == None then Some(p.fifo[from]) else r.first, last := Some(p.fifo[from + volume - 1]))
  }

  const MAXIMUM_FIFO_READER_LINKS := 2000

  predicate CanPop<T(==)>(p: Pool<T>, r: Reader<T>) {
    && r.first.Some? && |r.held| < MAXIMUM_FIFO_READER_LINKS
    && (r.first == r.last || Index(p.fifo, r.first.value) + 1 < |p.fifo|)
  }

  function Pop<T(==)>(p: Pool<T>, r: Reader<T>): Reader<T>
    requires CanPop(p, r)
  {
    var c := r.first.value;
    if r.first == r.last then r.(held := [c] + r.held, first := None, last := None)
    else r.(held := [c] + r.held, first := Some(p.fifo[Index(p.fifo, c) + 1]))
  }

  function ReleaseHeld<T(==)>(r: Reader<T>, c: T): Reader<T>
    requires c in r.held
  {
    r.(held := Without(r.held, Index(r.held, c)))
  }

  // ---- every operation keeps the partition of the cells

  lemma {:induction false} MovedToFront<T>(a: seq<T>, c: T)
    requires NoDup(a) && c !in a
    ensures NoDup([c] + a)
  {
    assert InsertsAt(a, c, 0, [c] + a);
    NoDupInserted(a, c, 0, [c] + a);
  }

  lemma {:induction false} TakenOut<T>(a: seq<T>, c: T)
    requires NoDup(a) && c in a
    ensures var r := Without(a, Index(a, c)); NoDup(r) && c !in r && forall x :: x in r <==> x in a && x != c
  {
    WithoutRemoves(a, Index(a, c));
    NoDupRemoved(a, Index(a, c), Without(a, Index(a, c)));
  }

  lemma {:induction false} AllocateKeeps<T>(p: Pool<T>)
    requires Partition(p) && p.unused != []
    ensures Partition(Allocate(p))
  {
    var c := p.unused[0];
    MovedToFront(p.taken, c);
    TakenOut(p.unused, c);
    assert Without(p.unused, 0) == p.unused[1..];
  }

  lemma {:induction false} ReleaseKeeps<T>(p: Pool<T>, c: T, bit: nat)
    requires Partition(p) && c in p.taken
    ensures Partition(Release(p, c, bit))
  {
    MovedToFront(p.unused, c);
    TakenOut(p.taken, c);
  }

  lemma {:induction false} AppendKeeps<T>(p: Pool<T>, c: T, mask: set<nat>)
    requires Partition(p) && c in p.taken
    ensures Partition(Append(p, c, mask))
  {
    NoDupAppended(p.fifo, c);
    TakenOut(p.taken, c);
  }

  lemma {:induction false} PopFirstKeeps<T>(p: Pool<T>)
    requires Partition(p) && p.fifo != []
    ensures Partition(PopFirst(p))
  {
    var c := p.fifo[0];
    MovedToFront(p.taken, c);
    TakenOut(p.fifo, c);
    assert Without(p.fifo, 0) == p.fifo[1..];
  }

  lemma {:induction false} ReleaseElementKeeps<T>(p: Pool<T>, c: T, bit: nat)
    requires Partition(p) && c in p.fifo
    ensures Partition(ReleaseElement(p, c, bit))
  {
    MovedToFront(p.unused, c);
    TakenOut(p.fifo, c);
  }

  lemma {:induction false} MarkKeeps<T>(p: Pool<T>, bit: nat)
    requires Partition(p)
    ensures Partition(Mark(p, bit))
  {
  }

  // ---- what becomes of the cells

  lemma {:induction false} AllocatedFirst<T>(p: Pool<T>)
    requires Partition(p) && p.unused != []
    ensures var c, q := p.unused[0], Allocate(p);
      c in q.taken && c !in q.unused && q.fifo == p.fifo && q.masks == p.masks[c := {0}] && [c] + q.unused == p.unused
  {
    NoDupFrom(p.unused, 0);
  }

  // Releasing an allocated cell undoes the allocation
  lemma {:induction false} ReleaseUndoesAllocate<T>(p: Pool<T>)
    requires Partition(p) && p.unused != []
    ensures var c := p.unused[0];
      c in Allocate(p).taken && Release(Allocate(p), c, 0) == p.(masks := p.masks[c := {}])
  {
    var c, q := p.unused[0], Allocate(p);
    AllocatedFirst(p);
    assert Without(q.taken, 0) == p.taken;
    assert q.masks[c] - {0} == {};
  }

  // An allocated cell is unused again exactly when no other bit is left
  lemma {:induction false} ReleaseFrees<T>(p: Pool<T>, c: T, bit: nat)
    requires Partition(p) && c in p.taken
    ensures var q := Release(p, c, bit);
      && (c in q.unused <==> p.masks[c] <= {bit}) && (c in q.taken <==> !(p.masks[c] <= {bit}))
      && forall x :: x != c ==> (x in q.unused <==> x in p.unused) && (x in q.taken <==> x in p.taken)
  {
    TakenOut(p.taken, c);
    assert p.masks[c] - {bit} == {} <==> p.masks[c] <= {bit};
  }

  // A pushed cell is the last one of the FIFO and has to be read by all readers
  lemma {:induction false} PushReachesAll<T>(p: Pool<T>, c: T)
    requires Partition(p) && c in p.taken
    ensures var q := Push(p, c);
      && c !in q.taken && q.fifo == p.fifo + [c] && q.unused == p.unused
      && forall bit :: bit in p.readerMask ==> bit in q.masks[c]
  {
    TakenOut(p.taken, c);
  }

  // A cell that is read directly leaves the FIFO, and the others stay in order
  lemma {:induction false} PopFirstTakes<T>(p: Pool<T>)
    requires Partition(p) && p.fifo != []
    ensures var c, q := p.fifo[0], PopFirst(p);
      c in q.taken && c !in q.fifo && p.fifo == [c] + q.fifo && q.unused == p.unused
  {
    NoDupFrom(p.fifo, 0);
  }

  // A new reader has to read all cells of the FIFO and, if its bit fits, the later ones; nothing changes for the others
  lemma {:induction false} AssociateMarks<T>(p: Pool<T>, bit: nat, c: T)
    requires Partition(p) && c in p.masks
    ensures var q := Associate(p, bit);
      && q.masks.Keys == p.masks.Keys
      && (bit in q.masks[c] <==> bit in p.masks[c] || c in p.fifo)
      && (forall b :: b != bit ==> (b in q.masks[c] <==> b in p.masks[c]))
      && (bit in q.readerMask <==> bit in p.readerMask || bit < 8)
      && (forall b :: b != bit ==> (b in q.readerMask <==> b in p.readerMask))
  {
  }
}
