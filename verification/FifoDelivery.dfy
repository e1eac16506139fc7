/** Every reader of a FIFO gets every item exactly once and in order, and no cell is reused while a reader has it. */
module FifoDelivery {
  import opened Sequences
  import opened FifoPool

  // What a reader had to expect when it joined, and the numbers of the items it has popped since
  datatype Log = Log(live: seq<nat>, base: nat, popped: seq<nat>)

  // Pushes are numbered as they are appended; stamps are the numbers of the items in the cells. A push has two halves:
  // it takes its cell and reads the mask of all readers, and it appends the cell later; until then the cell is in
  // flight with that mask, out of reach of the other calls though still listed as taken. A reader that joins enters the
  // mask first and marks the cells in the FIFO later; until then it is one of those joining.
  datatype System<T> = System(pool: Pool<T>, readers: seq<Reader<T>>, stamps: map<T, nat>, pushes: nat, logs: seq<Log>,
                              flights: map<T, set<nat>>, joining: set<nat>)

  datatype Action<T> =
    | Allocate
    | Release(cell: T, bit: nat)
    | PushTake(cell: T)
    | PushAppend(cell: T)
    | PopFirst
    | JoinMask
    | JoinMark(i: nat)
    | Synchronize(i: nat, volume: nat)
    | Pop(i: nat)
    | ReleaseHeld(i: nat, cell: T)

  // The k-th item a reader has to get: first what was in the FIFO, then every later push
  function Expected(log: Log, k: nat): nat {
    if k < |log.live| then log.live[k] else log.base + (k - |log.live|)
  }

  // The cells from index u on are still unread; of those before it the reader holds the ones that carry its bit
  ghost predicate Reads<T>(p: Pool<T>, r: Reader<T>, u: nat)
    requires Partition(p)
  {
    && u <= |p.fifo| && r.bit in p.readerMask && NoDup(r.held)
    && (forall c :: c in r.held ==> c in p.fifo)
    && (forall k {:trigger p.fifo[k]} :: 0 <= k < |p.fifo| ==>
          if u <= k then r.bit in p.masks[p.fifo[k]] && p.fifo[k] !in r.held
          else r.bit in p.masks[p.fifo[k]] <==> p.fifo[k] in r.held)
  }

  // The window is a part of the unread cells, from the first one on
  ghost predicate Sees<T>(p: Pool<T>, r: Reader<T>, u: nat) {
    if r.first == None then r.last == None
    else
      && r.last.Some? && u < |p.fifo| && r.first == Some(p.fifo[u])
      && r.last.value in p.fifo && u <= Index(p.fifo, r.last.value)
  }

  // The reader has got exactly what it had to expect so far, and will get the unread cells next
  ghost predicate Delivers<T>(p: Pool<T>, stamps: map<T, nat>, pushes: nat, log: Log, u: nat) {
    && u <= |p.fifo| && log.base <= pushes
    && |log.popped| + (|p.fifo| - u) == |log.live| + (pushes - log.base)
    && (forall k :: 0 <= k < |log.popped| ==> log.popped[k] == Expected(log, k))
    && (forall k {:trigger p.fifo[k]} :: u <= k < |p.fifo| ==>
          p.fifo[k] in stamps && stamps[p.fifo[k]] == Expected(log, |log.popped| + (k - u)))
  }

  // What the reader holds it has popped
  ghost predicate Recorded<T>(r: Reader<T>, stamps: map<T, nat>, log: Log) {
    forall c :: c in r.held ==> c in stamps && stamps[c] in log.popped
  }

  ghost predicate ReaderOk<T>(p: Pool<T>, r: Reader<T>, stamps: map<T, nat>, pushes: nat, log: Log)
    requires Partition(p)
  {
    Recorded(r, stamps, log) && exists u: nat :: Reads(p, r, u) && Sees(p, r, u) && Delivers(p, stamps, pushes, log, u)
  }

  // ---- what each operation does to one reader

  // Operations on cells outside the FIFO
  lemma {:induction false} OutsideOk<T>(p: Pool<T>, q: Pool<T>, r: Reader<T>, stamps: map<T, nat>, pushes: nat,
                                        log: Log)
    requires Partition(p) && Partition(q) && ReaderOk(p, r, stamps, pushes, log)
    requires q.fifo == p.fifo && q.readerMask == p.readerMask && forall c :: c in p.fifo ==> q.masks[c] == p.masks[c]
    ensures ReaderOk(q, r, stamps, pushes, log)
  {
    var u: nat :| Reads(p, r, u) && Sees(p, r, u) && Delivers(p, stamps, pushes, log, u);
    assert Reads(q, r, u) && Sees(q, r, u) && Delivers(q, stamps, pushes, log, u);
  }

  lemma {:induction false} AppendReads<T>(p: Pool<T>, c: T, mask: set<nat>, r: Reader<T>, u: nat)
    requires Partition(p) && c in p.taken && Partition(Append(p, c, mask)) && Reads(p, r, u) && Sees(p, r, u)
    requires r.bit in mask
    ensures Reads(Append(p, c, mask), r, u) && Sees(Append(p, c, mask), r, u)
  {
    var q := Append(p, c, mask);
    assert forall k :: 0 <= k < |p.fifo| ==> q.fifo[k] == p.fifo[k] && p.fifo[k] in p.fifo;
    assert Reads(q, r, u);
    if r.last.Some? && r.last.value in p.fifo {
      IndexAt(q.fifo, Index(p.fifo, r.last.value));
    }
  }

  lemma {:induction false} AppendDelivers<T>(p: Pool<T>, c: T, mask: set<nat>, stamps: map<T, nat>, pushes: nat,
                                             log: Log, u: nat)
    requires Partition(p) && c in p.taken && Delivers(p, stamps, pushes, log, u)
    ensures Delivers(Append(p, c, mask), stamps[c := pushes], pushes + 1, log, u)
  {
    var q := Append(p, c, mask);
    forall k {:trigger q.fifo[k]} | u <= k < |q.fifo|
      ensures q.fifo[k] in stamps[c := pushes]
      ensures stamps[c := pushes][q.fifo[k]] == Expected(log, |log.popped| + (k - u))
    {
      assert k < |p.fifo| ==> q.fifo[k] == p.fifo[k] && p.fifo[k] in p.fifo;
    }
  }

  lemma {:induction false} AppendOk<T>(p: Pool<T>, c: T, mask: set<nat>, r: Reader<T>,
                                       stamps: map<T, nat>, pushes: nat, log: Log)
    requires Partition(p) && c in p.taken && Partition(Append(p, c, mask)) && ReaderOk(p, r, stamps, pushes, log)
    requires r.bit in mask
    ensures ReaderOk(Append(p, c, mask), r, stamps[c := pushes], pushes + 1, log)
  {
    var u: nat :| Reads(p, r, u) && Sees(p, r, u) && Delivers(p, stamps, pushes, log, u);
    AppendReads(p, c, mask, r, u);
    AppendDelivers(p, c, mask, stamps, pushes, log, u);
  }

  // An append keeps the delivery to a reader exactly if the mask that was read carries its bit
  lemma {:induction false} AppendExactly<T>(p: Pool<T>, c: T, mask: set<nat>, r: Reader<T>,
                                            stamps: map<T, nat>, pushes: nat, log: Log)
    requires Partition(p) && c in p.taken && Partition(Append(p, c, mask)) && ReaderOk(p, r, stamps, pushes, log)
    ensures ReaderOk(Append(p, c, mask), r, stamps[c := pushes], pushes + 1, log) <==> r.bit in mask
  {
    var q := Append(p, c, mask);
    if r.bit in mask {
      AppendOk(p, c, mask, r, stamps, pushes, log);
    } else {
      assert q.fifo[|p.fifo|] == c;
      assert forall u: nat :: Delivers(p, stamps, pushes, log, u) ==> |log.popped| <= |log.live| + (pushes - log.base);
    }
  }

  lemma {:induction false} AdmitOk<T>(p: Pool<T>, bit: nat, r: Reader<T>, stamps: map<T, nat>, pushes: nat, log: Log)
    requires Partition(p) && Partition(Admit(p, bit)) && ReaderOk(p, r, stamps, pushes, log)
    ensures ReaderOk(Admit(p, bit), r, stamps, pushes, log)
  {
    var u: nat :| Reads(p, r, u) && Sees(p, r, u) && Delivers(p, stamps, pushes, log, u);
    assert Reads(Admit(p, bit), r, u) && Sees(Admit(p, bit), r, u) && Delivers(Admit(p, bit), stamps, pushes, log, u);
  }

  lemma {:induction false} MarkOk<T>(p: Pool<T>, bit: nat, r: Reader<T>, stamps: map<T, nat>, pushes: nat, log: Log)
    requires Partition(p) && Partition(Mark(p, bit)) && r.bit != bit && ReaderOk(p, r, stamps, pushes, log)
    ensures ReaderOk(Mark(p, bit), r, stamps, pushes, log)
  {
    var q := Mark(p, bit);
    var u: nat :| Reads(p, r, u) && Sees(p, r, u) && Delivers(p, stamps, pushes, log, u);
    assert forall k :: 0 <= k < |p.fifo| ==> p.fifo[k] in p.fifo;
    assert Reads(q, r, u) && Sees(q, r, u) && Delivers(q, stamps, pushes, log, u);
  }

  function NewReader<T>(bit: nat): Reader<T> {
    Reader(bit, None, None, [])
  }

  // The numbers of the items in the FIFO
  function Stamps<T>(fifo: seq<T>, stamps: map<T, nat>): seq<nat>
    requires forall c :: c in fifo ==> c in stamps
  {
    seq(|fifo|, k requires 0 <= k < |fifo| => assert fifo[k] in fifo; stamps[fifo[k]])
  }

  lemma {:induction false} NewReaderOk<T>(p: Pool<T>, bit: nat, stamps: map<T, nat>, pushes: nat)
    requires Partition(p) && Partition(Mark(p, bit)) && bit in p.readerMask && forall c :: c in p.fifo ==> c in stamps
    ensures ReaderOk(Mark(p, bit), NewReader(bit), stamps, pushes, Log(Stamps(p.fifo, stamps), pushes, []))
  {
    var q, r, log := Mark(p, bit), NewReader<T>(bit), Log(Stamps(p.fifo, stamps), pushes, []);
    assert forall k :: 0 <= k < |p.fifo| ==> p.fifo[k] in p.fifo;
    assert Reads(q, r, 0) && Sees(q, r, 0) && Delivers(q, stamps, pushes, log, 0);
  }

  // The first cell that carries the bit is unread if nothing is held
  lemma {:induction false} StartsUnread<T>(p: Pool<T>, r: Reader<T>, u: nat)
    requires Partition(p) && Reads(p, r, u) && r.held == []
    ensures FirstWith(p.fifo, p.masks, r.bit) == u
  {
    var k := FirstWith(p.fifo, p.masks, r.bit);
    assert k < |p.fifo| ==> p.fifo[k] !in r.held;
    assert u < |p.fifo| ==> p.fifo[u] !in r.held;
  }

  lemma {:induction false} SynchronizeOk<T>(p: Pool<T>, r: Reader<T>, volume: nat, stamps: map<T, nat>, pushes: nat,
                                            log: Log)
    requires Partition(p) && ReaderOk(p, r, stamps, pushes, log) && CanSynchronize(p, r, volume)
    requires r.first == None ==> r.held == []
    ensures ReaderOk(p, FifoPool.Synchronize(p, r, volume), stamps, pushes, log)
  {
    var u: nat :| Reads(p, r, u) && Sees(p, r, u) && Delivers(p, stamps, pushes, log, u);
    var from, s := SyncStart(p, r), FifoPool.Synchronize(p, r, volume);
    if r.first == None {
      StartsUnread(p, r, u);
    }
    IndexAt(p.fifo, from + volume - 1);
    assert Reads(p, s, u) && Sees(p, s, u);
  }

  // The next cell the reader gets
  lemma {:induction false} PopReads<T>(p: Pool<T>, r: Reader<T>, u: nat)
    requires Partition(p) && Reads(p, r, u) && Sees(p, r, u) && r.first.Some? && |r.held| < MAXIMUM_FIFO_READER_LINKS
    ensures CanPop(p, r) && u < |p.fifo| && r.first.value == p.fifo[u]
    ensures Reads(p, FifoPool.Pop(p, r), u + 1) && Sees(p, FifoPool.Pop(p, r), u + 1)
  {
    IndexAt(p.fifo, u);
    MovedToFront(r.held, p.fifo[u]);
    NoDupFrom(p.fifo, u);
  }

  lemma {:induction false} PopDelivers<T>(p: Pool<T>, stamps: map<T, nat>, pushes: nat, log: Log, u: nat)
    requires Delivers(p, stamps, pushes, log, u) && u < |p.fifo|
    ensures p.fifo[u] in stamps && Delivers(p, stamps, pushes, log.(popped := log.popped + [stamps[p.fifo[u]]]), u + 1)
  {
    assert p.fifo[u] in stamps;
    var log' := log.(popped := log.popped + [stamps[p.fifo[u]]]);
    assert forall k :: Expected(log', k) == Expected(log, k);
  }

  lemma {:induction false} PopOk<T>(p: Pool<T>, r: Reader<T>, stamps: map<T, nat>, pushes: nat, log: Log)
    requires Partition(p) && ReaderOk(p, r, stamps, pushes, log) && r.first.Some? &&
      |r.held| < MAXIMUM_FIFO_READER_LINKS
    ensures CanPop(p, r) && r.first.value in stamps
    ensures ReaderOk(p, FifoPool.Pop(p, r), stamps, pushes, log.(popped := log.popped + [stamps[r.first.value]]))
  {
    var u: nat :| Reads(p, r, u) && Sees(p, r, u) && Delivers(p, stamps, pushes, log, u);
    PopReads(p, r, u);
    PopDelivers(p, stamps, pushes, log, u);
    var log' := log.(popped := log.popped + [stamps[p.fifo[u]]]);
    assert log'.popped[|log.popped|] == stamps[p.fifo[u]];
    assert forall x :: x in log.popped ==> x in log'.popped;
  }

  // ---- the release of a held cell

  // Index u when the element at index x has been taken out, if it has
  function Shifted(u: nat, x: nat, gone: bool): nat {
    if gone && x < u then u - 1 else u
  }

  // A reader that does not hold c, or holds it and releases it
  lemma {:induction false} ReleaseReads<T>(p: Pool<T>, c: T, bit: nat, r: Reader<T>, s: Reader<T>, u: nat)
    requires Partition(p) && c in p.fifo && Partition(FifoPool.ReleaseElement(p, c, bit)) && Reads(p, r, u)
    requires if r.bit == bit then c in r.held && s == FifoPool.ReleaseHeld(r, c) else s == r
    requires bit in p.masks[c]
    ensures Reads(FifoPool.ReleaseElement(p, c, bit), s, Shifted(u, Index(p.fifo, c), p.masks[c] == {bit}))
  {
    var q, x := FifoPool.ReleaseElement(p, c, bit), Index(p.fifo, c);
    var gone := p.masks[c] == {bit};
    assert p.masks[c] - {bit} == {} <==> gone;
    if r.bit == bit {
      TakenOut(r.held, c);
    }
  }

  // The FIFO loses a cell exactly when its last bit is released
  lemma {:induction false} ReleasedFifo<T>(p: Pool<T>, c: T, bit: nat)
    requires c in p.fifo && c in p.masks && bit in p.masks[c]
    ensures var q := FifoPool.ReleaseElement(p, c, bit);
      if p.masks[c] == {bit} then RemovesAt(p.fifo, Index(p.fifo, c), q.fifo) else q.fifo == p.fifo
  {
    assert p.masks[c] - {bit} == {} <==> p.masks[c] == {bit};
    WithoutRemoves(p.fifo, Index(p.fifo, c));
  }

  lemma {:induction false} ReleaseSees<T>(p: Pool<T>, c: T, bit: nat, r: Reader<T>, s: Reader<T>, u: nat)
    requires Partition(p) && c in p.fifo && Partition(FifoPool.ReleaseElement(p, c, bit)) && Sees(p, r, u)
    requires s.first == r.first && s.last == r.last
    requires bit in p.masks[c] && (p.masks[c] == {bit} ==> Index(p.fifo, c) < u)
    ensures Sees(FifoPool.ReleaseElement(p, c, bit), s, Shifted(u, Index(p.fifo, c), p.masks[c] == {bit}))
  {
    var q := FifoPool.ReleaseElement(p, c, bit);
    ReleasedFifo(p, c, bit);
    if r.first != None && p.masks[c] == {bit} {
      SeesRemoved(p.fifo, Index(p.fifo, c), q.fifo, u, Index(p.fifo, r.last.value));
    }
  }

  // The window moves up with the cells
  lemma {:induction false} SeesRemoved<T>(a: seq<T>, x: nat, b: seq<T>, u: nat, e: nat)
    requires RemovesAt(a, x, b) && NoDup(b) && x < u <= e < |a|
    ensures b[u - 1] == a[u] && a[e] in b && Index(b, a[e]) == e - 1
  {
    assert b[e - 1] == a[e];
    IndexAt(b, e - 1);
  }

  lemma {:induction false} ReleaseDelivers<T>(p: Pool<T>, c: T, bit: nat, stamps: map<T, nat>, pushes: nat, log: Log,
                                              u: nat)
    requires Partition(p) && c in p.fifo && Delivers(p, stamps, pushes, log, u)
    requires bit in p.masks[c] && (p.masks[c] == {bit} ==> Index(p.fifo, c) < u)
    ensures Delivers(FifoPool.ReleaseElement(p, c, bit), stamps, pushes, log,
                     Shifted(u, Index(p.fifo, c), p.masks[c] == {bit}))
  {
    var q, x := FifoPool.ReleaseElement(p, c, bit), Index(p.fifo, c);
    ReleasedFifo(p, c, bit);
    if p.masks[c] == {bit} {
      forall k {:trigger q.fifo[k]} | u - 1 <= k < |q.fifo|
        ensures q.fifo[k] in stamps && stamps[q.fifo[k]] == Expected(log, |log.popped| + (k - (u - 1)))
      {
        assert q.fifo[k] == p.fifo[k + 1];
      }
    }
  }

  lemma {:induction false} ReleaseOk<T>(p: Pool<T>, c: T, bit: nat, r: Reader<T>, s: Reader<T>,
                                        stamps: map<T, nat>, pushes: nat, log: Log)
    requires Partition(p) && c in p.fifo && Partition(FifoPool.ReleaseElement(p, c, bit))
    requires ReaderOk(p, r, stamps, pushes, log) && bit in p.masks[c]
    requires if r.bit == bit then c in r.held && s == FifoPool.ReleaseHeld(r, c) else s == r
    ensures ReaderOk(FifoPool.ReleaseElement(p, c, bit), s, stamps, pushes, log)
  {
    var u: nat :| Reads(p, r, u) && Sees(p, r, u) && Delivers(p, stamps, pushes, log, u);
    var x := Index(p.fifo, c);
    ReleaseReads(p, c, bit, r, s, u);
    assert p.masks[c] == {bit} ==> x < u by {
      assert p.fifo[x] == c;
    }
    ReleaseSees(p, c, bit, r, s, u);
    ReleaseDelivers(p, c, bit, stamps, pushes, log, u);
    if r.bit == bit {
      TakenOut(r.held, c);
    }
  }

  // ---- runs

  function Step<T(==)>(s: System<T>, a: Action<T>): System<T>
    requires Partition(s.pool) && Enabled(s, a)
  {
    match a
    case Allocate => s.(pool := FifoPool.Allocate(s.pool))
    case Release(c, bit) => s.(pool := FifoPool.Release(s.pool, c, bit))
    case PushTake(c) => s.(flights := s.flights[c := s.pool.readerMask])
    case PushAppend(c) =>
      s.(pool := Append(s.pool, c, s.flights[c]), stamps := s.stamps[c := s.pushes], pushes := s.pushes + 1,
         flights := s.flights - {c})
    case PopFirst => s.(pool := FifoPool.PopFirst(s.pool))
    case JoinMask =>
      var bit := NewBit(s.pool, s.readers == []);
      s.(pool := Admit(s.pool, bit), readers := s.readers + [NewReader(bit)], logs := s.logs + [Log([], 0, [])],
         joining := s.joining + {|s.readers|})
    case JoinMark(i) =>
      s.(pool := Mark(s.pool, s.readers[i].bit), logs := s.logs[i := Log(Stamps(s.pool.fifo, s.stamps), s.pushes, [])],
         joining := s.joining - {i})
    case Synchronize(i, volume) => s.(readers := s.readers[i := FifoPool.Synchronize(s.pool, s.readers[i], volume)])
    case Pop(i) =>
      var r, log := s.readers[i], s.logs[i];
      s.(readers := s.readers[i := FifoPool.Pop(s.pool, r)],
         logs := s.logs[i := log.(popped := log.popped + [s.stamps[r.first.value]])])
    case ReleaseHeld(i, c) =>
      s.(pool := FifoPool.ReleaseElement(s.pool, c, s.readers[i].bit),
         readers := s.readers[i := FifoPool.ReleaseHeld(s.readers[i], c)])
  }

  // A reader is synchronized after it has joined, and after it has released what it popped if it sees nothing
  predicate Enabled<T(==)>(s: System<T>, a: Action<T>)
    requires Partition(s.pool)
  {
    match a
    case Allocate => s.pool.unused != []
    case Release(c, bit) => c in s.pool.taken && c !in s.flights
    case PushTake(c) => c in s.pool.taken && c !in s.flights
    case PushAppend(c) => c in s.pool.taken && c in s.flights
    case PopFirst => s.readers == [] && s.pool.fifo != []
    case JoinMask => |s.readers| < 8
    case JoinMark(i) => i in s.joining && i < |s.readers| == |s.logs| && forall c :: c in s.pool.fifo ==> c in s.stamps
    case Synchronize(i, volume) =>
      && i < |s.readers| && i !in s.joining && CanSynchronize(s.pool, s.readers[i], volume)
      && (s.readers[i].first == None ==> s.readers[i].held == [])
    case Pop(i) => i < |s.readers| == |s.logs| && CanPop(s.pool, s.readers[i]) && s.readers[i].first.value in s.stamps
    case ReleaseHeld(i, c) => i < |s.readers| && c in s.readers[i].held && c in s.pool.fifo
  }

  // No push that has read the mask before a reader entered it is still in flight when the reader marks the cells
  predicate Timely<T(==)>(s: System<T>, a: Action<T>)
    requires Partition(s.pool) && Enabled(s, a)
  {
    a.JoinMark? ==> forall c :: c in s.flights ==> s.readers[a.i].bit in s.flights[c]
  }

  ghost predicate RunEnabled<T>(s: System<T>, run: seq<Action<T>>)
    decreases |run|
  {
    run == [] ||
    (Partition(s.pool) && Enabled(s, run[0]) && Timely(s, run[0]) && RunEnabled(Step(s, run[0]), run[1..]))
  }

  ghost function After<T>(s: System<T>, run: seq<Action<T>>): System<T>
    requires RunEnabled(s, run)
    decreases |run|
  {
    if run == [] then s else After(Step(s, run[0]), run[1..])
  }

  // Without readers there is one bit as well
  function Bits(n: nat): (r: set<nat>)
    ensures forall b :: b in r <==> 0 <= b < (if n == 0 then 1 else n)
  {
    if n <= 1 then {0} else Bits(n - 1) + {n - 1}
  }

  // A reader that has not joined yet has only its bit
  ghost predicate ReaderState<T>(s: System<T>, i: nat)
    requires Partition(s.pool) && i < |s.readers| == |s.logs|
  {
    && s.readers[i].bit == i
    && if i in s.joining then s.readers[i] == NewReader(i)
       else ReaderOk(s.pool, s.readers[i], s.stamps, s.pushes, s.logs[i])
  }

  // A cell in flight will carry the bits of all readers that have joined
  ghost predicate FlightsOk<T>(s: System<T>) {
    forall c :: c in s.flights ==>
      && c in s.pool.taken && s.flights[c] <= s.pool.readerMask
      && forall i :: 0 <= i < |s.readers| && i !in s.joining ==> i in s.flights[c]
  }

  ghost predicate Invariant<T>(s: System<T>) {
    && Partition(s.pool) && |s.readers| == |s.logs| <= 8 && s.pool.readerMask == Bits(|s.readers|)
    && (forall c :: c in s.pool.fifo ==> c in s.stamps)
    && FlightsOk(s)
    && forall i: nat :: i < |s.readers| ==> ReaderState(s, i)
  }

  // All cells are unused
  ghost predicate Initial<T>(s: System<T>) {
    && Partition(s.pool) && s.pool.taken == [] && s.pool.fifo == [] && s.pool.readerMask == {0}
    && s.readers == [] && s.logs == [] && s.flights == map[] && s.joining == {}
  }

  lemma {:induction false} NextBit(n: nat)
    requires 0 < n
    ensures FreeBit(Bits(n), 1) == n && Bits(n) + {n} == Bits(n + 1)
  {
    var r := FreeBit(Bits(n), 1);
    assert n !in Bits(n) && (r < n ==> r in Bits(n));
  }

  // The operations on cells outside the FIFO
  lemma {:induction false} OutsideStep<T>(s: System<T>, q: Pool<T>)
    requires Invariant(s) && Partition(q) && forall c :: c in s.flights ==> c in q.taken
    requires q.fifo == s.pool.fifo && q.readerMask == s.pool.readerMask
    requires forall c :: c in q.fifo ==> q.masks[c] == s.pool.masks[c]
    ensures Invariant(s.(pool := q))
  {
    var s' := s.(pool := q);
    forall i: nat | i < |s'.readers| ensures ReaderState(s', i) {
      assert ReaderState(s, i);
      if i !in s.joining {
        OutsideOk(s.pool, q, s.readers[i], s.stamps, s.pushes, s.logs[i]);
      }
    }
  }

  lemma {:induction false} ReleaseOutsideStep<T>(s: System<T>, c: T, bit: nat)
    requires Invariant(s) && Enabled(s, Release(c, bit))
    ensures Invariant(Step(s, Release(c, bit)))
  {
    ReleaseKeeps(s.pool, c, bit);
    TakenOut(s.pool.taken, c);
    OutsideStep(s, FifoPool.Release(s.pool, c, bit));
  }

  lemma {:induction false} TakeStep<T>(s: System<T>, c: T)
    requires Invariant(s) && Enabled(s, PushTake(c))
    ensures Invariant(Step(s, PushTake(c)))
  {
    var s' := Step(s, PushTake(c));
    forall i: nat | i < |s'.readers| ensures ReaderState(s', i) {
      assert ReaderState(s, i);
    }
  }

  lemma {:induction false} AppendFlights<T>(s: System<T>, c: T)
    requires Invariant(s) && Enabled(s, PushAppend(c))
    ensures FlightsOk(Step(s, PushAppend(c)))
  {
    TakenOut(s.pool.taken, c);
  }

  lemma {:induction false} AppendReader<T>(s: System<T>, c: T, i: nat)
    requires Partition(s.pool) && Enabled(s, PushAppend(c)) && Partition(Step(s, PushAppend(c)).pool)
    requires i < |s.readers| == |s.logs| && ReaderState(s, i) && (i in s.joining || i in s.flights[c])
    ensures ReaderState(Step(s, PushAppend(c)), i)
  {
    if i !in s.joining {
      AppendOk(s.pool, c, s.flights[c], s.readers[i], s.stamps, s.pushes, s.logs[i]);
    }
  }

  lemma {:induction false} AppendStep<T>(s: System<T>, c: T)
    requires Invariant(s) && Enabled(s, PushAppend(c))
    ensures Invariant(Step(s, PushAppend(c)))
  {
    AppendKeeps(s.pool, c, s.flights[c]);
    AppendFlights(s, c);
    forall i: nat | i < |s.readers| ensures ReaderState(Step(s, PushAppend(c)), i) {
      AppendReader(s, c, i);
    }
  }

  lemma {:induction false} JoinBit<T>(s: System<T>)
    requires Invariant(s) && |s.readers| < 8
    ensures var n, bit := |s.readers|, NewBit(s.pool, s.readers == []);
      bit == n && Narrow({bit}) == {bit} && Bits(n) + {bit} == Bits(n + 1)
  {
    var n := |s.readers|;
    if 0 < n { NextBit(n); }
    assert Bits(n) + {n} == Bits(n + 1);
  }

  lemma {:induction false} MaskStep<T>(s: System<T>)
    requires Invariant(s) && Enabled(s, JoinMask)
    ensures Invariant(Step(s, JoinMask))
  {
    JoinBit(s);
    var n, s' := |s.readers|, Step(s, JoinMask);
    forall i: nat | i < |s'.readers| ensures ReaderState(s', i) {
      if i < n {
        assert s'.readers[i] == s.readers[i] && s'.logs[i] == s.logs[i];
        assert ReaderState(s, i);
        if i !in s.joining {
          AdmitOk(s.pool, n, s.readers[i], s.stamps, s.pushes, s.logs[i]);
        }
      }
    }
  }

  // The readers when reader i has marked the cells, whatever is in flight
  lemma {:induction false} MarkReaders<T>(s: System<T>, i: nat)
    requires Invariant(s) && Enabled(s, JoinMark(i))
    ensures var s' := Step(s, JoinMark(i));
      && Partition(s'.pool) && s'.pool.fifo == s.pool.fifo && s'.pool.taken == s.pool.taken
      && s'.pool.readerMask == s.pool.readerMask && s.readers[i].bit == i
      && forall k: nat :: k < |s'.readers| ==> ReaderState(s', k)
  {
    MarkKeeps(s.pool, s.readers[i].bit);
    assert ReaderState(s, i);
    var s' := Step(s, JoinMark(i));
    forall k: nat | k < |s'.readers| ensures ReaderState(s', k) {
      assert ReaderState(s, k);
      if k == i {
        NewReaderOk(s.pool, i, s.stamps, s.pushes);
      } else if k !in s.joining {
        MarkOk(s.pool, i, s.readers[k], s.stamps, s.pushes, s.logs[k]);
      }
    }
  }

  lemma {:induction false} MarkStep<T>(s: System<T>, i: nat)
    requires Invariant(s) && Enabled(s, JoinMark(i)) && Timely(s, JoinMark(i))
    ensures Invariant(Step(s, JoinMark(i)))
  {
    MarkReaders(s, i);
  }

  lemma {:induction false} ReaderStep<T>(s: System<T>, i: nat, r: Reader<T>, log: Log)
    requires Invariant(s) && i < |s.readers| && i !in s.joining
    requires r.bit == i && ReaderOk(s.pool, r, s.stamps, s.pushes, log)
    ensures Invariant(s.(readers := s.readers[i := r], logs := s.logs[i := log]))
  {
    var s' := s.(readers := s.readers[i := r], logs := s.logs[i := log]);
    forall k: nat | k < |s'.readers| ensures ReaderState(s', k) {
      assert k != i ==> ReaderState(s, k) && s'.readers[k] == s.readers[k];
    }
  }

  lemma {:induction false} ReleaseStep<T>(s: System<T>, i: nat, c: T)
    requires Invariant(s) && Enabled(s, ReleaseHeld(i, c))
    ensures i in s.pool.masks[c] && Invariant(Step(s, ReleaseHeld(i, c)))
  {
    var s' := Step(s, ReleaseHeld(i, c));
    assert ReaderState(s, i);
    ReleaseElementKeeps(s.pool, c, i);
    HeldCarries(s.pool, s.readers[i], s.stamps, s.pushes, s.logs[i], c);
    forall k: nat | k < |s'.readers| ensures ReaderState(s', k) {
      assert ReaderState(s, k);
      if k !in s.joining {
        ReleaseOk(s.pool, c, i, s.readers[k], s'.readers[k], s.stamps, s.pushes, s.logs[k]);
      }
    }
  }

  // A held cell is in the FIFO and carries the bit of its reader
  lemma {:induction false} HeldCarries<T>(p: Pool<T>, r: Reader<T>, stamps: map<T, nat>, pushes: nat, log: Log, c: T)
    requires Partition(p) && ReaderOk(p, r, stamps, pushes, log) && c in r.held
    ensures c in p.fifo && r.bit in p.masks[c]
  {
    var u: nat :| Reads(p, r, u) && Sees(p, r, u) && Delivers(p, stamps, pushes, log, u);
    assert p.fifo[Index(p.fifo, c)] == c;
  }

  lemma {:induction false} SynchronizeStep<T>(s: System<T>, i: nat, volume: nat)
    requires Invariant(s) && Enabled(s, Synchronize(i, volume))
    ensures Invariant(Step(s, Synchronize(i, volume)))
  {
    assert ReaderState(s, i);
    SynchronizeOk(s.pool, s.readers[i], volume, s.stamps, s.pushes, s.logs[i]);
    ReaderStep(s, i, FifoPool.Synchronize(s.pool, s.readers[i], volume), s.logs[i]);
    assert s.logs[i := s.logs[i]] == s.logs;
  }

  lemma {:induction false} PopStep<T>(s: System<T>, i: nat)
    requires Invariant(s) && Enabled(s, Pop(i))
    ensures Invariant(Step(s, Pop(i)))
  {
    assert ReaderState(s, i);
    PopOk(s.pool, s.readers[i], s.stamps, s.pushes, s.logs[i]);
    ReaderStep(s, i, FifoPool.Pop(s.pool, s.readers[i]), Step(s, Pop(i)).logs[i]);
  }

  lemma {:induction false} PopFirstStep<T>(s: System<T>)
    requires Invariant(s) && Enabled(s, PopFirst)
    ensures Invariant(Step(s, PopFirst))
  {
    PopFirstKeeps(s.pool);
  }

  lemma {:induction false} AllocateStep<T>(s: System<T>)
    requires Invariant(s) && Enabled(s, Allocate)
    ensures Invariant(Step(s, Allocate))
  {
    AllocateKeeps(s.pool);
    OutsideStep(s, FifoPool.Allocate(s.pool));
  }

  lemma {:induction false} StepInvariant<T>(s: System<T>, a: Action<T>)
    requires Invariant(s) && Enabled(s, a) && Timely(s, a)
    ensures Invariant(Step(s, a))
  {
    match a
    case Allocate => AllocateStep(s);
    case Release(c, bit) => ReleaseOutsideStep(s, c, bit);
    case PushTake(c) => TakeStep(s, c);
    case PushAppend(c) => AppendStep(s, c);
    case PopFirst => PopFirstStep(s);
    case JoinMask => MaskStep(s);
    case JoinMark(i) => MarkStep(s, i);
    case Synchronize(i, volume) => SynchronizeStep(s, i, volume);
    case Pop(i) => PopStep(s, i);
    case ReleaseHeld(i, c) => ReleaseStep(s, i, c);
  }

  // No cell is added or gets lost
  lemma {:induction false} StepCells<T>(s: System<T>, a: Action<T>)
    requires Partition(s.pool) && Enabled(s, a)
    ensures Step(s, a).pool.masks.Keys == s.pool.masks.Keys
  {
  }

  lemma {:induction false} RunInvariant<T>(s: System<T>, run: seq<Action<T>>)
    requires Invariant(s) && RunEnabled(s, run)
    ensures Invariant(After(s, run)) && After(s, run).pool.masks.Keys == s.pool.masks.Keys
    decreases |run|
  {
    if run != [] {
      StepInvariant(s, run[0]);
      StepCells(s, run[0]);
      RunInvariant(Step(s, run[0]), run[1..]);
    }
  }

  // ---- the main results

  // What a reader had to expect when it joined never changes
  lemma {:induction false} LogsKept<T>(s: System<T>, run: seq<Action<T>>, i: nat)
    requires Invariant(s) && RunEnabled(s, run) && i < |s.readers| && i !in s.joining
    ensures var s' := After(s, run);
      && i < |s'.readers| == |s'.logs| && i !in s'.joining
      && s'.logs[i].live == s.logs[i].live && s'.logs[i].base == s.logs[i].base
    decreases |run|
  {
    RunInvariant(s, run);
    if run != [] {
      StepInvariant(s, run[0]);
      LogsKept(Step(s, run[0]), run[1..], i);
    }
  }

  // The numbers a, ..., b - 1
  function Between(a: nat, b: nat): seq<nat>
    requires a <= b
  {
    seq(b - a, k requires 0 <= k => a + k)
  }

  // What has been popped, followed by the unread cells, is all that had to be expected
  lemma {:induction false} DeliversAll<T>(p: Pool<T>, stamps: map<T, nat>, pushes: nat, log: Log, u: nat)
    requires Delivers(p, stamps, pushes, log, u) && forall c :: c in p.fifo ==> c in stamps
    ensures log.popped + Stamps(p.fifo[u..], stamps) == log.live + Between(log.base, pushes)
  {
    var all, got := log.live + Between(log.base, pushes), log.popped + Stamps(p.fifo[u..], stamps);
    assert |got| == |all|;
    forall k | 0 <= k < |all| ensures got[k] == all[k] {
      assert all[k] == Expected(log, k);
      if |log.popped| <= k {
        assert p.fifo[u..][k - |log.popped|] == p.fifo[u + (k - |log.popped|)];
      }
    }
  }

  // A reader that joins at some time pops what is in the FIFO then and every later push, in order, without gap or
  // repeat: what it has popped so far, followed by the unread end of the FIFO, is just that
  lemma {:induction false} ExactlyOnce<T>(s: System<T>, before: seq<Action<T>>, i: nat, run: seq<Action<T>>)
    requires Initial(s) && RunEnabled(s, before) && Partition(After(s, before).pool)
    requires Enabled(After(s, before), JoinMark(i)) && Timely(After(s, before), JoinMark(i))
    requires RunEnabled(Step(After(s, before), JoinMark(i)), run)
    ensures var t := After(s, before);
      var t' := After(Step(t, JoinMark(i)), run);
      && i < |t'.logs| && t.pushes <= t'.pushes && (forall c :: c in t'.pool.fifo ==> c in t'.stamps)
      && exists u :: 0 <= u <= |t'.pool.fifo| &&
           t'.logs[i].popped + Stamps(t'.pool.fifo[u..], t'.stamps) ==
           Stamps(t.pool.fifo, t.stamps) + Between(t.pushes, t'.pushes)
  {
    RunInvariant(s, before);
    var t := After(s, before);
    var t1 := Step(t, JoinMark(i));
    StepInvariant(t, JoinMark(i));
    RunInvariant(t1, run);
    LogsKept(t1, run, i);
    var t' := After(t1, run);
    assert ReaderState(t', i);
    var p, r, log := t'.pool, t'.readers[i], t'.logs[i];
    var u: nat :| Reads(p, r, u) && Sees(p, r, u) && Delivers(p, t'.stamps, t'.pushes, log, u);
    DeliversAll(p, t'.stamps, t'.pushes, log, u);
  }

  // A cell that a reader has popped and not released stays in the FIFO, apart from all unused and allocated cells
  lemma {:induction false} HeldIsSafe<T>(s: System<T>, run: seq<Action<T>>, i: nat, c: T)
    requires Initial(s) && RunEnabled(s, run) && i < |After(s, run).readers| && c in After(s, run).readers[i].held
    ensures var s' := After(s, run);
      Partition(s'.pool) && c in s'.pool.fifo && c !in s'.pool.unused && c !in s'.pool.taken && i in s'.pool.masks[c]
  {
    RunInvariant(s, run);
    var s' := After(s, run);
    assert ReaderState(s', i);
    HeldCarries(s'.pool, s'.readers[i], s'.stamps, s'.pushes, s'.logs[i], c);
  }

  // A cell leaves the FIFO for the unused ones only by the release of the last reader whose bit it carries
  lemma {:induction false} RecycledWhenRead<T>(s: System<T>, a: Action<T>, c: T)
    requires Invariant(s) && Enabled(s, a) && c in s.pool.fifo && c in Step(s, a).pool.unused
    ensures a.ReleaseHeld? && a.cell == c && a.i < |s.readers| && s.pool.masks[c] == {a.i}
    ensures forall i :: 0 <= i < |s.readers| && i != a.i ==> c !in s.readers[i].held
  {
    OthersKeep(s, a, c);
    assert ReaderState(s, a.i);
    HeldCarries(s.pool, s.readers[a.i], s.stamps, s.pushes, s.logs[a.i], a.cell);
    ReleasedLast(s.pool, a.cell, a.i, c);
    forall i | 0 <= i < |s.readers| && i != a.i ensures c !in s.readers[i].held {
      NotHeld(s, i, c);
    }
  }

  lemma {:induction false} OthersKeep<T>(s: System<T>, a: Action<T>, c: T)
    requires Invariant(s) && Enabled(s, a) && c in s.pool.fifo
    ensures c in Step(s, a).pool.unused ==> a.ReleaseHeld?
  {
    assert a.ReleaseHeld? || forall x :: x in Step(s, a).pool.unused ==> x in s.pool.unused || x in s.pool.taken;
  }

  lemma {:induction false} ReleasedLast<T>(p: Pool<T>, c: T, bit: nat, x: T)
    requires Partition(p) && c in p.fifo && bit in p.masks[c] && x in p.fifo &&
      x in FifoPool.ReleaseElement(p, c, bit).unused
    ensures x == c && p.masks[c] == {bit}
  {
    assert p.masks[c] - {bit} == {} ==> p.masks[c] == {bit};
  }

  lemma {:induction false} NotHeld<T>(s: System<T>, i: nat, c: T)
    requires Invariant(s) && i < |s.readers| && c in s.pool.fifo && i !in s.pool.masks[c]
    ensures c !in s.readers[i].held
  {
    assert ReaderState(s, i);
    if c in s.readers[i].held {
      HeldCarries(s.pool, s.readers[i], s.stamps, s.pushes, s.logs[i], c);
    }
  }

  // ---- what is needed for it

  // A synchronization keeps the delivery in order exactly if an empty reader holds nothing
  lemma {:induction false} SynchronizeExactly<T>(p: Pool<T>, r: Reader<T>, volume: nat, stamps: map<T, nat>,
                                                 pushes: nat, log: Log)
    requires Partition(p) && ReaderOk(p, r, stamps, pushes, log) && CanSynchronize(p, r, volume)
    ensures ReaderOk(p, FifoPool.Synchronize(p, r, volume), stamps, pushes, log) <==> (r.first == None ==> r.held == [])
    ensures r.first == None && r.held != [] ==>
      var c := FifoPool.Synchronize(p, r, volume).first.value; c in r.held && c in stamps && stamps[c] in log.popped
  {
    if r.first == None && r.held != [] {
      var u: nat :| Reads(p, r, u) && Sees(p, r, u) && Delivers(p, stamps, pushes, log, u);
      StartsHeld(p, r, u);
    } else {
      SynchronizeOk(p, r, volume, stamps, pushes, log);
    }
  }

  lemma {:induction false} StartsHeld<T>(p: Pool<T>, r: Reader<T>, u: nat)
    requires Partition(p) && Reads(p, r, u) && r.held != []
    ensures var k := FirstWith(p.fifo, p.masks, r.bit); k < |p.fifo| && p.fifo[k] in r.held
  {
    var x, k := Index(p.fifo, r.held[0]), FirstWith(p.fifo, p.masks, r.bit);
    assert r.held[0] in p.fifo && p.fifo[x] == r.held[0];
    assert k <= x < u;
  }

  // The reader marks the cells of the FIFO while a cell is in flight, and that is appended afterwards
  function MarkThenAppend<T(==)>(s: System<T>, i: nat, c: T): System<T>
    requires Partition(s.pool) && Enabled(s, JoinMark(i)) && c in s.flights && c in s.pool.taken
  {
    MarkKeeps(s.pool, s.readers[i].bit);
    Step(Step(s, JoinMark(i)), PushAppend(c))
  }

  lemma {:induction false} MarkThenAppendCells<T>(s: System<T>, i: nat, c: T)
    requires Partition(s.pool) && Enabled(s, JoinMark(i)) && s.readers[i].bit == i
    requires c in s.flights && c in s.pool.taken
    ensures var p, s2 := Mark(s.pool, i), MarkThenAppend(s, i, c);
      && Partition(p) && s2.pool == Append(p, c, s.flights[c]) && Partition(s2.pool)
      && s2.readers == s.readers && s2.stamps == s.stamps[c := s.pushes] && s2.pushes == s.pushes + 1
      && i < |s2.logs| == |s2.readers| && s2.logs[i] == JoinLog(s)
  {
    MarkKeeps(s.pool, i);
    AppendKeeps(Mark(s.pool, i), c, s.flights[c]);
  }

  lemma {:induction false} JoiningReader<T>(s: System<T>, i: nat, c: T)
    requires Invariant(s) && Enabled(s, JoinMark(i)) && c in s.flights
    ensures c in s.pool.taken && s.readers[i] == NewReader(i) && i in s.pool.readerMask
  {
    assert ReaderState(s, i);
  }

  // What a reader has to expect that marks the cells now
  function JoinLog<T>(s: System<T>): Log
    requires forall c :: c in s.pool.fifo ==> c in s.stamps
  {
    Log(Stamps(s.pool.fifo, s.stamps), s.pushes, [])
  }

  lemma {:induction false} LateExactly<T>(p: Pool<T>, q: Pool<T>, i: nat, c: T, mask: set<nat>, stamps: map<T, nat>,
                                          pushes: nat)
    requires Partition(p) && i in p.readerMask && c in p.taken && forall x :: x in p.fifo ==> x in stamps
    requires q == Append(Mark(p, i), c, mask)
    ensures Partition(q)
    ensures ReaderOk(q, NewReader(i), stamps[c := pushes], pushes + 1, Log(Stamps(p.fifo, stamps), pushes, []))
      <==> i in mask
  {
    MarkKeeps(p, i);
    AppendKeeps(Mark(p, i), c, mask);
    NewReaderOk(p, i, stamps, pushes);
    AppendExactly(Mark(p, i), c, mask, NewReader(i), stamps, pushes, Log(Stamps(p.fifo, stamps), pushes, []));
  }

  // Reader i has got what it had to expect so far, and will get the rest
  ghost predicate Served<T>(s: System<T>, i: nat) {
    && Partition(s.pool) && i < |s.readers| == |s.logs|
    && ReaderOk(s.pool, s.readers[i], s.stamps, s.pushes, s.logs[i])
  }

  lemma {:induction false} ServedIs<T>(s: System<T>, i: nat, p: Pool<T>, r: Reader<T>, stamps: map<T, nat>, pushes: nat,
                                       log: Log)
    requires Partition(p) && s.pool == p && i < |s.readers| == |s.logs| && s.readers[i] == r && s.logs[i] == log
    requires s.stamps == stamps && s.pushes == pushes
    ensures Served(s, i) <==> ReaderOk(p, r, stamps, pushes, log)
  {
  }

  // The half of a push before a reader entered the mask, and the other half after it has marked the cells: exactly
  // then the reader will not get the item
  lemma {:induction false} LatePush<T>(s: System<T>, i: nat, c: T)
    requires Invariant(s) && Enabled(s, JoinMark(i)) && c in s.flights
    ensures Served(MarkThenAppend(s, i, c), i) <==> i in s.flights[c]
  {
    var s2 := MarkThenAppend(s, i, c);
    JoiningReader(s, i, c);
    MarkThenAppendCells(s, i, c);
    LateExactly(s.pool, s2.pool, i, c, s.flights[c], s.stamps, s.pushes);
    ServedIs(s2, i, s2.pool, NewReader(i), s.stamps[c := s.pushes], s.pushes + 1, JoinLog(s));
  }

  // With nothing else in the FIFO the reader cannot be synchronized with the late item
  lemma {:induction false} LateItemLost<T>(s: System<T>, i: nat, c: T, volume: nat)
    requires Invariant(s) && Enabled(s, JoinMark(i)) && c in s.flights && i !in s.flights[c] && s.pool.fifo == []
    ensures var s2 := MarkThenAppend(s, i, c);
      && Partition(s2.pool) && s2.pool.fifo == [c] && s2.pushes == s2.logs[i].base + 1
      && FirstWith(s2.pool.fifo, s2.pool.masks, i) == |s2.pool.fifo| && !CanSynchronize(s2.pool, s2.readers[i], volume)
  {
    JoiningReader(s, i, c);
    MarkThenAppendCells(s, i, c);
    var p := MarkThenAppend(s, i, c).pool;
    assert p.fifo == [c] && p.fifo[0] == c;
  }

  // ---- a ninth reader

  // The cells in the FIFO that a reader with this bit has to read
  ghost predicate CarriedBy<T>(p: Pool<T>, bit: nat, cells: seq<T>)
    requires Partition(p)
  {
    forall c :: c in p.fifo && bit in p.masks[c] ==> c in cells
  }

  lemma {:induction false} ReleaseCarries<T>(p: Pool<T>, c: T, b: nat, bit: nat, cells: seq<T>)
    requires Partition(p) && c in p.fifo && Partition(FifoPool.ReleaseElement(p, c, b)) && CarriedBy(p, bit, cells)
    ensures CarriedBy(FifoPool.ReleaseElement(p, c, b), bit, cells)
  {
    TakenOut(p.fifo, c);
  }

  lemma {:induction false} StepCarries<T>(s: System<T>, a: Action<T>, bit: nat, cells: seq<T>)
    requires Invariant(s) && Enabled(s, a) && Partition(Step(s, a).pool) && 8 <= bit && CarriedBy(s.pool, bit, cells)
    ensures CarriedBy(Step(s, a).pool, bit, cells)
  {
    match a
    case PushAppend(c) => assert bit !in s.flights[c];
    case JoinMark(i) => assert ReaderState(s, i);
    case ReleaseHeld(i, c) => ReleaseCarries(s.pool, c, s.readers[i].bit, bit, cells);
    case _ =>
  }

  lemma {:induction false} RunCarries<T>(s: System<T>, run: seq<Action<T>>, bit: nat, cells: seq<T>)
    requires Invariant(s) && RunEnabled(s, run) && 8 <= bit && CarriedBy(s.pool, bit, cells)
    ensures Partition(After(s, run).pool) && CarriedBy(After(s, run).pool, bit, cells)
    decreases |run|
  {
    if run != [] {
      StepInvariant(s, run[0]);
      StepCarries(s, run[0], bit, cells);
      RunCarries(Step(s, run[0]), run[1..], bit, cells);
    }
  }

  // The state after a ninth reader has joined, and the bit it gets
  function NinthJoined<T>(s: System<T>): System<T> {
    s.(pool := Associate(s.pool, NewBit(s.pool, false)))
  }

  lemma {:induction false} NinthJoins<T>(s: System<T>)
    requires Invariant(s) && |s.readers| == 8
    ensures NewBit(s.pool, false) == 8 && Invariant(NinthJoined(s)) && CarriedBy(NinthJoined(s).pool, 8, s.pool.fifo)
  {
    NextBit(8);
    assert Narrow({8}) == {};
    MarkKeeps(s.pool, 8);
    var s' := NinthJoined(s);
    assert Admit(s.pool, 8) == s.pool;
    forall i: nat | i < |s'.readers| ensures ReaderState(s', i) {
      assert ReaderState(s, i);
      if i !in s.joining {
        MarkOk(s.pool, 8, s.readers[i], s.stamps, s.pushes, s.logs[i]);
      }
    }
  }

  // Whatever is done and pushed after it joined, a ninth reader finds what was in the FIFO then, or nothing
  lemma {:induction false} NinthReader<T>(s: System<T>, run: seq<Action<T>>, volume: nat)
    requires Invariant(s) && |s.readers| == 8 && RunEnabled(NinthJoined(s), run)
    ensures var p := After(NinthJoined(s), run).pool;
      && Partition(p)
      && var k := FirstWith(p.fifo, p.masks, 8);
         && (k < |p.fifo| ==> p.fifo[k] in s.pool.fifo)
         && (s.pool.fifo == [] ==> k == |p.fifo| && !CanSynchronize(p, NewReader(8), volume))
  {
    NinthJoins(s);
    RunCarries(NinthJoined(s), run, 8, s.pool.fifo);
    var p := After(NinthJoined(s), run).pool;
    var k := FirstWith(p.fifo, p.masks, 8);
    assert k < |p.fifo| ==> p.fifo[k] in p.fifo;
  }
}
