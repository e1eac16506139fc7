/** How much is read from a FIFO: whole pushes and joins, the windows of synchronized readers, and direct reading. */
module FifoReads {
  import opened Sequences
  import opened FifoPool
  import opened FifoDelivery

  // ---- a push and a join without interference

  // Both halves of a push are the push as one step, and it is delivered to every reader
  lemma {:induction false} PushIsBothHalves<T>(s: System<T>, c: T)
    requires Partition(s.pool) && Enabled(s, PushTake(c))
    ensures var s1 := Step(s, PushTake(c));
      && Enabled(s1, PushAppend(c))
      && Step(s1, PushAppend(c)) ==
         s.(pool := Push(s.pool, c), stamps := s.stamps[c := s.pushes], pushes := s.pushes + 1)
  {
    assert s.flights[c := s.pool.readerMask] - {c} == s.flights;
  }

  lemma {:induction false} PushOk<T>(p: Pool<T>, c: T, r: Reader<T>, stamps: map<T, nat>, pushes: nat, log: Log)
    requires Partition(p) && c in p.taken && ReaderOk(p, r, stamps, pushes, log)
    ensures Partition(Push(p, c)) && ReaderOk(Push(p, c), r, stamps[c := pushes], pushes + 1, log)
  {
    AppendKeeps(p, c, p.readerMask);
    AppendOk(p, c, p.readerMask, r, stamps, pushes, log);
  }

  // Both halves of a join are the association as one step, and the reader has to get all that is in the FIFO
  lemma {:induction false} JoinIsBothHalves<T>(s: System<T>)
    requires Invariant(s) && Enabled(s, JoinMask)
    ensures var s1, i, bit := Step(s, JoinMask), |s.readers|, NewBit(s.pool, s.readers == []);
      && Partition(s1.pool) && Enabled(s1, JoinMark(i)) && bit == i
      && Step(s1, JoinMark(i)).pool == Associate(s.pool, bit)
      && Step(s1, JoinMark(i)).readers == s.readers + [NewReader(bit)]
  {
    JoinBit(s);
    MaskStep(s);
  }

  lemma {:induction false} AssociateOk<T>(p: Pool<T>, bit: nat, stamps: map<T, nat>, pushes: nat)
    requires Partition(p) && bit < 8 && forall c :: c in p.fifo ==> c in stamps
    ensures Partition(Associate(p, bit))
    ensures ReaderOk(Associate(p, bit), NewReader(bit), stamps, pushes, Log(Stamps(p.fifo, stamps), pushes, []))
  {
    MarkKeeps(Admit(p, bit), bit);
    NewReaderOk(Admit(p, bit), bit, stamps, pushes);
  }

  // ---- how many cells a reader may pop

  // The number of cells in the window
  function Window<T(==)>(p: Pool<T>, r: Reader<T>): nat {
    if r.first == None || r.last == None then 0
    else
      var k, e := Index(p.fifo, r.first.value), Index(p.fifo, r.last.value);
      if k <= e then e - k + 1 else 0
  }

  lemma {:induction false} WindowIs<T>(p: Pool<T>, r: Reader<T>, u: nat)
    requires Partition(p) && Sees(p, r, u)
    ensures Window(p, r) == if r.first == None then 0 else Index(p.fifo, r.last.value) + 1 - u
  {
    if r.first != None {
      IndexAt(p.fifo, u);
    }
  }

  lemma {:induction false} WindowBetween<T>(p: Pool<T>, r: Reader<T>, k: nat, e: nat)
    requires Partition(p) && k <= e < |p.fifo| && r.first == Some(p.fifo[k]) && r.last == Some(p.fifo[e])
    ensures Window(p, r) == e + 1 - k
  {
    IndexAt(p.fifo, k);
    IndexAt(p.fifo, e);
  }

  lemma {:induction false} WindowGrows<T>(p: Pool<T>, r: Reader<T>, volume: nat, u: nat)
    requires Partition(p) && Sees(p, r, u) && r.first.Some? && CanSynchronize(p, r, volume)
    ensures Window(p, FifoPool.Synchronize(p, r, volume)) == Window(p, r) + volume
  {
    var e := Index(p.fifo, r.last.value);
    WindowBetween(p, r, u, e);
    WindowBetween(p, FifoPool.Synchronize(p, r, volume), u, e + volume);
  }

  // A synchronization lets the reader pop exactly as many cells more as its volume says
  lemma {:induction false} SynchronizeGrows<T>(p: Pool<T>, r: Reader<T>, volume: nat, stamps: map<T, nat>, pushes: nat,
                                               log: Log)
    requires Partition(p) && ReaderOk(p, r, stamps, pushes, log) && CanSynchronize(p, r, volume)
    ensures Window(p, FifoPool.Synchronize(p, r, volume)) == Window(p, r) + volume
  {
    var u: nat :| Reads(p, r, u) && Sees(p, r, u) && Delivers(p, stamps, pushes, log, u);
    if r.first == None {
      var from := SyncStart(p, r);
      WindowBetween(p, FifoPool.Synchronize(p, r, volume), from, from + volume - 1);
    } else {
      WindowGrows(p, r, volume, u);
    }
  }

  // A reader can pop exactly while its window is not empty and it has a link left
  lemma {:induction false} PopsWindow<T>(p: Pool<T>, r: Reader<T>, stamps: map<T, nat>, pushes: nat, log: Log)
    requires Partition(p) && ReaderOk(p, r, stamps, pushes, log)
    ensures CanPop(p, r) <==> 0 < Window(p, r) && |r.held| < MAXIMUM_FIFO_READER_LINKS
    ensures CanPop(p, r) ==> Window(p, FifoPool.Pop(p, r)) + 1 == Window(p, r)
  {
    var u: nat :| Reads(p, r, u) && Sees(p, r, u) && Delivers(p, stamps, pushes, log, u);
    WindowIs(p, r, u);
    if r.first.Some? && |r.held| < MAXIMUM_FIFO_READER_LINKS {
      PopReads(p, r, u);
      WindowIs(p, FifoPool.Pop(p, r), u + 1);
    }
  }

  // A reader can be synchronized with exactly the items that it has to get and has not been granted yet
  lemma {:induction false} SynchronizesUnseen<T>(p: Pool<T>, r: Reader<T>, volume: nat, stamps: map<T, nat>,
                                                 pushes: nat, log: Log)
    requires Partition(p) && ReaderOk(p, r, stamps, pushes, log) && (r.first == None ==> r.held == [])
    ensures log.base <= pushes
    ensures CanSynchronize(p, r, volume) <==>
      0 < volume && |log.popped| + Window(p, r) + volume <= |log.live| + (pushes - log.base)
  {
    var u: nat :| Reads(p, r, u) && Sees(p, r, u) && Delivers(p, stamps, pushes, log, u);
    WindowIs(p, r, u);
    if r.first == None {
      StartsUnread(p, r, u);
    }
  }

  lemma {:induction false} AppendWindow<T>(p: Pool<T>, c: T, mask: set<nat>, r: Reader<T>, stamps: map<T, nat>,
                                           pushes: nat, log: Log)
    requires Partition(p) && c in p.taken && ReaderOk(p, r, stamps, pushes, log)
    ensures Window(Append(p, c, mask), r) == Window(p, r)
  {
    var u: nat :| Reads(p, r, u) && Sees(p, r, u) && Delivers(p, stamps, pushes, log, u);
    var q := Append(p, c, mask);
    AppendKeeps(p, c, mask);
    if r.first != None {
      IndexAt(p.fifo, u);
      IndexAt(q.fifo, u);
      IndexAt(q.fifo, Index(p.fifo, r.last.value));
    }
  }

  lemma {:induction false} RemovedWindow<T>(p: Pool<T>, q: Pool<T>, r: Reader<T>, u: nat, x: nat)
    requires Partition(p) && Partition(q) && Sees(p, r, u) && r.first.Some? && x < u && RemovesAt(p.fifo, x, q.fifo)
    ensures Window(q, r) == Window(p, r)
  {
    var e := Index(p.fifo, r.last.value);
    SeesRemoved(p.fifo, x, q.fifo, u, e);
    WindowBetween(p, r, u, e);
    WindowBetween(q, r, u - 1, e - 1);
  }

  // The cells that leave are in front of the window
  lemma {:induction false} ReleaseWindow<T>(p: Pool<T>, c: T, bit: nat, r: Reader<T>, s: Reader<T>, stamps: map<T, nat>,
                                            pushes: nat, log: Log)
    requires Partition(p) && c in p.fifo && ReaderOk(p, r, stamps, pushes, log) && bit in p.masks[c]
    requires s.first == r.first && s.last == r.last && (r.bit == bit ==> c in r.held)
    ensures Window(FifoPool.ReleaseElement(p, c, bit), s) == Window(p, r)
  {
    var u: nat :| Reads(p, r, u) && Sees(p, r, u) && Delivers(p, stamps, pushes, log, u);
    var q, x := FifoPool.ReleaseElement(p, c, bit), Index(p.fifo, c);
    ReleaseElementKeeps(p, c, bit);
    ReleasedFifo(p, c, bit);
    assert Window(q, s) == Window(q, r);
    if r.first != None && p.masks[c] == {bit} {
      assert p.fifo[x] == c;
      RemovedWindow(p, q, r, u, x);
    }
  }

  // What reader i has popped and may still pop
  function Granted<T(==)>(s: System<T>, i: nat): nat
    requires i < |s.readers| == |s.logs|
  {
    |s.logs[i].popped| + Window(s.pool, s.readers[i])
  }

  function VolumeOf<T>(a: Action<T>, i: nat): nat {
    if a.Synchronize? && a.i == i then a.volume else 0
  }

  lemma {:induction false} StepGrants<T>(s: System<T>, a: Action<T>, i: nat)
    requires Invariant(s) && Enabled(s, a) && i < |s.readers| && i !in s.joining
    ensures var s' := Step(s, a);
      i < |s'.readers| == |s'.logs| && i !in s'.joining && Granted(s', i) == Granted(s, i) + VolumeOf(a, i)
  {
    assert ReaderState(s, i);
    var r, log := s.readers[i], s.logs[i];
    match a
    case PushAppend(c) => AppendWindow(s.pool, c, s.flights[c], r, s.stamps, s.pushes, log);
    case Synchronize(k, volume) =>
      if k == i {
        SynchronizeGrows(s.pool, r, volume, s.stamps, s.pushes, log);
      }
    case Pop(k) =>
      if k == i {
        PopsWindow(s.pool, r, s.stamps, s.pushes, log);
      }
    case ReleaseHeld(k, c) =>
      assert ReaderState(s, k);
      HeldCarries(s.pool, s.readers[k], s.stamps, s.pushes, s.logs[k], c);
      ReleaseWindow(s.pool, c, k, r, Step(s, a).readers[i], s.stamps, s.pushes, log);
    case _ =>
  }

  function Volumes<T>(run: seq<Action<T>>, i: nat): nat {
    if run == [] then 0 else VolumeOf(run[0], i) + Volumes(run[1..], i)
  }

  lemma {:induction false} RunGrants<T>(s: System<T>, run: seq<Action<T>>, i: nat)
    requires Invariant(s) && RunEnabled(s, run) && i < |s.readers| && i !in s.joining
    ensures var s' := After(s, run);
      i < |s'.readers| == |s'.logs| && Granted(s', i) == Granted(s, i) + Volumes(run, i)
    decreases |run|
  {
    if run != [] {
      StepInvariant(s, run[0]);
      StepGrants(s, run[0], i);
      RunGrants(Step(s, run[0]), run[1..], i);
    }
  }

  // What a reader has popped and may still pop since it joined is what it has been synchronized with
  lemma {:induction false} PopsAreSynchronized<T>(s: System<T>, i: nat, run: seq<Action<T>>)
    requires Invariant(s) && Enabled(s, JoinMark(i)) && Timely(s, JoinMark(i))
    requires RunEnabled(Step(s, JoinMark(i)), run)
    ensures var s' := After(Step(s, JoinMark(i)), run);
      i < |s'.readers| == |s'.logs| && |s'.logs[i].popped| + Window(s'.pool, s'.readers[i]) == Volumes(run, i)
  {
    assert ReaderState(s, i);
    StepInvariant(s, JoinMark(i));
    RunGrants(Step(s, JoinMark(i)), run, i);
  }

  // ---- a FIFO without readers

  function DirectOf<T>(s: System<T>, a: Action<T>): seq<nat>
    requires Partition(s.pool) && Enabled(s, a) && forall c :: c in s.pool.fifo ==> c in s.stamps
  {
    if a.PopFirst? then assert s.pool.fifo[0] in s.pool.fifo; [s.stamps[s.pool.fifo[0]]] else []
  }

  // The numbers of the items that are read directly, in the order of the reads
  ghost function Direct<T>(s: System<T>, run: seq<Action<T>>): seq<nat>
    requires Invariant(s) && RunEnabled(s, run)
    decreases |run|
  {
    if run == [] then []
    else
      StepInvariant(s, run[0]);
      DirectOf(s, run[0]) + Direct(Step(s, run[0]), run[1..])
  }

  lemma {:induction false} AppendStamps<T>(fifo: seq<T>, c: T, stamps: map<T, nat>, pushes: nat)
    requires c !in fifo && forall x :: x in fifo ==> x in stamps
    ensures Stamps(fifo + [c], stamps[c := pushes]) == Stamps(fifo, stamps) + [pushes]
  {
    var a, b := Stamps(fifo + [c], stamps[c := pushes]), Stamps(fifo, stamps) + [pushes];
    forall k | 0 <= k < |a| ensures a[k] == b[k] {
      assert k < |fifo| ==> fifo[k] in fifo;
    }
  }

  // What a step reads directly and leaves in the FIFO is what was there and is pushed
  ghost predicate Passes(before: seq<nat>, pushed: seq<nat>, read: seq<nat>, after: seq<nat>) {
    read + after == before + pushed
  }

  lemma {:induction false} PassesOn(a: seq<nat>, p: seq<nat>, r: seq<nat>, b: seq<nat>, q: seq<nat>, s: seq<nat>,
                                    c: seq<nat>)
    requires Passes(a, p, r, b) && Passes(b, q, s, c)
    ensures Passes(a, p + q, r + s, c)
  {
    calc {
      (r + s) + c;
      r + (s + c);
      r + (b + q);
      (r + b) + q;
      (a + p) + q;
      a + (p + q);
    }
  }

  // The numbers of the items in the FIFO
  ghost function Contents<T>(s: System<T>): seq<nat>
    requires Invariant(s)
  {
    Stamps(s.pool.fifo, s.stamps)
  }

  ghost predicate StepPasses<T>(s: System<T>, a: Action<T>)
    requires Invariant(s) && Enabled(s, a) && Invariant(Step(s, a))
  {
    var s' := Step(s, a);
    && s'.readers == [] && s.pushes <= s'.pushes
    && Passes(Contents(s), Between(s.pushes, s'.pushes), DirectOf(s, a), Contents(s'))
  }

  lemma {:induction false} AppendPasses<T>(s: System<T>, c: T)
    requires Invariant(s) && Enabled(s, PushAppend(c)) && s.readers == [] && Invariant(Step(s, PushAppend(c)))
    ensures StepPasses(s, PushAppend(c))
  {
    AppendStamps(s.pool.fifo, c, s.stamps, s.pushes);
    assert Between(s.pushes, s.pushes + 1) == [s.pushes];
  }

  lemma {:induction false} DirectPasses<T>(s: System<T>)
    requires Invariant(s) && Enabled(s, PopFirst) && s.readers == [] && Invariant(Step(s, PopFirst))
    ensures StepPasses(s, PopFirst)
  {
    PopFirstTakes(s.pool);
  }

  // The other steps leave the items alone
  lemma {:induction false} OtherPasses<T>(s: System<T>, a: Action<T>)
    requires Invariant(s) && Enabled(s, a) && s.readers == [] && Invariant(Step(s, a))
    requires !a.JoinMask? && !a.PushAppend? && !a.PopFirst?
    ensures StepPasses(s, a)
  {
  }

  lemma {:induction false} StepDirect<T>(s: System<T>, a: Action<T>)
    requires Invariant(s) && Enabled(s, a) && s.readers == [] && !a.JoinMask? && Invariant(Step(s, a))
    ensures StepPasses(s, a)
  {
    match a
    case PushAppend(c) => AppendPasses(s, c);
    case PopFirst => DirectPasses(s);
    case _ => OtherPasses(s, a);
  }

  lemma {:induction false} BetweenSplit(a: nat, b: nat, c: nat)
    requires a <= b <= c
    ensures Between(a, c) == Between(a, b) + Between(b, c)
  {
  }

  // Without readers what has been read, followed by what is in the FIFO, is all that was in it and has been pushed,
  // in order
  lemma {:induction false} FirstInFirstOut<T>(s: System<T>, run: seq<Action<T>>)
    requires Invariant(s) && RunEnabled(s, run) && s.readers == [] && forall a :: a in run ==> !a.JoinMask?
    ensures Invariant(After(s, run)) && s.pushes <= After(s, run).pushes
    ensures Direct(s, run) + Contents(After(s, run)) == Contents(s) + Between(s.pushes, After(s, run).pushes)
    decreases |run|
  {
    if run != [] {
      var s1, s' := Step(s, run[0]), After(s, run);
      StepInvariant(s, run[0]);
      StepDirect(s, run[0]);
      FirstInFirstOut(s1, run[1..]);
      PassesOn(Contents(s), Between(s.pushes, s1.pushes), DirectOf(s, run[0]), Contents(s1),
               Between(s1.pushes, s'.pushes), Direct(s1, run[1..]), Contents(s'));
      BetweenSplit(s.pushes, s1.pushes, s'.pushes);
    }
  }
}
