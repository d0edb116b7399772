/**
 The lock-free pool of src/utility/object_pool.h as a step machine: any number of threads run put_raw and get_raw,
 one shared load, CAS, slot access or store per step.

 Counters are kept unbounded; the code sees them only through U32, so every comparison and subtraction below is the
 32-bit one.  `produced` and `consumed` record which thread reserved which ticket and are never read by the code.
 */
module ObjectPool {
  import opened Bits

  type Ptr = nat // 0 is nullptr

  const M: nat := 0x1_0000_0000

  function U32(x: int): (r: nat)
    ensures r < M
  {
    x % M
  }

  /** The order in which get_raw loads its two counters: the code loads _prod_tail first, put_raw its own head first. */
  datatype Order = TailFirst | HeadFirst

  /** POOL_SIZE is 2^log, at most 2 << 12. */
  datatype Config = Config(log: nat, order: Order) {
    ghost predicate Valid() {
      log <= 13
    }

    function Size(): nat {
      Pow2(log)
    }

    function Mask(): nat {
      Pow2(log) - 1
    }
  }

  /** Where a thread is; `h` is the head value it loaded or, from PutWrite and GetRead on, its ticket. */
  datatype Pc =
    | Idle
    | PutStart(p: Ptr)
    | PutLoadTail(p: Ptr, h: nat)
    | PutCas(p: Ptr, h: nat)
    | PutWrite(p: Ptr, h: nat)
    | PutSpin(p: Ptr, h: nat)
    | PutPublish(p: Ptr, h: nat)
    | GetStart
    | GetSecond(first: nat)
    | GetCas(tail: nat, h: nat)
    | GetRead(h: nat)
    | GetSpin(r: Ptr, h: nat)
    | GetPublish(r: Ptr, h: nat)
  {
    predicate Putting() {
      PutStart? || PutLoadTail? || PutCas?
    }

    predicate Producing() {
      PutWrite? || PutSpin? || PutPublish?
    }

    predicate Consuming() {
      GetRead? || GetSpin? || GetPublish?
    }

    predicate Carrying() {
      Putting() || Consuming()
    }
  }

  datatype Ticket = Ticket(p: Ptr, owner: nat)

  datatype Place = Client | Destroyed | InFlight(i: nat) | Pooled(k: nat)

  datatype Pool = Pool(
    prodHead: nat, prodTail: nat, consHead: nat, consTail: nat,
    slots: seq<Ptr>, threads: seq<Pc>,
    clients: set<Ptr>, destroyed: set<Ptr>, made: nat,
    produced: seq<Ticket>, consumed: seq<nat>, place: seq<Place>)

  /** What the scheduler picks; Fail is the spurious failure of compare_exchange_weak. */
  datatype Action = Put(p: Ptr) | Get | Go | Fail

  function Init(c: Config, n: nat): Pool {
    Pool(0, 0, 0, 0, seq(c.Size(), _ => 0), seq(n, _ => Idle), {}, {}, 1, [], [], [Destroyed])
  }

  lemma WordSize()
    ensures Pow2(32) == M
  {
    assert Pow2(8) == 256;
    Pow2Add(8, 8);
    Pow2Add(16, 16);
  }

  /** Since the ring size divides 2^32, masking the 32-bit counter finds the slot of the true one. */
  lemma MaskedCounter(c: Config, h: nat)
    requires c.Valid()
    ensures And(U32(h), c.Mask()) == h % c.Size()
  {
    MaskIsMod(U32(h), c.log);
    WordSize();
    Pow2Add(c.log, 32 - c.log);
    ModOfMod(h, c.Size(), Pow2(32 - c.log));
  }

  function Slot(c: Config, h: nat): (i: nat)
    requires c.Valid()
    ensures i == h % c.Size() && i < c.Size()
  {
    MaskedCounter(c, h);
    And(U32(h), c.Mask())
  }

  function To(s: Pool, t: nat, pc: Pc): Pool
    requires t < |s.threads|
  {
    s.(threads := s.threads[t := pc])
  }

  function Move(s: Pool, p: Ptr, pl: Place): Pool {
    if p < |s.place| then s.(place := s.place[p := pl]) else s
  }

  predicate Enabled(s: Pool, t: nat, a: Action) {
    && t < |s.threads|
    && match s.threads[t]
       case Idle => (a.Put? && a.p in s.clients) || a.Get?
       case PutCas(_, _) => a.Go? || a.Fail?
       case GetCas(_, _) => a.Go? || a.Fail?
       case _ => a.Go?
  }

  /** One step of thread t. */
  function Step(c: Config, s: Pool, t: nat, a: Action): Pool
    requires Enabled(s, t, a) && |s.slots| == c.Size() && c.Valid()
  {
    match s.threads[t]
    case Idle =>
      if a.Put? then Move(To(s, t, PutStart(a.p)).(clients := s.clients - {a.p}), a.p, InFlight(t))
      else To(s, t, GetStart)
    case PutStart(p) => To(s, t, PutLoadTail(p, s.prodHead))
    case PutLoadTail(p, h) =>
      var free := U32(c.Mask() + U32(s.consTail) - U32(h));
      if free == 0 then Move(To(s, t, Idle).(destroyed := s.destroyed + {p}), p, Destroyed)
      else To(s, t, PutCas(p, h))
    case PutCas(p, h) =>
      if CasSucceeds(s, t, a) then
        Move(To(s, t, PutWrite(p, s.prodHead)).(prodHead := s.prodHead + 1, produced := s.produced + [Ticket(p, t)]),
             p, Pooled(s.prodHead))
      else To(s, t, PutStart(p))
    case PutWrite(p, h) =>
      To(s, t, PutSpin(p, h)).(slots := s.slots[Slot(c, h) := p])
    case PutSpin(p, h) => if U32(s.prodTail) == U32(h) then To(s, t, PutPublish(p, h)) else s
    case PutPublish(p, h) => To(s, t, Idle).(prodTail := h + 1)
    case GetStart => To(s, t, GetSecond(if c.order.TailFirst? then s.prodTail else s.consHead))
    case GetSecond(first) =>
      var tail := if c.order.TailFirst? then first else s.prodTail;
      var head := if c.order.TailFirst? then s.consHead else first;
      if U32(U32(tail) - U32(head)) == 0 then
        To(s, t, Idle).(clients := s.clients + {s.made}, made := s.made + 1, place := s.place + [Client])
      else To(s, t, GetCas(tail, head))
    case GetCas(_, h) =>
      if CasSucceeds(s, t, a) then
        var s' := To(s, t, GetRead(s.consHead)).(consHead := s.consHead + 1, consumed := s.consumed + [t]);
        if s.consHead < |s.produced| then Move(s', s.produced[s.consHead].p, InFlight(t)) else s'
      else To(s, t, GetStart)
    case GetRead(h) =>
      To(s, t, GetSpin(s.slots[Slot(c, h)], h))
    case GetSpin(r, h) => if U32(s.consTail) == U32(h) then To(s, t, GetPublish(r, h)) else s
    case GetPublish(r, h) => Move(To(s, t, Idle).(consTail := h + 1, clients := s.clients + {r}), r, Client)
  }

  /** The CAS of put_raw or get_raw compares 32-bit values. */
  predicate CasSucceeds(s: Pool, t: nat, a: Action) {
    && t < |s.threads| && a.Go?
    && match s.threads[t]
       case PutCas(_, h) => U32(s.prodHead) == U32(h)
       case GetCas(_, h) => U32(s.consHead) == U32(h)
       case _ => false
  }

  // ----- the invariant -----

  /** Head and tail counters on the true, unbounded numbers; the ring never holds more than MASK tickets. */
  ghost predicate Ordered(c: Config, s: Pool) {
    && s.consTail <= s.consHead <= s.prodTail <= s.prodHead <= s.consTail + c.Mask()
    && |s.slots| == c.Size() && |s.produced| == s.prodHead && |s.consumed| == s.consHead
  }

  /** Each unpublished ticket belongs to exactly one thread, and each producing thread owns one ticket. */
  ghost predicate PutOwned(s: Pool)
    requires |s.produced| == s.prodHead
  {
    && (forall k | s.prodTail <= k < s.prodHead ::
          var i := s.produced[k].owner;
          i < |s.threads| && s.threads[i].Producing() && s.threads[i].h == k)
    && (forall i | 0 <= i < |s.threads| && s.threads[i].Producing() ::
          var pc := s.threads[i];
          && s.prodTail <= pc.h < s.prodHead && s.produced[pc.h] == Ticket(pc.p, i)
          && (pc.PutPublish? ==> pc.h == s.prodTail))
  }

  /** The same on the consuming side. */
  ghost predicate GetOwned(s: Pool)
    requires |s.consumed| == s.consHead
  {
    && (forall k | s.consTail <= k < s.consHead ::
          var i := s.consumed[k];
          i < |s.threads| && s.threads[i].Consuming() && s.threads[i].h == k)
    && (forall i | 0 <= i < |s.threads| && s.threads[i].Consuming() ::
          var pc := s.threads[i];
          && s.consTail <= pc.h < s.consHead && s.consumed[pc.h] == i
          && (pc.GetPublish? ==> pc.h == s.consTail))
  }

  ghost predicate Owned(c: Config, s: Pool)
    requires Ordered(c, s)
  {
    PutOwned(s) && GetOwned(s)
  }

  /** The producer of ticket k has stored its pointer. */
  ghost predicate Written(s: Pool, k: nat)
    requires k < |s.produced|
  {
    || k < s.prodTail
    || (s.produced[k].owner < |s.threads|
        && (s.threads[s.produced[k].owner].PutSpin? || s.threads[s.produced[k].owner].PutPublish?))
  }

  /** A slot keeps its ticket's pointer until the ticket's consumer is done; consumers carry that pointer. */
  ghost predicate Stored(c: Config, s: Pool)
    requires Ordered(c, s) && Owned(c, s)
  {
    && (forall k | s.consTail <= k < s.prodHead && Written(s, k) :: s.slots[k % c.Size()] == s.produced[k].p)
    && (forall i | 0 <= i < |s.threads| && (s.threads[i].GetSpin? || s.threads[i].GetPublish?) ::
          s.threads[i].r == s.produced[s.threads[i].h].p)
  }

  /** What a thread knows from the counters it loaded. */
  ghost predicate Knows(c: Config, s: Pool, pc: Pc) {
    match pc
    case PutLoadTail(_, h) => h <= s.prodHead
    case PutCas(_, h) => h <= s.prodHead && h < s.consTail + c.Mask()
    case GetSecond(first) => first <= if c.order.TailFirst? then s.prodTail else s.consHead
    case GetCas(tail, h) =>
      tail <= s.prodTail && h <= s.consHead && tail != h && (c.order.HeadFirst? ==> h < tail)
    case _ => true
  }

  ghost predicate Loaded(c: Config, s: Pool) {
    forall i | 0 <= i < |s.threads| :: Knows(c, s, s.threads[i])
  }

  ghost predicate Inv(c: Config, s: Pool) {
    c.Valid() && Ordered(c, s) && Owned(c, s) && Stored(c, s) && Loaded(c, s)
  }

  /** A successful get_raw CAS on an empty ring: the reserved ticket has no published object. */
  ghost predicate Hollow(s: Pool, t: nat, a: Action) {
    CasSucceeds(s, t, a) && s.threads[t].GetCas? && s.consHead == s.prodTail
  }

  /** A successful put_raw CAS on a full ring. */
  ghost predicate Overrun(c: Config, s: Pool, t: nat, a: Action) {
    CasSucceeds(s, t, a) && s.threads[t].PutCas? && s.prodHead == s.consTail + c.Mask()
  }

  lemma DistinctSlots(c: Config, x: nat, y: nat, base: nat)
    requires base <= x < base + c.Size() && base <= y < base + c.Size() && x % c.Size() == y % c.Size()
    ensures x == y
  {
    ModInjective(x, y, c.Size());
  }

  /** Everything but threads[t], clients, destroyed and places. */
  ghost predicate SameRing(s: Pool, s': Pool) {
    && s'.prodHead == s.prodHead && s'.prodTail == s.prodTail && s'.consHead == s.consHead && s'.consTail == s.consTail
    && s'.slots == s.slots && s'.produced == s.produced && s'.consumed == s.consumed
  }

  lemma KeepLoaded(c: Config, s: Pool, t: nat, s': Pool)
    requires Loaded(c, s) && t < |s.threads| == |s'.threads| && s'.threads == s.threads[t := s'.threads[t]]
    requires s.prodHead <= s'.prodHead && s.prodTail <= s'.prodTail
    requires s.consHead <= s'.consHead && s.consTail <= s'.consTail
    requires Knows(c, s', s'.threads[t])
    ensures Loaded(c, s')
  {
    forall i | 0 <= i < |s'.threads| ensures Knows(c, s', s'.threads[i]) {
      assert i != t ==> Knows(c, s, s.threads[i]);
    }
  }

  ghost predicate OnlyThread(s: Pool, t: nat, s': Pool) {
    t < |s.threads| == |s'.threads| && s'.threads == s.threads[t := s'.threads[t]]
  }

  lemma KeepPutOwned(s: Pool, t: nat, s': Pool)
    requires |s.produced| == s.prodHead && PutOwned(s) && OnlyThread(s, t, s')
    requires s'.prodHead == s.prodHead && s'.prodTail == s.prodTail && s'.produced == s.produced
    requires !s.threads[t].Producing() && !s'.threads[t].Producing()
    ensures PutOwned(s')
  {
  }

  lemma KeepGetOwned(s: Pool, t: nat, s': Pool)
    requires |s.consumed| == s.consHead && GetOwned(s) && OnlyThread(s, t, s')
    requires s'.consHead == s.consHead && s'.consTail == s.consTail && s'.consumed == s.consumed
    requires !s.threads[t].Consuming() && !s'.threads[t].Consuming()
    ensures GetOwned(s')
  {
  }

  lemma ClaimPutOwned(s: Pool, t: nat, s': Pool)
    requires |s.produced| == s.prodHead && PutOwned(s) && OnlyThread(s, t, s') && s.threads[t].PutCas?
    requires s.prodTail <= s.prodHead
    requires s'.prodHead == s.prodHead + 1 && s'.prodTail == s.prodTail
    requires s'.produced == s.produced + [Ticket(s.threads[t].p, t)]
    requires s'.threads[t] == PutWrite(s.threads[t].p, s.prodHead)
    ensures PutOwned(s')
  {
  }

  lemma DonePutOwned(s: Pool, t: nat, s': Pool)
    requires |s.produced| == s.prodHead && PutOwned(s) && OnlyThread(s, t, s') && s.threads[t].PutPublish?
    requires s'.prodHead == s.prodHead && s'.produced == s.produced
    requires s'.prodTail == s.threads[t].h + 1 && s'.threads[t].Idle?
    ensures PutOwned(s')
  {
  }

  lemma ClaimGetOwned(s: Pool, t: nat, s': Pool)
    requires |s.consumed| == s.consHead && GetOwned(s) && OnlyThread(s, t, s') && s.threads[t].GetCas?
    requires s.consTail <= s.consHead
    requires s'.consHead == s.consHead + 1 && s'.consTail == s.consTail && s'.consumed == s.consumed + [t]
    requires s'.threads[t] == GetRead(s.consHead)
    ensures GetOwned(s')
  {
  }

  /** Steps that neither reserve nor publish a ticket. */
  lemma LocalStep(c: Config, s: Pool, t: nat, s': Pool)
    requires Inv(c, s) && t < |s.threads| == |s'.threads| && SameRing(s, s')
    requires s'.threads == s.threads[t := s'.threads[t]]
    requires !s.threads[t].Producing() && !s.threads[t].Consuming()
    requires !s'.threads[t].Producing() && !s'.threads[t].Consuming()
    requires Knows(c, s', s'.threads[t])
    ensures Inv(c, s')
  {
    KeepLoaded(c, s, t, s');
  }

  lemma PutClaim(c: Config, s: Pool, t: nat, s': Pool)
    requires Inv(c, s) && t < |s.threads| && s.threads[t].PutCas? && s.prodHead < s.consTail + c.Mask()
    requires var p := s.threads[t].p;
             SameRing(To(s, t, PutWrite(p, s.prodHead)).(prodHead := s.prodHead + 1, produced := s.produced + [Ticket(p, t)]), s')
             && s'.threads == s.threads[t := PutWrite(p, s.prodHead)]
    ensures Inv(c, s')
  {
    KeepGetOwned(s, t, s');
    KeepLoaded(c, s, t, s');
    ClaimPutOwned(s, t, s');
    assert Owned(c, s');
  }

  lemma GetClaim(c: Config, s: Pool, t: nat, s': Pool)
    requires Inv(c, s) && t < |s.threads| && s.threads[t].GetCas? && s.consHead < s.prodTail
    requires SameRing(s.(consHead := s.consHead + 1, consumed := s.consumed + [t]), s')
             && s'.threads == s.threads[t := GetRead(s.consHead)]
    ensures Inv(c, s')
  {
    KeepPutOwned(s, t, s');
    KeepLoaded(c, s, t, s');
    ClaimGetOwned(s, t, s');
    assert Owned(c, s');
  }

  lemma PutStore(c: Config, s: Pool, t: nat, s': Pool)
    requires Inv(c, s) && t < |s.threads| && s.threads[t].PutWrite?
    requires var p, h := s.threads[t].p, s.threads[t].h;
             && SameRing(s.(slots := s.slots[h % c.Size() := p]), s')
             && s'.threads == s.threads[t := PutSpin(p, h)]
    ensures Inv(c, s')
  {
    var h := s.threads[t].h;
    KeepGetOwned(s, t, s');
    KeepLoaded(c, s, t, s');
    forall k | s.consTail <= k < s.prodHead && k != h ensures k % c.Size() != h % c.Size() {
      if k % c.Size() == h % c.Size() {
        DistinctSlots(c, k, h, s.consTail);
      }
    }
    assert Owned(c, s');
  }

  lemma PutSeen(c: Config, s: Pool, t: nat, s': Pool)
    requires Inv(c, s) && t < |s.threads| && s.threads[t].PutSpin? && SameRing(s, s')
    requires s.prodTail == s.threads[t].h && s'.threads == s.threads[t := PutPublish(s.threads[t].p, s.threads[t].h)]
    ensures Inv(c, s')
  {
    KeepGetOwned(s, t, s');
    KeepLoaded(c, s, t, s');
    assert Owned(c, s');
  }

  lemma PutDone(c: Config, s: Pool, t: nat, s': Pool)
    requires Inv(c, s) && t < |s.threads| && s.threads[t].PutPublish?
    requires SameRing(s.(prodTail := s.threads[t].h + 1), s') && s'.threads == s.threads[t := Idle]
    ensures Inv(c, s')
  {
    DonePutOwned(s, t, s');
    KeepGetOwned(s, t, s');
    KeepLoaded(c, s, t, s');
    assert Owned(c, s');
  }

  lemma GetLoad(c: Config, s: Pool, t: nat, s': Pool)
    requires Inv(c, s) && t < |s.threads| && s.threads[t].GetRead? && SameRing(s, s')
    requires var h := s.threads[t].h; s'.threads == s.threads[t := GetSpin(s.slots[h % c.Size()], h)]
    ensures Inv(c, s')
  {
    KeepPutOwned(s, t, s');
    KeepLoaded(c, s, t, s');
    assert Written(s, s.threads[t].h);
    assert Owned(c, s');
  }

  lemma GetSeen(c: Config, s: Pool, t: nat, s': Pool)
    requires Inv(c, s) && t < |s.threads| && s.threads[t].GetSpin? && SameRing(s, s')
    requires s.consTail == s.threads[t].h && s'.threads == s.threads[t := GetPublish(s.threads[t].r, s.threads[t].h)]
    ensures Inv(c, s')
  {
    KeepPutOwned(s, t, s');
    KeepLoaded(c, s, t, s');
    assert Owned(c, s');
  }

  lemma GetDone(c: Config, s: Pool, t: nat, s': Pool)
    requires Inv(c, s) && t < |s.threads| && s.threads[t].GetPublish?
    requires SameRing(s.(consTail := s.threads[t].h + 1), s') && s'.threads == s.threads[t := Idle]
    ensures Inv(c, s')
  {
    KeepPutOwned(s, t, s');
    KeepLoaded(c, s, t, s');
    assert Owned(c, s');
  }

  /** The 32-bit comparison in the spin loops is the comparison of the true counters. */
  lemma SpinIsExact(c: Config, s: Pool, t: nat)
    requires Inv(c, s) && t < |s.threads|
    ensures s.threads[t].Producing() ==> (U32(s.prodTail) == U32(s.threads[t].h) <==> s.prodTail == s.threads[t].h)
    ensures s.threads[t].Consuming() ==> (U32(s.consTail) == U32(s.threads[t].h) <==> s.consTail == s.threads[t].h)
  {
    SizeBound(c);
    if s.threads[t].Producing() && U32(s.prodTail) == U32(s.threads[t].h) {
      ModInjective(s.prodTail, s.threads[t].h, M);
    }
    if s.threads[t].Consuming() && U32(s.consTail) == U32(s.threads[t].h) {
      ModInjective(s.consTail, s.threads[t].h, M);
    }
  }

  lemma SizeBound(c: Config)
    requires c.Valid()
    ensures c.Size() <= 8192
  {
    Pow2Monotone(c.log, 13);
  }

  // ----- 32-bit differences -----

  lemma U32Sub(k: nat, a: nat, b: nat)
    ensures U32(k + U32(a) - U32(b)) == U32(k + a - b)
  {
    assert a == M * (a / M) + U32(a) && b == M * (b / M) + U32(b);
    ModShift(k + U32(a) - U32(b), M, a / M - b / M);
  }

  /** Despite wrap-around the differences the code computes are the true ones. */
  lemma DifferencesAreTrue(c: Config, s: Pool)
    requires c.Valid() && Ordered(c, s)
    ensures U32(U32(s.prodTail) - U32(s.consHead)) == s.prodTail - s.consHead
    ensures U32(c.Mask() + U32(s.consTail) - U32(s.prodHead)) == c.Mask() + s.consTail - s.prodHead
  {
    SizeBound(c);
    U32Sub(0, s.prodTail, s.consHead);
    U32Sub(c.Mask(), s.consTail, s.prodHead);
    ModUnique(s.prodTail - s.consHead, M, 0, s.prodTail - s.consHead);
    ModUnique(c.Mask() + s.consTail - s.prodHead, M, 0, c.Mask() + s.consTail - s.prodHead);
  }

  // ----- every step -----

  /** One step keeps the invariant exactly when it is neither a hollow get nor an overrunning put. */
  lemma StepInvIff(c: Config, s: Pool, t: nat, a: Action)
    requires Inv(c, s) && Enabled(s, t, a)
    ensures Inv(c, Step(c, s, t, a)) <==> !Hollow(s, t, a) && !Overrun(c, s, t, a)
  {
    var s' := Step(c, s, t, a);
    if Hollow(s, t, a) || Overrun(c, s, t, a) {
      assert !Ordered(c, s');
    } else {
      StepKeepsInv(c, s, t, a);
    }
  }

  lemma PutStepKeeps(c: Config, s: Pool, t: nat, a: Action)
    requires Inv(c, s) && Enabled(s, t, a) && (s.threads[t].Producing() || s.threads[t].PutCas?)
    requires s.threads[t].PutCas? ==> CasSucceeds(s, t, a) && !Overrun(c, s, t, a)
    ensures Inv(c, Step(c, s, t, a))
  {
    var s' := Step(c, s, t, a);
    match s.threads[t]
    case PutCas(_, _) => PutClaim(c, s, t, s');
    case PutWrite(_, h) => PutStore(c, s, t, s');
    case PutSpin(_, h) => SpinIsExact(c, s, t); if s.prodTail == h { PutSeen(c, s, t, s'); }
    case PutPublish(_, _) => PutDone(c, s, t, s');
  }

  lemma GetStepKeeps(c: Config, s: Pool, t: nat, a: Action)
    requires Inv(c, s) && Enabled(s, t, a) && (s.threads[t].Consuming() || s.threads[t].GetCas?)
    requires s.threads[t].GetCas? ==> CasSucceeds(s, t, a) && !Hollow(s, t, a)
    ensures Inv(c, Step(c, s, t, a))
  {
    var s' := Step(c, s, t, a);
    match s.threads[t]
    case GetCas(_, _) => GetClaim(c, s, t, s');
    case GetRead(h) => GetLoad(c, s, t, s');
    case GetSpin(_, h) => SpinIsExact(c, s, t); if s.consTail == h { GetSeen(c, s, t, s'); }
    case GetPublish(_, _) => GetDone(c, s, t, s');
  }

  /** put_raw's full check: the free count computed from a stale head still bounds that head. */
  lemma FreeCheck(c: Config, s: Pool, h: nat)
    requires c.Valid() && Ordered(c, s) && h <= s.prodHead
    requires U32(c.Mask() + U32(s.consTail) - U32(h)) != 0
    ensures h < s.consTail + c.Mask()
  {
    U32Sub(c.Mask(), s.consTail, h);
  }

  /** get_raw's empty check. */
  lemma EntryCheck(tail: nat, head: nat)
    requires U32(U32(tail) - U32(head)) != 0
    ensures tail != head
  {
  }

  /** What a thread has loaded is right after a step that reserves and publishes nothing. */
  lemma OtherStepKnows(c: Config, s: Pool, t: nat, a: Action)
    requires c.Valid() && Ordered(c, s) && Enabled(s, t, a) && !CasSucceeds(s, t, a) && Knows(c, s, s.threads[t])
    requires !s.threads[t].Producing() && !s.threads[t].Consuming()
    ensures Knows(c, Step(c, s, t, a), Step(c, s, t, a).threads[t])
  {
    var pc, pc' := s.threads[t], Step(c, s, t, a).threads[t];
    if pc.PutLoadTail? && !pc'.Idle? {
      FreeCheck(c, s, pc.h);
    } else if pc.GetSecond? && pc'.GetCas? {
      EntryCheck(pc'.tail, pc'.h);
    }
  }

  lemma OtherStepKeeps(c: Config, s: Pool, t: nat, a: Action)
    requires Inv(c, s) && Enabled(s, t, a) && !CasSucceeds(s, t, a)
    requires !s.threads[t].Producing() && !s.threads[t].Consuming()
    ensures Inv(c, Step(c, s, t, a))
  {
    assert Knows(c, s, s.threads[t]);
    OtherStepKnows(c, s, t, a);
    LocalStep(c, s, t, Step(c, s, t, a));
  }

  lemma StepKeepsInv(c: Config, s: Pool, t: nat, a: Action)
    requires Inv(c, s) && Enabled(s, t, a) && !Hollow(s, t, a) && !Overrun(c, s, t, a)
    ensures Inv(c, Step(c, s, t, a))
  {
    if s.threads[t].Producing() || (s.threads[t].PutCas? && CasSucceeds(s, t, a)) {
      PutStepKeeps(c, s, t, a);
    } else if s.threads[t].Consuming() || (s.threads[t].GetCas? && CasSucceeds(s, t, a)) {
      GetStepKeeps(c, s, t, a);
    } else {
      OtherStepKeeps(c, s, t, a);
    }
  }

  /** A CAS whose head value was loaded 2^32 or more reservations ago. */
  ghost predicate Stale(s: Pool, t: nat) {
    && t < |s.threads|
    && match s.threads[t]
       case PutCas(_, h) => s.prodHead - h >= M
       case GetCas(_, h) => s.consHead - h >= M
       case _ => false
  }

  /** put_raw: a head loaded before the tail makes the full check safe. */
  lemma NoOverrun(c: Config, s: Pool, t: nat, a: Action)
    requires Inv(c, s) && Enabled(s, t, a) && !Stale(s, t)
    ensures !Overrun(c, s, t, a)
  {
    assert Knows(c, s, s.threads[t]);
    if CasSucceeds(s, t, a) && s.threads[t].PutCas? {
      ModInjective(s.prodHead, s.threads[t].h, M);
    }
  }

  /** get_raw: a hollow reservation needs a tail that was loaded before the head and overtaken in between. */
  lemma HollowNeedsOvertakenTail(c: Config, s: Pool, t: nat, a: Action)
    requires Inv(c, s) && Enabled(s, t, a) && !Stale(s, t) && Hollow(s, t, a)
    ensures c.order.TailFirst? && s.threads[t].tail < s.threads[t].h == s.consHead
  {
    assert Knows(c, s, s.threads[t]);
    ModInjective(s.consHead, s.threads[t].h, M);
  }

  // ----- whole runs -----

  /** A schedule: which thread moves, and how. */
  datatype Pick = Pick(t: nat, a: Action)

  ghost predicate Can(c: Config, s: Pool, k: Pick) {
    c.Valid() && |s.slots| == c.Size() && Enabled(s, k.t, k.a)
  }

  function Next(c: Config, s: Pool, k: Pick): Pool
    requires Can(c, s, k)
  {
    Step(c, s, k.t, k.a)
  }

  ghost predicate Legal(c: Config, s: Pool, run: seq<Pick>)
    decreases |run|
  {
    run == [] || (Can(c, s, run[0]) && Legal(c, Next(c, s, run[0]), run[1..]))
  }

  ghost function After(c: Config, s: Pool, run: seq<Pick>): Pool
    requires Legal(c, s, run)
    decreases |run|
  {
    if run == [] then s else After(c, Next(c, s, run[0]), run[1..])
  }

  /** P holds in every state of the run. */
  ghost predicate Always(c: Config, s: Pool, run: seq<Pick>, P: Pool -> bool)
    requires Legal(c, s, run)
    decreases |run|
  {
    P(s) && (run != [] ==> Always(c, Next(c, s, run[0]), run[1..], P))
  }

  /** No step of the run satisfies Bad. */
  ghost predicate Never(c: Config, s: Pool, run: seq<Pick>, Bad: (Pool, Pick) -> bool)
    requires Legal(c, s, run)
    decreases |run|
  {
    run != [] ==> !Bad(s, run[0]) && Never(c, Next(c, s, run[0]), run[1..], Bad)
  }

  ghost function BadStep(c: Config): (Pool, Pick) -> bool {
    (s, k: Pick) => Hollow(s, k.t, k.a) || Overrun(c, s, k.t, k.a)
  }

  ghost function HollowStep(): (Pool, Pick) -> bool {
    (s, k: Pick) => Hollow(s, k.t, k.a)
  }

  /** A CAS that succeeds although its thread slept through 2^32 reservations since it loaded the head. */
  ghost function StaleStep(): (Pool, Pick) -> bool {
    (s, k: Pick) => CasSucceeds(s, k.t, k.a) && Stale(s, k.t)
  }

  lemma InitInv(c: Config, n: nat)
    requires c.Valid()
    ensures Inv(c, Init(c, n)) && Located(Init(c, n))
  {
  }

  /** Exact safety of any run: the invariant holds throughout if and only if no step is hollow or overruns. */
  lemma {:induction false} RunSafeIff(c: Config, s: Pool, run: seq<Pick>)
    requires Inv(c, s) && Legal(c, s, run)
    ensures Always(c, s, run, x => Inv(c, x)) <==> Never(c, s, run, BadStep(c))
    decreases |run|
  {
    if run != [] {
      StepInvIff(c, s, run[0].t, run[0].a);
      var s' := Next(c, s, run[0]);
      if Inv(c, s') {
        RunSafeIff(c, s', run[1..]);
      } else {
        NotAlways(c, s', run[1..]);
      }
    }
  }

  lemma NotAlways(c: Config, s: Pool, run: seq<Pick>)
    requires Legal(c, s, run) && !Inv(c, s)
    ensures !Always(c, s, run, x => Inv(c, x))
  {
  }

  /** The code as written: a timely run is safe if and only if no get_raw ever reserves on an empty ring. */
  lemma {:induction false} TimelyRunSafeIff(c: Config, s: Pool, run: seq<Pick>)
    requires Inv(c, s) && Legal(c, s, run) && Never(c, s, run, StaleStep())
    ensures Always(c, s, run, x => Inv(c, x)) <==> Never(c, s, run, HollowStep())
    decreases |run|
  {
    if run != [] {
      StepInvIff(c, s, run[0].t, run[0].a);
      var s' := Next(c, s, run[0]);
      if CasSucceeds(s, run[0].t, run[0].a) {
        NoOverrun(c, s, run[0].t, run[0].a);
      }
      if Inv(c, s') {
        TimelyRunSafeIff(c, s', run[1..]);
      } else {
        NotAlways(c, s', run[1..]);
      }
    }
  }

  // ----- progress -----

  /** The oldest unpublished producer is not held up by anybody: its spin guard, if it is there, is open. */
  lemma OldestProducerCanAdvance(c: Config, s: Pool) returns (t: nat)
    requires Inv(c, s) && s.prodTail < s.prodHead
    ensures t < |s.threads| && s.threads[t].Producing() && s.threads[t].h == s.prodTail
    ensures Step(c, s, t, Go).threads[t] != s.threads[t]
    ensures forall i | 0 <= i < |s.threads| && s.threads[i].Producing() && s.threads[i].h == s.prodTail :: i == t
  {
    t := s.produced[s.prodTail].owner;
    SpinIsExact(c, s, t);
  }

  lemma OldestConsumerCanAdvance(c: Config, s: Pool) returns (t: nat)
    requires Inv(c, s) && s.consTail < s.consHead
    ensures t < |s.threads| && s.threads[t].Consuming() && s.threads[t].h == s.consTail
    ensures Step(c, s, t, Go).threads[t] != s.threads[t]
    ensures forall i | 0 <= i < |s.threads| && s.threads[i].Consuming() && s.threads[i].h == s.consTail :: i == t
  {
    t := s.consumed[s.consTail];
    SpinIsExact(c, s, t);
  }

  // ----- where every object is -----

  /** The object a thread carries: the one it is putting, or the one of the ticket it is taking. 0 for none. */
  function Holding(s: Pool, pc: Pc): Ptr {
    if pc.Putting() then pc.p
    else if pc.Consuming() && pc.h < |s.produced| then s.produced[pc.h].p
    else 0
  }

  /** p can be found at pl in the state itself. */
  ghost predicate At(s: Pool, p: Ptr, pl: Place) {
    match pl
    case Client => p in s.clients
    case Destroyed => p in s.destroyed
    case InFlight(i) => i < |s.threads| && Holding(s, s.threads[i]) == p
    case Pooled(k) => s.consHead <= k < |s.produced| && s.produced[k].p == p
  }

  /** Whatever is found somewhere was made, and its recorded place says where. */
  ghost predicate Recorded(s: Pool)
    requires |s.place| == s.made
  {
    && (forall p | p in s.clients :: 1 <= p < s.made && s.place[p] == Client)
    && (forall p | p in s.destroyed :: 1 <= p < s.made && s.place[p] == Destroyed)
    && (forall i | 0 <= i < |s.threads| && s.threads[i].Carrying() ::
          1 <= Holding(s, s.threads[i]) < s.made && s.place[Holding(s, s.threads[i])] == InFlight(i))
    && (forall k | s.consHead <= k < |s.produced| ::
          1 <= s.produced[k].p < s.made && s.place[s.produced[k].p] == Pooled(k))
  }

  /** Every object made is at its recorded place. */
  ghost predicate Located(s: Pool) {
    && |s.place| == s.made >= 1
    && Recorded(s)
    && forall p | 1 <= p < s.made :: At(s, p, s.place[p])
  }

  /** So each object is in exactly one place: client, in flight, slot or destroyed. */
  lemma ExactlyOnePlace(s: Pool, p: Ptr)
    requires Located(s) && 1 <= p < s.made
    ensures forall pl :: At(s, p, pl) <==> pl == s.place[p]
  {
  }

  /** The part of the invariant the places depend on. */
  ghost predicate Tickets(c: Config, s: Pool) {
    && Ordered(c, s)
    && forall i | 0 <= i < |s.threads| && s.threads[i].Consuming() :: s.threads[i].h < s.consHead
  }

  /** A thread moves without touching an object's place. */
  lemma StayLocated(c: Config, s: Pool, t: nat, s': Pool)
    requires Tickets(c, s) && Located(s) && OnlyThread(s, t, s')
    requires s'.clients == s.clients && s'.destroyed == s.destroyed && s'.consHead == s.consHead
    requires s'.produced == s.produced && s'.place == s.place && s'.made == s.made
    requires s'.threads[t].Carrying() == s.threads[t].Carrying()
    requires Holding(s, s'.threads[t]) == Holding(s, s.threads[t])
    ensures Located(s')
  {
  }

  /** put_raw starts: client to thread. */
  lemma StartPutLocated(c: Config, s: Pool, t: nat, p: Ptr, s': Pool)
    requires Tickets(c, s) && Located(s) && t < |s.threads| && s.threads[t].Idle? && p in s.clients
    requires s' == To(s, t, PutStart(p)).(clients := s.clients - {p}, place := s.place[p := InFlight(t)])
    ensures Located(s')
  {
  }

  /** The ring is full: thread to destroyed. */
  lemma DiscardLocated(c: Config, s: Pool, t: nat, s': Pool)
    requires Tickets(c, s) && Located(s) && t < |s.threads| && s.threads[t].PutLoadTail?
    requires var p := s.threads[t].p;
             1 <= p < s.made && s' == To(s, t, Idle).(destroyed := s.destroyed + {p}, place := s.place[p := Destroyed])
    ensures Located(s')
  {
  }

  /** put_raw reserves: thread to slot. */
  lemma PutClaimLocated(c: Config, s: Pool, t: nat, s': Pool)
    requires Tickets(c, s) && Located(s) && t < |s.threads| && s.threads[t].PutCas?
    requires var p := s.threads[t].p;
             1 <= p < s.made && s' == To(s, t, PutWrite(p, s.prodHead)).(prodHead := s.prodHead + 1,
               produced := s.produced + [Ticket(p, t)], place := s.place[p := Pooled(s.prodHead)])
    ensures Located(s')
  {
  }

  /** get_raw reserves: slot to thread. */
  lemma GetClaimLocated(c: Config, s: Pool, t: nat, s': Pool)
    requires Tickets(c, s) && Located(s) && t < |s.threads| && s.threads[t].GetCas? && s.consHead < s.prodHead
    requires var p := s.produced[s.consHead].p;
             1 <= p < s.made && s' == To(s, t, GetRead(s.consHead)).(consHead := s.consHead + 1,
               consumed := s.consumed + [t], place := s.place[p := InFlight(t)])
    ensures Located(s')
  {
    var p := s.produced[s.consHead].p;
    assert Holding(s', s'.threads[t]) == p && At(s, p, Pooled(s.consHead));
    forall q | 1 <= q < s.made && q != p ensures At(s', q, s'.place[q]) {
      assert At(s, q, s.place[q]);
    }
  }

  /** get_raw returns: thread to client. */
  lemma GetDoneLocated(c: Config, s: Pool, t: nat, s': Pool)
    requires Tickets(c, s) && Located(s) && t < |s.threads| && s.threads[t].GetPublish?
    requires var p, h := s.threads[t].r, s.threads[t].h;
             h < s.prodHead && p == s.produced[h].p && 1 <= p < s.made
             && s' == To(s, t, Idle).(consTail := h + 1, clients := s.clients + {p}, place := s.place[p := Client])
    ensures Located(s')
  {
  }

  /** The ring is empty: a new object for the client. */
  lemma AllocateLocated(c: Config, s: Pool, t: nat, s': Pool)
    requires Tickets(c, s) && Located(s) && t < |s.threads| && s.threads[t].GetSecond?
    requires s' == To(s, t, Idle).(clients := s.clients + {s.made}, made := s.made + 1, place := s.place + [Client])
    ensures Located(s')
  {
  }

  /** No object but p is moved; a new one may be made. */
  ghost predicate MovesOnly(s: Pool, s': Pool, p: Ptr) {
    |s.place| <= |s'.place| && forall q: Ptr | q < |s.place| && q != p :: s'.place[q] == s.place[q]
  }

  lemma OneMoves(c: Config, s: Pool, t: nat, a: Action)
    requires c.Valid() && |s.slots| == c.Size() && Enabled(s, t, a)
    ensures exists p :: MovesOnly(s, Step(c, s, t, a), p)
  {
    var pc := s.threads[t];
    var ticket := if pc.GetCas? && s.consHead < |s.produced| then s.produced[s.consHead].p else 0;
    var p := if pc.Idle? && a.Put? then a.p else if pc.Putting() then pc.p else if pc.GetPublish? then pc.r else ticket;
    assert MovesOnly(s, Step(c, s, t, a), p);
  }

  /** Every step moves at most one object, from one place to one other. */
  lemma StepKeepsLocated(c: Config, s: Pool, t: nat, a: Action)
    requires Inv(c, s) && Located(s) && Enabled(s, t, a) && !Hollow(s, t, a)
    ensures Located(Step(c, s, t, a)) && exists p :: MovesOnly(s, Step(c, s, t, a), p)
  {
    OneMoves(c, s, t, a);
    if s.threads[t].Consuming() || s.threads[t].GetCas? {
      TakeKeepsLocated(c, s, t, a);
    } else {
      PutKeepsLocated(c, s, t, a);
    }
  }

  lemma TakeKeepsLocated(c: Config, s: Pool, t: nat, a: Action)
    requires Tickets(c, s) && c.Valid() && Located(s) && Enabled(s, t, a) && !Hollow(s, t, a)
    requires s.threads[t].Consuming() || s.threads[t].GetCas?
    requires s.threads[t].GetPublish? ==> s.threads[t].r == s.produced[s.threads[t].h].p
    ensures Located(Step(c, s, t, a))
  {
    var s' := Step(c, s, t, a);
    if CasSucceeds(s, t, a) {
      GetClaimLocated(c, s, t, s');
    } else if s.threads[t].GetPublish? {
      GetDoneLocated(c, s, t, s');
    } else {
      StayLocated(c, s, t, s');
    }
  }

  lemma PutKeepsLocated(c: Config, s: Pool, t: nat, a: Action)
    requires Tickets(c, s) && c.Valid() && Located(s) && Enabled(s, t, a)
    requires !s.threads[t].Consuming() && !s.threads[t].GetCas?
    ensures Located(Step(c, s, t, a))
  {
    var s' := Step(c, s, t, a);
    var pc := s.threads[t];
    if pc.Idle? && a.Put? {
      StartPutLocated(c, s, t, a.p, s');
    } else if pc.PutLoadTail? && s'.threads[t].Idle? {
      DiscardLocated(c, s, t, s');
    } else if CasSucceeds(s, t, a) {
      PutClaimLocated(c, s, t, s');
    } else if pc.GetSecond? && s'.threads[t].Idle? {
      AllocateLocated(c, s, t, s');
    } else {
      StayLocated(c, s, t, s');
    }
  }

  /**
   With the head loaded first, as put_raw does, every timely run of any number of threads is safe, and at every moment
   every object is in exactly one place.
   */
  lemma {:induction false} HeadFirstRunSafe(c: Config, s: Pool, run: seq<Pick>)
    requires c.order.HeadFirst? && Inv(c, s) && Located(s) && Legal(c, s, run) && Never(c, s, run, StaleStep())
    ensures Always(c, s, run, x => Inv(c, x) && Located(x))
    decreases |run|
  {
    if run != [] {
      HeadFirstNotHollow(c, s, run[0].t, run[0].a);
      StepInvIff(c, s, run[0].t, run[0].a);
      StepKeepsLocated(c, s, run[0].t, run[0].a);
      HeadFirstRunSafe(c, Next(c, s, run[0]), run[1..]);
    }
  }

  /** From the start, then, with any number of threads. */
  lemma HeadFirstSafe(c: Config, n: nat, run: seq<Pick>)
    requires c.order.HeadFirst? && c.Valid() && Legal(c, Init(c, n), run) && Never(c, Init(c, n), run, StaleStep())
    ensures Always(c, Init(c, n), run, x => Inv(c, x) && Located(x))
  {
    InitInv(c, n);
    HeadFirstRunSafe(c, Init(c, n), run);
  }

  lemma HeadFirstNotHollow(c: Config, s: Pool, t: nat, a: Action)
    requires c.order.HeadFirst? && Inv(c, s) && Enabled(s, t, a) && (CasSucceeds(s, t, a) ==> !Stale(s, t))
    ensures !Hollow(s, t, a) && !Overrun(c, s, t, a)
  {
    if CasSucceeds(s, t, a) {
      NoOverrun(c, s, t, a);
      if Hollow(s, t, a) {
        HollowNeedsOvertakenTail(c, s, t, a);
      }
    }
  }

  lemma StepKeepsLog(c: Config, s: Pool, k: Pick)
    requires Can(c, s, k)
    ensures s.produced <= Next(c, s, k).produced
  {
  }

  lemma {:induction false} RunKeepsLog(c: Config, s: Pool, run: seq<Pick>)
    requires Legal(c, s, run) && Always(c, s, run, x => Inv(c, x))
    ensures s.produced <= After(c, s, run).produced && Inv(c, After(c, s, run))
    decreases |run|
  {
    if run != [] {
      StepKeepsLog(c, s, run[0]);
      RunKeepsLog(c, Next(c, s, run[0]), run[1..]);
    }
  }

  lemma {:induction false} SplitRun(c: Config, s: Pool, run: seq<Pick>, j: nat)
    requires Legal(c, s, run) && j <= |run|
    ensures Legal(c, s, run[..j]) && Legal(c, After(c, s, run[..j]), run[j..])
    ensures After(c, After(c, s, run[..j]), run[j..]) == After(c, s, run)
    ensures Always(c, s, run, x => Inv(c, x)) ==> Always(c, After(c, s, run[..j]), run[j..], x => Inv(c, x))
    decreases |run|
  {
    if j == 0 {
      assert run[..j] == [] && run[j..] == run;
    } else {
      SplitRun(c, Next(c, s, run[0]), run[1..], j - 1);
      assert run[..j][1..] == run[1..][..j - 1] && run[j..] == run[1..][j - 1..];
    }
  }

  /**
   In any safe run from the start: if ticket k was reserved for a pointer after the first j steps, then whatever happens
   in between, its consumer returns just that pointer.
   */
  lemma Delivery(c: Config, n: nat, run: seq<Pick>, j: nat, t: nat)
    requires Legal(c, Init(c, n), run) && Always(c, Init(c, n), run, x => Inv(c, x)) && j <= |run|
    requires var end := After(c, Init(c, n), run); t < |end.threads| && end.threads[t].GetPublish?
    ensures Legal(c, Init(c, n), run[..j])
    ensures var mid, pc := After(c, Init(c, n), run[..j]), After(c, Init(c, n), run).threads[t];
            pc.h < |mid.produced| ==> pc.r == mid.produced[pc.h].p
  {
    SplitRun(c, Init(c, n), run, j);
    RunKeepsLog(c, After(c, Init(c, n), run[..j]), run[j..]);
  }

  // ----- the load order as written -----

  /** Only the threads in g call get_raw. */
  ghost predicate GetsBy(run: seq<Pick>, g: set<nat>) {
    forall i | 0 <= i < |run| && run[i].a.Get? :: run[i].t in g
  }

  /** Some timely run in which only the threads in g call get_raw leads from s to x. */
  ghost predicate Reaches(c: Config, s: Pool, x: Pool, g: set<nat>) {
    exists run :: Legal(c, s, run) && Never(c, s, run, StaleStep()) && GetsBy(run, g) && After(c, s, run) == x
  }

  lemma {:induction false} Append(c: Config, s: Pool, run: seq<Pick>, k: Pick)
    requires Legal(c, s, run) && Can(c, After(c, s, run), k)
    requires Never(c, s, run, StaleStep()) && !Stale(After(c, s, run), k.t)
    ensures Legal(c, s, run + [k]) && After(c, s, run + [k]) == Next(c, After(c, s, run), k)
    ensures Never(c, s, run + [k], StaleStep())
    decreases |run|
  {
    if run == [] {
      assert [k][1..] == [];
    } else {
      Append(c, Next(c, s, run[0]), run[1..], k);
      assert (run + [k])[1..] == run[1..] + [k];
    }
  }

  lemma Start(c: Config, s: Pool, g: set<nat>)
    ensures Reaches(c, s, s, g)
  {
    assert After(c, s, []) == s && GetsBy([], g);
  }

  /** Thread t takes one more step. */
  lemma Then(c: Config, s: Pool, x: Pool, g: set<nat>, t: nat, a: Action) returns (x': Pool)
    requires Reaches(c, s, x, g) && Can(c, x, Pick(t, a)) && !Stale(x, t) && (a.Get? ==> t in g)
    ensures Reaches(c, s, x', g) && x' == Step(c, x, t, a)
  {
    var run :| Legal(c, s, run) && Never(c, s, run, StaleStep()) && GetsBy(run, g) && After(c, s, run) == x;
    Append(c, s, run, Pick(t, a));
    x' := Step(c, x, t, a);
  }

  /** get_raw on an empty ring, alone: a new object. */
  lemma SoloAllocate(c: Config, s: Pool, x: Pool, g: set<nat>, t: nat) returns (x': Pool)
    requires Reaches(c, s, x, g) && c.Valid() && |x.slots| == c.Size()
    requires t in g && t < |x.threads| && x.threads[t].Idle? && x.consHead == x.prodTail
    ensures Reaches(c, s, x', g)
    ensures x' == x.(clients := x.clients + {x.made}, made := x.made + 1, place := x.place + [Client])
  {
    x' := Then(c, s, x, g, t, Get);
    x' := Then(c, s, x', g, t, Go);
    x' := Then(c, s, x', g, t, Go);
    assert x'.threads == x.threads;
  }

  lemma HasRoom(c: Config, x: Pool, t: nat)
    requires c.Valid() && Ordered(c, x) && x.prodHead < x.consTail + c.Mask()
    requires t < |x.threads| && x.threads[t].PutLoadTail? && x.threads[t].h == x.prodHead
    ensures Step(c, x, t, Go) == To(x, t, PutCas(x.threads[t].p, x.prodHead))
  {
    DifferencesAreTrue(c, x);
  }

  /** put_raw on a ring with room, alone: up to the CAS ... */
  lemma SoloLoadPut(c: Config, s: Pool, x: Pool, g: set<nat>, t: nat, p: Ptr) returns (x': Pool)
    requires Reaches(c, s, x, g) && c.Valid() && Ordered(c, x)
    requires t < |x.threads| && x.threads[t].Idle? && p in x.clients && p < |x.place|
    requires x.prodHead < x.consTail + c.Mask()
    ensures Reaches(c, s, x', g)
    ensures x' == To(x, t, PutCas(p, x.prodHead)).(clients := x.clients - {p}, place := x.place[p := InFlight(t)])
  {
    x' := Then(c, s, x, g, t, Put(p));
    x' := Then(c, s, x', g, t, Go);
    HasRoom(c, x', t);
    x' := Then(c, s, x', g, t, Go);
    assert x'.threads == x.threads[t := PutCas(p, x.prodHead)];
  }

  /** ... then the ticket ... */
  lemma SoloReservePut(c: Config, s: Pool, x: Pool, g: set<nat>, t: nat, p: Ptr) returns (x': Pool)
    requires Reaches(c, s, x, g) && c.Valid() && Ordered(c, x)
    requires t < |x.threads| && x.threads[t].Idle? && p in x.clients && p < |x.place|
    requires x.prodHead < x.consTail + c.Mask()
    ensures Reaches(c, s, x', g)
    ensures x' == To(x, t, PutWrite(p, x.prodHead)).(clients := x.clients - {p}, prodHead := x.prodHead + 1,
                     produced := x.produced + [Ticket(p, t)], place := x.place[p := Pooled(x.prodHead)])
  {
    x' := SoloLoadPut(c, s, x, g, t, p);
    x' := Then(c, s, x', g, t, Go);
    assert x'.threads == x.threads[t := PutWrite(p, x.prodHead)];
    assert x'.place == x.place[p := Pooled(x.prodHead)];
  }

  /** ... then the pointer and its publication. */
  lemma SoloPublish(c: Config, s: Pool, x: Pool, g: set<nat>, t: nat) returns (x': Pool)
    requires Reaches(c, s, x, g) && c.Valid() && |x.slots| == c.Size()
    requires t < |x.threads| && x.threads[t].PutWrite? && x.threads[t].h == x.prodTail
    ensures Reaches(c, s, x', g)
    ensures x' == To(x, t, Idle).(prodTail := x.prodTail + 1, slots := x.slots[Slot(c, x.prodTail) := x.threads[t].p])
  {
    x' := Then(c, s, x, g, t, Go);
    x' := Then(c, s, x', g, t, Go);
    x' := Then(c, s, x', g, t, Go);
    assert x'.threads == x.threads[t := Idle];
  }

  /** get_raw on a non-empty ring, alone: first the ticket ... */
  lemma SoloReserveGet(c: Config, s: Pool, x: Pool, g: set<nat>, t: nat) returns (x': Pool)
    requires Reaches(c, s, x, g) && c.Valid() && Ordered(c, x)
    requires t in g && t < |x.threads| && x.threads[t].Idle? && x.consHead < x.prodTail && x.produced[x.consHead].p < |x.place|
    ensures Reaches(c, s, x', g)
    ensures x' == To(x, t, GetRead(x.consHead)).(consHead := x.consHead + 1, consumed := x.consumed + [t],
                     place := x.place[x.produced[x.consHead].p := InFlight(t)])
  {
    DifferencesAreTrue(c, x);
    x' := Then(c, s, x, g, t, Get);
    x' := Then(c, s, x', g, t, Go);
    x' := Then(c, s, x', g, t, Go);
    x' := Then(c, s, x', g, t, Go);
    assert x'.threads == x.threads[t := GetRead(x.consHead)];
  }

  /** ... then whatever the slot holds. */
  lemma SoloTake(c: Config, s: Pool, x: Pool, g: set<nat>, t: nat) returns (x': Pool)
    requires Reaches(c, s, x, g) && c.Valid() && |x.slots| == c.Size()
    requires t < |x.threads| && x.threads[t].GetRead? && x.threads[t].h == x.consTail
    ensures Reaches(c, s, x', g)
    ensures var r := x.slots[Slot(c, x.consTail)];
            x' == Move(To(x, t, Idle).(consTail := x.consTail + 1, clients := x.clients + {r}), r, Client)
  {
    x' := Then(c, s, x, g, t, Go);
    x' := Then(c, s, x', g, t, Go);
    x' := Then(c, s, x', g, t, Go);
    assert x'.threads == x.threads[t := Idle];
  }

  /** Thread b has an object made, and thread a loads _prod_tail in get_raw. */
  lemma FirstLoad(c: Config, n: nat, a: nat, b: nat) returns (x: Pool)
    requires c.Valid() && c.order.TailFirst? && a < n && b < n && a != b
    ensures Reaches(c, Init(c, n), x, {a, b}) && Ordered(c, x) && |x.slots| == c.Size()
    ensures |x.threads| == n && x.threads[a] == GetSecond(0) && x.threads[b].Idle?
    ensures x.prodHead == x.prodTail == x.consHead == x.consTail == 0
    ensures 1 in x.clients && 1 < |x.place| && forall i | 0 <= i < |x.slots| :: x.slots[i] == 0
  {
    var s, g := Init(c, n), {a, b};
    Start(c, s, g);
    x := SoloAllocate(c, s, s, g, b);
    x := Then(c, s, x, g, a, Get);
    x := Then(c, s, x, g, a, Go);
  }

  /** Thread a loads _prod_tail in get_raw; thread b then puts and gets an object. */
  lemma Overtaken(c: Config, n: nat, a: nat, b: nat) returns (x: Pool)
    requires c.Valid() && c.log >= 1 && c.order.TailFirst? && a < n && b < n && a != b
    ensures Reaches(c, Init(c, n), x, {a, b}) && |x.slots| == c.Size() >= 2 && x.slots[1] == 0
    ensures |x.threads| == n && x.threads[a] == GetSecond(0)
    ensures x.prodTail == x.consHead == x.consTail == 1
  {
    var s, g := Init(c, n), {a, b};
    Pow2Monotone(1, c.log);
    x := FirstLoad(c, n, a, b);
    x := SoloReservePut(c, s, x, g, b, 1);
    x := SoloPublish(c, s, x, g, b);
    x := SoloReserveGet(c, s, x, g, b);
    x := SoloTake(c, s, x, g, b);
  }

  /** The code as written is not safe: thread a reserves a slot nobody has filled and its client gets a null pointer. */
  lemma TailFirstIsUnsafe(c: Config, n: nat, a: nat, b: nat) returns (x: Pool)
    requires c.Valid() && c.log >= 1 && c.order.TailFirst? && a < n && b < n && a != b
    ensures Reaches(c, Init(c, n), x, {a, b})
    ensures 0 in x.clients && x.prodTail < x.consHead
  {
    x := Overtaken(c, n, a, b);
    x := HollowTicket(c, Init(c, n), x, {a, b}, a);
    x := SoloTake(c, Init(c, n), x, {a, b}, a);
  }

  /** The two loads give 0 - 1 entries, which is not 0. */
  lemma HollowTicket(c: Config, s: Pool, x: Pool, g: set<nat>, a: nat) returns (x': Pool)
    requires Reaches(c, s, x, g) && c.Valid() && c.order.TailFirst? && |x.slots| == c.Size()
    requires a < |x.threads| && x.threads[a] == GetSecond(0) && x.prodTail == x.consHead == 1
    ensures Reaches(c, s, x', g) && a < |x'.threads| && x'.threads[a] == GetRead(1)
    ensures x'.consHead == 2 && x'.prodTail == 1 && x'.slots == x.slots && x'.consTail == x.consTail
  {
    assert U32(U32(0) - U32(1)) == M - 1;
    x' := Then(c, s, x, g, a, Go);
    assert x'.threads[a] == GetCas(0, 1);
    x' := Then(c, s, x', g, a, Go);
  }

  // ----- who may call get_raw as written -----

  /** With the tail loaded first: only thread g is ever in get_raw, so nobody overtakes the tail it has loaded. */
  ghost predicate SoleGetter(s: Pool, g: nat) {
    forall i | 0 <= i < |s.threads| :: SoleKnows(s, i, g)
  }

  ghost predicate SoleKnows(s: Pool, i: nat, g: nat)
    requires i < |s.threads|
  {
    match s.threads[i]
    case GetStart => i == g
    case GetSecond(first) => i == g && s.consHead <= first
    case GetCas(tail, h) => i == g && h == s.consHead < tail
    case _ => true
  }

  lemma SoleNotHollow(c: Config, s: Pool, g: nat, t: nat, a: Action)
    requires Inv(c, s) && SoleGetter(s, g) && Enabled(s, t, a)
    ensures !Hollow(s, t, a)
  {
    assert Knows(c, s, s.threads[t]) && SoleKnows(s, t, g);
  }

  lemma SoleSelf(c: Config, s: Pool, g: nat, t: nat, a: Action)
    requires c.order.TailFirst? && c.Valid() && Ordered(c, s) && Enabled(s, t, a) && (a.Get? ==> t == g)
    requires SoleKnows(s, t, g)
    ensures t < |Step(c, s, t, a).threads| && SoleKnows(Step(c, s, t, a), t, g)
  {
    if s.threads[t].GetSecond? && Step(c, s, t, a).threads[t].GetCas? {
      EntryCheck(s.threads[t].first, s.consHead);
    }
  }

  /** consHead is moved by get_raw alone, that is by thread g. */
  lemma SoleOther(c: Config, s: Pool, g: nat, t: nat, a: Action, i: nat)
    requires c.Valid() && |s.slots| == c.Size() && Enabled(s, t, a) && i < |s.threads| && i != t
    requires SoleKnows(s, t, g) && SoleKnows(s, i, g)
    ensures i < |Step(c, s, t, a).threads| && SoleKnows(Step(c, s, t, a), i, g)
  {
    var s' := Step(c, s, t, a);
    assert s'.threads[i] == s.threads[i];
    assert s'.consHead != s.consHead ==> t == g;
  }

  lemma SoleStep(c: Config, s: Pool, g: nat, t: nat, a: Action)
    requires c.order.TailFirst? && Inv(c, s) && SoleGetter(s, g) && Enabled(s, t, a) && (a.Get? ==> t == g)
    ensures SoleGetter(Step(c, s, t, a), g)
  {
    var s' := Step(c, s, t, a);
    assert SoleKnows(s, t, g);
    forall i | 0 <= i < |s'.threads| ensures SoleKnows(s', i, g) {
      if i == t {
        SoleSelf(c, s, g, t, a);
      } else {
        assert SoleKnows(s, i, g);
        SoleOther(c, s, g, t, a, i);
      }
    }
  }

  lemma SoleStepSafe(c: Config, s: Pool, g: nat, t: nat, a: Action)
    requires c.order.TailFirst? && Inv(c, s) && Located(s) && SoleGetter(s, g)
    requires Enabled(s, t, a) && !(CasSucceeds(s, t, a) && Stale(s, t)) && (a.Get? ==> t == g)
    ensures Inv(c, Step(c, s, t, a)) && Located(Step(c, s, t, a)) && SoleGetter(Step(c, s, t, a), g)
  {
    SoleNotHollow(c, s, g, t, a);
    if CasSucceeds(s, t, a) {
      NoOverrun(c, s, t, a);
    }
    StepInvIff(c, s, t, a);
    StepKeepsLocated(c, s, t, a);
    SoleStep(c, s, g, t, a);
  }

  /** One thread that calls get_raw is safe with the loads as written, however many call put_raw. */
  lemma {:induction false} SoleRunSafe(c: Config, s: Pool, run: seq<Pick>, g: nat)
    requires c.order.TailFirst? && Inv(c, s) && Located(s) && SoleGetter(s, g)
    requires Legal(c, s, run) && Never(c, s, run, StaleStep()) && GetsBy(run, {g})
    ensures Always(c, s, run, x => Inv(c, x) && Located(x))
    decreases |run|
  {
    if run != [] {
      SoleStepSafe(c, s, g, run[0].t, run[0].a);
      assert forall i | 0 <= i < |run[1..]| :: run[1..][i] == run[i + 1];
      SoleRunSafe(c, Next(c, s, run[0]), run[1..], g);
    }
  }

  /** A ring of one slot, which its MASK of 0 never lets be used: every object is allocated and destroyed. */
  lemma {:induction false} UnusedRingSafe(c: Config, s: Pool, run: seq<Pick>)
    requires c.log == 0 && Inv(c, s) && Located(s) && s.prodHead == 0
    requires Legal(c, s, run) && Never(c, s, run, StaleStep())
    ensures Always(c, s, run, x => Inv(c, x) && Located(x))
    decreases |run|
  {
    if run != [] {
      var t, a := run[0].t, run[0].a;
      assert Knows(c, s, s.threads[t]);
      if CasSucceeds(s, t, a) {
        NoOverrun(c, s, t, a);
      }
      StepInvIff(c, s, t, a);
      StepKeepsLocated(c, s, t, a);
      UnusedRingSafe(c, Next(c, s, run[0]), run[1..]);
    }
  }

  lemma {:induction false} AlwaysAtEnd(c: Config, s: Pool, run: seq<Pick>, P: Pool -> bool)
    requires Legal(c, s, run) && Always(c, s, run, P)
    ensures P(After(c, s, run))
    decreases |run|
  {
    if run != [] {
      AlwaysAtEnd(c, Next(c, s, run[0]), run[1..], P);
    }
  }

  /** Every timely schedule of n threads in which only those in g call get_raw is safe. */
  ghost predicate SafeFor(c: Config, n: nat, g: set<nat>) {
    forall run | Legal(c, Init(c, n), run) && Never(c, Init(c, n), run, StaleStep()) && GetsBy(run, g) ::
      Always(c, Init(c, n), run, x => Inv(c, x) && Located(x))
  }

  /** The pool as written is safe exactly if its ring is never used or at most one thread calls get_raw. */
  lemma TailFirstSafeIff(c: Config, n: nat, g: set<nat>)
    requires c.Valid() && c.order.TailFirst? && forall t | t in g :: t < n
    ensures SafeFor(c, n, g) <==> c.log == 0 || |g| <= 1
  {
    if c.log == 0 || |g| <= 1 {
      forall run | Legal(c, Init(c, n), run) && Never(c, Init(c, n), run, StaleStep()) && GetsBy(run, g)
        ensures Always(c, Init(c, n), run, x => Inv(c, x) && Located(x))
      {
        OneGetterSafe(c, n, g, run);
      }
    } else {
      TwoGettersUnsafe(c, n, g);
    }
  }

  lemma OneGetterSafe(c: Config, n: nat, g: set<nat>, run: seq<Pick>)
    requires c.Valid() && c.order.TailFirst? && (c.log == 0 || |g| <= 1)
    requires Legal(c, Init(c, n), run) && Never(c, Init(c, n), run, StaleStep()) && GetsBy(run, g)
    ensures Always(c, Init(c, n), run, x => Inv(c, x) && Located(x))
  {
    InitInv(c, n);
    if c.log == 0 {
      UnusedRingSafe(c, Init(c, n), run);
    } else {
      var t: nat := if g == {} then 0 else var t :| t in g; t;
      AtMostOne(g, t);
      SoleRunSafe(c, Init(c, n), run, t);
    }
  }

  lemma AtMostOne(g: set<nat>, t: nat)
    requires |g| <= 1 && (g != {} ==> t in g)
    ensures g <= {t}
  {
    if g != {} {
      assert |g - {t}| == 0;
    }
  }

  lemma TwoGettersUnsafe(c: Config, n: nat, g: set<nat>)
    requires c.Valid() && c.order.TailFirst? && c.log >= 1 && |g| > 1 && forall t | t in g :: t < n
    ensures !SafeFor(c, n, g)
  {
    var a :| a in g;
    assert |g - {a}| == |g| - 1;
    var b :| b in g - {a};
    var x := TailFirstIsUnsafe(c, n, a, b);
    var s := Init(c, n);
    var run :| Legal(c, s, run) && Never(c, s, run, StaleStep()) && GetsBy(run, {a, b}) && After(c, s, run) == x;
    if Always(c, s, run, y => Inv(c, y) && Located(y)) {
      AlwaysAtEnd(c, s, run, y => Inv(c, y) && Located(y));
    }
  }

  // ----- the destructor -----

  /** No call is under way. */
  ghost predicate Quiet(s: Pool) {
    forall i | 0 <= i < |s.threads| :: s.threads[i].Idle?
  }

  function Pointers(ts: seq<Ticket>): seq<Ptr> {
    seq(|ts|, i requires 0 <= i < |ts| => ts[i].p)
  }

  /** Every published slot holds its ticket's pointer. */
  ghost predicate Filled(c: Config, s: Pool) {
    && c.Valid() && Ordered(c, s)
    && forall k | s.consHead <= k < s.prodTail :: s.slots[k % c.Size()] == s.produced[k].p
  }

  lemma SafeIsFilled(c: Config, s: Pool)
    requires Inv(c, s)
    ensures Filled(c, s)
  {
    assert forall k | s.consHead <= k < s.prodTail :: Written(s, k);
  }

  lemma U32Succ(k: nat)
    ensures U32(U32(k) + 1) == U32(k + 1)
  {
    ModShift(k % M + 1, M, k / M);
  }

  lemma U32Equal(c: Config, k: nat, x: nat)
    requires c.Valid() && k <= x <= k + c.Mask() && U32(k) == U32(x)
    ensures k == x
  {
    SizeBound(c);
    ModInjective(k, x, M);
  }

  /** ~obj_pool: a 32-bit loop from cons_head to prod_tail that destroys what the slots hold. */
  method Drain(c: Config, s: Pool) returns (freed: seq<Ptr>)
    requires Filled(c, s)
    ensures freed == Pointers(s.produced[s.consHead..s.prodTail])
  {
    freed := [];
    var head, tail := U32(s.consHead), U32(s.prodTail);
    ghost var k := s.consHead;
    while head != tail
      invariant s.consHead <= k <= s.prodTail && head == U32(k)
      invariant freed == Pointers(s.produced[s.consHead..k])
      decreases s.prodTail - k
    {
      MaskedCounter(c, k);
      freed := freed + [s.slots[And(head, c.Mask())]];
      U32Succ(k);
      head := U32(head + 1);
      k := k + 1;
    }
    U32Equal(c, k, s.prodTail);
  }

  lemma QuietHasNoTickets(c: Config, s: Pool)
    requires Inv(c, s) && Quiet(s)
    ensures s.prodTail == s.prodHead && s.consTail == s.consHead
  {
    if s.prodTail < s.prodHead {
      var _ := OldestProducerCanAdvance(c, s);
    }
    if s.consTail < s.consHead {
      var _ := OldestConsumerCanAdvance(c, s);
    }
  }

  /** Drained when quiet, nothing is lost or freed twice: each object is the client's, was destroyed, or is in the drain. */
  lemma DrainIsComplete(c: Config, s: Pool, freed: seq<Ptr>)
    requires Ordered(c, s) && Located(s) && Quiet(s) && s.prodTail == s.prodHead
    requires freed == Pointers(s.produced[s.consHead..s.prodTail])
    ensures forall p: Ptr | 1 <= p < s.made :: p in s.clients || p in s.destroyed || p in freed
    ensures forall p: Ptr | p in freed :: 1 <= p < s.made && p !in s.clients && p !in s.destroyed
    ensures forall i, j | 0 <= i < j < |freed| :: freed[i] != freed[j]
  {
    assert forall i | 0 <= i < |freed| ::
        freed[i] == s.produced[s.consHead + i].p && s.place[freed[i]] == Pooled(s.consHead + i);
    forall p: Ptr | 1 <= p < s.made ensures p in s.clients || p in s.destroyed || p in freed {
      assert At(s, p, s.place[p]);
      if s.place[p].Pooled? {
        assert freed[s.place[p].k - s.consHead] == p;
      }
    }
  }

  /** ~obj_pool, called when no call is under way: each object made is the client's, was destroyed, or is freed, once. */
  method Destructor(c: Config, s: Pool) returns (freed: seq<Ptr>)
    requires Inv(c, s) && Located(s) && Quiet(s)
    ensures forall p: Ptr | 1 <= p < s.made :: p in s.clients || p in s.destroyed || p in freed
    ensures forall p: Ptr | p in freed :: 1 <= p < s.made && p !in s.clients && p !in s.destroyed
    ensures forall i, j | 0 <= i < j < |freed| :: freed[i] != freed[j]
  {
    SafeIsFilled(c, s);
    QuietHasNoTickets(c, s);
    freed := Drain(c, s);
    DrainIsComplete(c, s, freed);
  }
}
