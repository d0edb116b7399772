/** The counting semaphore of src/semaphore.h. */
module Semaphore {
  import opened Wrappers
  import opened ExpiringFifo

  datatype Request = Request(id: nat, nr: nat)

  /**
   supplied is what was put in at first or signalled, less what was consumed, until the semaphore is broken; arrivals,
   granted and timedOut tell what has become of the requests that were accepted.
   */
  datatype State = State(
    count: int, broken: bool, queue: seq<Request>, supplied: int, arrivals: seq<Request>, granted: seq<Request>,
    timedOut: set<nat>)

  function Units(rs: seq<Request>): nat {
    if rs == [] then 0 else Units(rs[..|rs| - 1]) + rs[|rs| - 1].nr
  }

  function Skip(rs: seq<Request>, out: set<nat>): (l: seq<Request>)
    ensures forall i | 0 <= i < |l| :: l[i] in rs && l[i].id !in out
  {
    if rs == [] then []
    else Skip(rs[..|rs| - 1], out) + if rs[|rs| - 1].id in out then [] else [rs[|rs| - 1]]
  }

  /** The ledger, and the order: what was granted and what waits is what arrived, but for what timed out. */
  ghost predicate Inv(s: State) {
    if s.broken then s.count == 0 && s.queue == []
    else
      && s.count == s.supplied - Units(s.granted)
      && s.granted + s.queue == Skip(s.arrivals, s.timedOut)
      && (forall i, j | 0 <= i < j < |s.arrivals| :: s.arrivals[i].id != s.arrivals[j].id)
      && (forall r | r in s.timedOut :: exists i :: 0 <= i < |s.arrivals| && s.arrivals[i].id == r)
  }

  ghost predicate New(s: State, r: Request) {
    forall i | 0 <= i < |s.arrivals| :: s.arrivals[i].id != r.id
  }

  // ----- the operations as functions -----

  predicate Has(count: int, nr: nat) {
    count >= 0 && count >= nr
  }

  predicate MayProceed(s: State, nr: nat) {
    Has(s.count, nr) && s.queue == []
  }

  function Granted(s: State, r: Request): State {
    s.(count := s.count - r.nr, arrivals := s.arrivals + [r], granted := s.granted + [r])
  }

  function AfterTryWait(s: State, r: Request): State {
    if MayProceed(s, r.nr) then Granted(s, r) else s
  }

  /** The units are looked at first, so a broken semaphore still grants a request for none. */
  function AfterWait(s: State, r: Request): State {
    if MayProceed(s, r.nr) then Granted(s, r)
    else if s.broken then s
    else s.(queue := s.queue + [r], arrivals := s.arrivals + [r])
  }

  function Drained(s: State): State
    decreases |s.queue|
  {
    if s.queue == [] || !Has(s.count, s.queue[0].nr) then s
    else Drained(s.(count := s.count - s.queue[0].nr, queue := s.queue[1..], granted := s.granted + [s.queue[0]]))
  }

  function AfterSignal(s: State, nr: nat): State {
    if s.broken then s else Drained(s.(count := s.count + nr, supplied := s.supplied + nr))
  }

  function AfterConsume(s: State, nr: nat): State {
    if s.broken then s else s.(count := s.count - nr, supplied := s.supplied - nr)
  }

  function AfterTimeOut(s: State, k: nat): State
    requires k < |s.queue|
  {
    s.(queue := Without(s.queue, k), timedOut := s.timedOut + {s.queue[k].id})
  }

  function AfterBroken(s: State): State {
    s.(broken := true, count := 0, queue := [])
  }

  // ----- what they keep -----

  lemma SkipNew(rs: seq<Request>, r: Request, out: set<nat>)
    ensures Skip(rs + [r], out) == Skip(rs, out) + if r.id in out then [] else [r]
  {
    assert (rs + [r])[..|rs|] == rs;
  }

  lemma UnitsOne(rs: seq<Request>, r: Request)
    ensures Units(rs + [r]) == Units(rs) + r.nr
  {
    assert (rs + [r])[..|rs|] == rs;
  }

  ghost predicate Distinct(rs: seq<Request>) {
    forall i, j | 0 <= i < j < |rs| :: rs[i].id != rs[j].id
  }

  /** One more request left out of the order goes missing from where it was. */
  lemma {:induction false} SkipOne(rs: seq<Request>, out: set<nat>, k: nat)
    requires Distinct(rs) && k < |Skip(rs, out)|
    ensures Skip(rs, out + {Skip(rs, out)[k].id}) == Without(Skip(rs, out), k)
  {
    var n := |rs| - 1;
    var rest, l := Skip(rs[..n], out), Skip(rs, out);
    if k < |rest| {
      SkipOne(rs[..n], out, k);
      assert rest[k] in rs[..n];
      assert l[k] == rest[k];
    } else {
      assert l[k] == rs[n];
      SkipMissing(rs[..n], out, rs[n].id);
    }
  }

  lemma {:induction false} SkipMissing(rs: seq<Request>, out: set<nat>, id: nat)
    requires forall i | 0 <= i < |rs| :: rs[i].id != id
    ensures Skip(rs, out + {id}) == Skip(rs, out)
  {
    if rs != [] {
      SkipMissing(rs[..|rs| - 1], out, id);
    }
  }

  lemma GrantKeeps(s: State, r: Request)
    requires Inv(s) && (s.broken || New(s, r)) && MayProceed(s, r.nr)
    ensures Inv(Granted(s, r))
  {
    assert s.granted + s.queue == s.granted && s.granted + [r] + s.queue == s.granted + [r];
    SkipNew(s.arrivals, r, s.timedOut);
    UnitsOne(s.granted, r);
  }

  lemma WaitKeeps(s: State, r: Request)
    requires Inv(s) && (s.broken || New(s, r))
    ensures Inv(AfterWait(s, r)) && Inv(AfterTryWait(s, r))
  {
    if MayProceed(s, r.nr) {
      GrantKeeps(s, r);
    } else if !s.broken {
      SkipNew(s.arrivals, r, s.timedOut);
      assert s.granted + (s.queue + [r]) == (s.granted + s.queue) + [r];
    }
  }

  /** The front of the queue cannot be served. */
  ghost predicate Blocked(s: State) {
    s.queue != [] ==> !Has(s.count, s.queue[0].nr)
  }

  lemma {:induction false} DrainKeeps(s: State)
    requires Inv(s) && !s.broken
    ensures Inv(Drained(s)) && Blocked(Drained(s)) && s.granted <= Drained(s).granted
    decreases |s.queue|
  {
    if s.queue != [] && Has(s.count, s.queue[0].nr) {
      UnitsOne(s.granted, s.queue[0]);
      assert s.granted + s.queue == (s.granted + [s.queue[0]]) + s.queue[1..];
      DrainKeeps(s.(count := s.count - s.queue[0].nr, queue := s.queue[1..], granted := s.granted + [s.queue[0]]));
    }
  }

  lemma TimeOutKeeps(s: State, k: nat)
    requires Inv(s) && k < |s.queue|
    ensures Inv(AfterTimeOut(s, k))
  {
    var j := |s.granted| + k;
    SkipOne(s.arrivals, s.timedOut, j);
    assert Without(s.granted + s.queue, j) == s.granted + Without(s.queue, k);
    assert s.queue[k] == Skip(s.arrivals, s.timedOut)[j];
    assert s.queue[k] in s.arrivals;
  }

  datatype Step = Wait(r: Request) | TryWait(r: Request) | Signal(nr: nat) | Consume(nr: nat) | TimeOut(k: nat) | Break

  ghost predicate Legal(s: State, t: Step) {
    match t
    case Wait(r) => s.broken || New(s, r)
    case TryWait(r) => s.broken || New(s, r)
    case TimeOut(k) => k < |s.queue|
    case _ => true
  }

  ghost function Next(s: State, t: Step): State
    requires Legal(s, t)
  {
    match t
    case Wait(r) => AfterWait(s, r)
    case TryWait(r) => AfterTryWait(s, r)
    case Signal(nr) => AfterSignal(s, nr)
    case Consume(nr) => AfterConsume(s, nr)
    case TimeOut(k) => AfterTimeOut(s, k)
    case Break => AfterBroken(s)
  }

  lemma StepKeeps(s: State, t: Step)
    requires Inv(s) && Legal(s, t)
    ensures Inv(Next(s, t))
  {
    match t
    case Wait(r) => WaitKeeps(s, r);
    case TryWait(r) => WaitKeeps(s, r);
    case Signal(nr) =>
      if !s.broken {
        DrainKeeps(s.(count := s.count + nr, supplied := s.supplied + nr));
      }
    case TimeOut(k) => TimeOutKeeps(s, k);
    case _ =>
  }

  /** Only a timeout can leave a front that could be served, and only one that brings a smaller request to the front. */
  lemma StaysBlocked(s: State, t: Step)
    requires Inv(s) && Legal(s, t) && Blocked(s)
    ensures Blocked(Next(s, t)) <==>
            !(t.TimeOut? && t.k == 0 && |s.queue| > 1 && Has(s.count, s.queue[1].nr))
  {
    if t.Signal? && !s.broken {
      DrainKeeps(s.(count := s.count + t.nr, supplied := s.supplied + t.nr));
    }
  }

  /** A signal makes up for it. */
  lemma SignalBlocks(s: State, nr: nat)
    requires Inv(s)
    ensures Blocked(AfterSignal(s, nr))
  {
    if !s.broken {
      DrainKeeps(s.(count := s.count + nr, supplied := s.supplied + nr));
    }
  }

  /** It does happen, whenever a request for too much waits in front of one for less (say ten, and three, of five):
      once the first times out, nobody looks at the second, which could be served. */
  lemma TimeOutUnblocks(count: nat, r: Request, q: Request)
    requires q.nr <= count < r.nr && r.id != q.id
    ensures var s := AfterWait(AfterWait(Initial(count), r), q);
            Blocked(s) && s.queue == [r, q] && !Blocked(AfterTimeOut(s, 0))
  {
    var s := AfterWait(Initial(count), r);
    assert s.queue == [r] && s.count == count;
    assert Without([r, q], 0) == [q];
  }

  function Initial(count: nat): (s: State)
    ensures Inv(s) && Blocked(s)
  {
    State(count, false, [], count, [], [], {})
  }

  ghost predicate LegalRun(s: State, ts: seq<Step>)
    decreases ts
  {
    ts == [] || (Legal(s, ts[0]) && LegalRun(Next(s, ts[0]), ts[1..]))
  }

  ghost function Run(s: State, ts: seq<Step>): State
    requires LegalRun(s, ts)
    decreases ts
  {
    if ts == [] then s else Run(Next(s, ts[0]), ts[1..])
  }

  lemma {:induction false} RunKeeps(s: State, ts: seq<Step>)
    requires Inv(s) && LegalRun(s, ts)
    ensures Inv(Run(s, ts))
    ensures Blocked(s) && (forall i | 0 <= i < |ts| :: !ts[i].TimeOut?) ==> Blocked(Run(s, ts))
    decreases ts
  {
    if ts != [] {
      StepKeeps(s, ts[0]);
      if Blocked(s) && forall i | 0 <= i < |ts| :: !ts[i].TimeOut? {
        StaysBlocked(s, ts[0]);
      }
      RunKeeps(Next(s, ts[0]), ts[1..]);
    }
  }

  /** From the start: the ledger, arrival order but for those timed out, and, without timeouts, a front that must wait. */
  lemma AnyRun(count: nat, ts: seq<Step>)
    requires LegalRun(Initial(count), ts)
    ensures var s := Run(Initial(count), ts);
            && (!s.broken ==> s.count == s.supplied - Units(s.granted))
            && (!s.broken ==> s.granted + s.queue == Skip(s.arrivals, s.timedOut))
            && ((forall i | 0 <= i < |ts| :: !ts[i].TimeOut?) ==> Blocked(s))
  {
    RunKeeps(Initial(count), ts);
  }

  // ----- the class -----

  /** What the future of a request holds from the start. */
  datatype Answer = Ready | Broken | Later

  class BasicSemaphore {
    var count: int
    var broken: bool // whether _ex is set
    const waiters: Fifo<Request>
    var granted: seq<Request> // the promises fulfilled, in order
    var failed: seq<Request>  // the promises failed, on a timeout or when the semaphore broke
    ghost var supplied: int
    ghost var arrivals: seq<Request>
    ghost var timedOut: set<nat>

    ghost function Now(): State
      reads this, waiters
    {
      State(count, broken, Live(waiters.list), supplied, arrivals, granted, timedOut)
    }

    ghost predicate Valid()
      reads this, waiters
    {
      Inv(Now()) && waiters.Valid()
    }

    constructor (count: nat)
      ensures Valid() && fresh(waiters) && Now() == Initial(count) && failed == []
    {
      waiters := new Fifo<Request>();
      this.count, broken, granted, failed := count, false, [], [];
      supplied, arrivals, timedOut := count, [], {};
      new;
      assert Now() == Initial(count);
    }

    /** may_proceed */
    method CanTake(nr: nat) returns (b: bool)
      requires waiters.Valid()
      ensures b == MayProceed(Now(), nr)
    {
      var e := waiters.Empty();
      b := Has(count, nr) && e;
    }

    method Take(r: Request)
      modifies this
      ensures Now() == Granted(old(Now()), r) && failed == old(failed)
    {
      count := count - r.nr;
      granted := granted + [r];
      arrivals := arrivals + [r];
    }

    method Wait(r: Request, timed: bool) returns (a: Answer)
      requires Valid() && (broken || New(Now(), r))
      modifies this, waiters
      ensures Valid() && Now() == AfterWait(old(Now()), r) && failed == old(failed)
      ensures a == if MayProceed(old(Now()), r.nr) then Ready else if broken then Broken else Later
    {
      WaitKeeps(Now(), r);
      var b := CanTake(r.nr);
      if b {
        Take(r);
        return Ready;
      }
      if broken {
        return Broken;
      }
      waiters.PushBack(r, timed);
      arrivals := arrivals + [r];
      a := Later;
    }

    method TryWait(r: Request) returns (b: bool)
      requires Valid() && (broken || New(Now(), r))
      modifies this
      ensures Valid() && Now() == AfterTryWait(old(Now()), r) && failed == old(failed)
      ensures b == MayProceed(old(Now()), r.nr)
    {
      WaitKeeps(Now(), r);
      b := CanTake(r.nr);
      if b {
        Take(r);
      }
    }

    method Signal(nr: nat)
      requires Valid()
      modifies this, waiters
      ensures Valid() && Now() == AfterSignal(old(Now()), nr) && failed == old(failed)
    {
      StepKeeps(Now(), Step.Signal(nr));
      if !broken {
        count := count + nr;
        supplied := supplied + nr;
        Drain();
      }
    }

    /** The loop of signal. */
    method Drain()
      requires waiters.Valid()
      modifies this, waiters
      ensures waiters.Valid() && Now() == Drained(old(Now())) && failed == old(failed)
    {
      var more := Servable();
      while more
        invariant waiters.Valid() && failed == old(failed)
        invariant Drained(Now()) == Drained(old(Now()))
        invariant more == (Now().queue != [] && Has(count, Now().queue[0].nr))
        decreases |Live(waiters.list)|
      {
        var x := waiters.Front();
        count := count - x.nr;
        granted := granted + [x];
        waiters.PopFront();
        more := Servable();
      }
    }

    method Servable() returns (b: bool)
      requires waiters.Valid()
      ensures b == (Now().queue != [] && Has(count, Now().queue[0].nr))
    {
      b := waiters.Empty();
      if b {
        return false;
      }
      var x := waiters.Front();
      b := Has(count, x.nr);
    }

    method Consume(nr: nat)
      requires Valid()
      modifies this
      ensures Valid() && Now() == AfterConsume(old(Now()), nr) && failed == old(failed)
    {
      if !broken {
        count := count - nr;
        supplied := supplied - nr;
      }
    }

    /** The timer of the waiter at index i of the list goes off: its promise fails, nothing else is done. */
    method TimeOut(i: nat)
      requires Valid() && i < |waiters.list| && waiters.list[i].timed && waiters.list[i].payload.Some?
      modifies this, waiters
      ensures Valid() && old(Rank(waiters.list, i)) < |old(Now()).queue|
      ensures Now() == AfterTimeOut(old(Now()), old(Rank(waiters.list, i)))
      ensures failed == old(failed) + [old(Now()).queue[old(Rank(waiters.list, i))]]
    {
      LiveExpired(waiters.list, i);
      TimeOutKeeps(Now(), Rank(waiters.list, i));
      var x := waiters.Expire(i);
      failed := failed + [x];
      timedOut := timedOut + {x.id};
    }

    /** broken: every waiter fails, in order. */
    method Break()
      requires Valid()
      modifies this, waiters
      ensures Valid() && Now() == AfterBroken(old(Now()))
      ensures failed == old(failed) + old(Now()).queue
    {
      broken := true;
      count := 0;
      FailAll();
    }

    method FailAll()
      requires waiters.Valid()
      modifies this`failed, waiters
      ensures waiters.Valid() && Live(waiters.list) == []
      ensures failed == old(failed) + old(Live(waiters.list))
    {
      var e := waiters.Empty();
      while !e
        invariant waiters.Valid() && e == (Live(waiters.list) == [])
        invariant failed + Live(waiters.list) == old(failed) + old(Live(waiters.list))
        decreases |Live(waiters.list)|
      {
        ghost var l := Live(waiters.list);
        var x := waiters.Front();
        failed := failed + [x];
        waiters.PopFront();
        assert l == [x] + Live(waiters.list);
        e := waiters.Empty();
      }
    }
  }

  /** semaphore_units: units on loan, given back once, when the last owner goes. */
  class SemaphoreUnits {
    const sem: BasicSemaphore
    var n: nat

    constructor (sem: BasicSemaphore, n: nat)
      ensures this.sem == sem && this.n == n
    {
      this.sem, this.n := sem, n;
    }

    constructor Move(o: SemaphoreUnits)
      modifies o
      ensures sem == o.sem && n == old(o.n) && o.n == 0
    {
      sem, n := o.sem, o.n;
      new;
      o.n := 0;
    }

    /** ~semaphore_units */
    method Drop()
      requires sem.Valid()
      modifies this, sem, sem.waiters
      ensures sem.Valid() && n == 0
      ensures sem.Now() == if old(n) == 0 then old(sem.Now()) else AfterSignal(old(sem.Now()), old(n))
    {
      if n != 0 {
        sem.Signal(n);
      }
      n := 0;
    }

    /** Giving up the units without giving them back. */
    method Release() returns (r: nat)
      modifies this
      ensures r == old(n) && n == 0
    {
      r, n := n, 0;
    }
  }
}
