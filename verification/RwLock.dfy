/** The readers-writer lock of src/rwlock.h: units of one semaphore, one for a reader and all of them for a writer. */
module RwLock {
  import S = Semaphore

  /** The largest value of the semaphore's counter, std::intmax_t. */
  const MAX_OPS: nat := 0x7FFF_FFFF_FFFF_FFFF

  /** n times max. */
  function AllOps(max: nat, n: nat): (u: nat)
    ensures n > 0 ==> u >= max
  {
    if n == 0 then 0 else max + AllOps(max, n - 1)
  }

  lemma {:induction false} AllOpsLess(max: nat, n: nat, k: nat)
    requires k <= n
    ensures AllOps(max, n) == AllOps(max, n - k) + AllOps(max, k)
  {
    if k > 0 {
      AllOpsLess(max, n - 1, k - 1);
    }
  }

  /** The semaphore, the units it has in all, and how often each kind of lock was given back. */
  datatype Lock = Lock(max: nat, sem: S.State, readsDone: nat, writesDone: nat)

  function Reads(rs: seq<S.Request>): nat {
    if rs == [] then 0 else Reads(rs[..|rs| - 1]) + if rs[|rs| - 1].nr == 1 then 1 else 0
  }

  function Writes(rs: seq<S.Request>): nat {
    if rs == [] then 0 else Writes(rs[..|rs| - 1]) + if rs[|rs| - 1].nr == 1 then 0 else 1
  }

  predicate Plain(rs: seq<S.Request>, max: nat) {
    forall i | 0 <= i < |rs| :: rs[i].nr == 1 || rs[i].nr == max
  }

  /** Readers that hold the lock. */
  function Readers(l: Lock): int {
    Reads(l.sem.granted) - l.readsDone
  }

  function Writers(l: Lock): int {
    Writes(l.sem.granted) - l.writesDone
  }

  ghost predicate Inv(l: Lock) {
    S.Inv(l.sem) && S.Blocked(l.sem) && Counts(l)
  }

  ghost predicate Counts(l: Lock) {
    && !l.sem.broken && l.sem.count >= 0
    && l.max >= 2 && Plain(l.sem.granted, l.max) && Plain(l.sem.queue, l.max)
    && l.sem.supplied == l.max + l.readsDone + AllOps(l.max, l.writesDone)
    && Readers(l) >= 0 && Writers(l) >= 0
  }

  lemma {:induction false} UnitsSplit(rs: seq<S.Request>, max: nat)
    requires Plain(rs, max) && max >= 2
    ensures S.Units(rs) == Reads(rs) + AllOps(max, Writes(rs))
  {
    if rs != [] {
      UnitsSplit(rs[..|rs| - 1], max);
    }
  }

  /** The units are all accounted for, so a writer is alone. */
  lemma Exclusion(l: Lock)
    requires Inv(l)
    ensures l.sem.count + Readers(l) + AllOps(l.max, Writers(l)) == l.max
    ensures Writers(l) <= 1 && (Writers(l) == 1 ==> Readers(l) == 0 && l.sem.count == 0)
  {
    UnitsSplit(l.sem.granted, l.max);
    AllOpsLess(l.max, Writes(l.sem.granted), l.writesDone);
  }

  /** Nobody waits for a lock that nobody holds, and a reader waits in front only for a writer, or when every unit is out. */
  lemma WaitersHaveReason(l: Lock)
    requires Inv(l) && l.sem.queue != []
    ensures Readers(l) > 0 || Writers(l) == 1
    ensures l.sem.queue[0].nr == 1 ==> Writers(l) == 1 || Readers(l) == l.max
  {
    Exclusion(l);
  }

  // ----- the operations -----

  datatype Step = ReadLock(id: nat) | WriteLock(id: nat) | TryReadLock(id: nat) | TryWriteLock(id: nat)
      | ReadUnlock | WriteUnlock

  function SemStep(t: Step, max: nat): S.Step {
    match t
    case ReadLock(id) => S.Wait(S.Request(id, 1))
    case WriteLock(id) => S.Wait(S.Request(id, max))
    case TryReadLock(id) => S.TryWait(S.Request(id, 1))
    case TryWriteLock(id) => S.TryWait(S.Request(id, max))
    case ReadUnlock => S.Signal(1)
    case WriteUnlock => S.Signal(max)
  }

  /** Only who holds a lock gives it back. */
  ghost predicate Legal(l: Lock, t: Step) {
    && S.Legal(l.sem, SemStep(t, l.max))
    && (t.ReadUnlock? ==> Readers(l) > 0)
    && (t.WriteUnlock? ==> Writers(l) > 0)
  }

  ghost function Next(l: Lock, t: Step): Lock
    requires Legal(l, t)
  {
    l.(sem := S.Next(l.sem, SemStep(t, l.max)), readsDone := l.readsDone + if t.ReadUnlock? then 1 else 0,
       writesDone := l.writesDone + if t.WriteUnlock? then 1 else 0)
  }

  lemma CountsAppend(rs: seq<S.Request>, r: S.Request)
    ensures Reads(rs + [r]) == Reads(rs) + (if r.nr == 1 then 1 else 0)
    ensures Writes(rs + [r]) == Writes(rs) + (if r.nr == 1 then 0 else 1)
  {
    assert (rs + [r])[..|rs|] == rs;
  }

  lemma PlainMoved(granted: seq<S.Request>, queue: seq<S.Request>, max: nat)
    requires Plain(granted, max) && Plain(queue, max) && queue != []
    ensures Plain(granted + [queue[0]], max) && Plain(queue[1..], max)
  {
  }

  lemma {:induction false} DrainCounts(s: S.State, max: nat)
    requires Plain(s.granted, max) && Plain(s.queue, max) && s.count >= 0
    ensures var s' := S.Drained(s);
            && Plain(s'.granted, max) && Plain(s'.queue, max) && s'.count >= 0 && s'.supplied == s.supplied
                && s'.broken == s.broken
            && Reads(s'.granted) >= Reads(s.granted) && Writes(s'.granted) >= Writes(s.granted)
    decreases |s.queue|
  {
    if s.queue != [] && S.Has(s.count, s.queue[0].nr) {
      CountsAppend(s.granted, s.queue[0]);
      PlainMoved(s.granted, s.queue, max);
      DrainCounts(s.(count := s.count - s.queue[0].nr, queue := s.queue[1..], granted := s.granted + [s.queue[0]]), max);
    }
  }

  /** A request is granted at once, queued or refused. */
  ghost predicate Acquired(s: S.State, s': S.State, r: S.Request) {
    && !s'.broken && s'.supplied == s.supplied && s'.count >= 0
    && (s'.granted == s.granted || s'.granted == s.granted + [r])
    && (s'.queue == s.queue || s'.queue == s.queue + [r])
  }

  lemma AcquireParts(s: S.State, t: S.Step, r: S.Request)
    requires !s.broken && s.count >= 0 && (t == S.Wait(r) || t == S.TryWait(r)) && S.Legal(s, t)
    ensures Acquired(s, S.Next(s, t), r)
  {
  }

  lemma AcquireCounts(l: Lock, s': S.State, r: S.Request)
    requires Counts(l) && Acquired(l.sem, s', r) && (r.nr == 1 || r.nr == l.max)
    ensures Counts(l.(sem := s'))
  {
    CountsAppend(l.sem.granted, r);
  }

  lemma AcquireKeeps(l: Lock, t: Step)
    requires Inv(l) && Legal(l, t) && !t.ReadUnlock? && !t.WriteUnlock?
    ensures Inv(Next(l, t))
  {
    var t' := SemStep(t, l.max);
    S.StepKeeps(l.sem, t');
    S.StaysBlocked(l.sem, t');
    AcquireParts(l.sem, t', t'.r);
    AcquireCounts(l, S.Next(l.sem, t'), t'.r);
  }

  /** After a signal of nr units, some of the waiters have been granted. */
  ghost predicate Released(s: S.State, s': S.State, nr: nat, max: nat) {
    && Plain(s'.granted, max) && Plain(s'.queue, max) && s'.count >= 0 && s'.supplied == s.supplied + nr && !s'.broken
    && Reads(s'.granted) >= Reads(s.granted) && Writes(s'.granted) >= Writes(s.granted)
  }

  lemma ReleaseParts(s: S.State, nr: nat, max: nat)
    requires !s.broken && s.count >= 0 && Plain(s.granted, max) && Plain(s.queue, max)
    ensures Released(s, S.AfterSignal(s, nr), nr, max)
  {
    DrainCounts(s.(count := s.count + nr, supplied := s.supplied + nr), max);
  }

  lemma ReleaseCounts(l: Lock, s': S.State, t: Step)
    requires Counts(l) && ((t.ReadUnlock? && Readers(l) > 0) || (t.WriteUnlock? && Writers(l) > 0))
    requires Released(l.sem, s', if t.ReadUnlock? then 1 else l.max, l.max)
    ensures Counts(l.(sem := s', readsDone := l.readsDone + if t.ReadUnlock? then 1 else 0,
                      writesDone := l.writesDone + if t.WriteUnlock? then 1 else 0))
  {
  }

  lemma ReleaseKeeps(l: Lock, t: Step)
    requires Inv(l) && Legal(l, t) && (t.ReadUnlock? || t.WriteUnlock?)
    ensures Inv(Next(l, t))
  {
    var t' := SemStep(t, l.max);
    S.StepKeeps(l.sem, t');
    S.SignalBlocks(l.sem, t'.nr);
    ReleaseParts(l.sem, t'.nr, l.max);
    ReleaseCounts(l, S.Next(l.sem, t'), t);
  }

  /** Every operation keeps the lock in order. */
  lemma StepKeeps(l: Lock, t: Step)
    requires Inv(l) && Legal(l, t)
    ensures Inv(Next(l, t))
  {
    if t.ReadUnlock? || t.WriteUnlock? {
      ReleaseKeeps(l, t);
    } else {
      AcquireKeeps(l, t);
    }
  }

  lemma TryKeeps(l: Lock, t: Step, r: S.Request)
    requires Inv(l) && Legal(l, t) && SemStep(t, l.max) == S.TryWait(r) && (t.TryReadLock? || t.TryWriteLock?)
    ensures Next(l, t) == l.(sem := S.AfterTryWait(l.sem, r)) && Inv(l.(sem := S.AfterTryWait(l.sem, r)))
  {
    StepKeeps(l, t);
  }

  ghost predicate Fresh(l: Lock) {
    && l.max >= 2 && l.sem.count == l.sem.supplied == l.max && !l.sem.broken && l.sem.timedOut == {}
    && l.sem.queue == l.sem.arrivals == l.sem.granted == [] && l.readsDone == l.writesDone == 0
  }

  lemma FreshKeeps(l: Lock)
    requires Fresh(l)
    ensures Inv(l)
  {
  }

  ghost predicate LegalRun(l: Lock, ts: seq<Step>)
    decreases ts
  {
    ts == [] || (Legal(l, ts[0]) && LegalRun(Next(l, ts[0]), ts[1..]))
  }

  ghost function Run(l: Lock, ts: seq<Step>): Lock
    requires LegalRun(l, ts)
    decreases ts
  {
    if ts == [] then l else Run(Next(l, ts[0]), ts[1..])
  }

  lemma {:induction false} RunKeeps(l: Lock, ts: seq<Step>)
    requires Inv(l) && LegalRun(l, ts)
    ensures Inv(Run(l, ts)) && Run(l, ts).max == l.max
    decreases ts
  {
    if ts != [] {
      StepKeeps(l, ts[0]);
      RunKeeps(Next(l, ts[0]), ts[1..]);
    }
  }

  /** Over any run from the start, a writer excludes readers and other writers. */
  lemma AlwaysExclusive(start: Lock, ts: seq<Step>)
    requires Fresh(start) && LegalRun(start, ts)
    ensures var l := Run(start, ts);
            && Inv(l) && l.sem.count + Readers(l) + AllOps(l.max, Writers(l)) == l.max == start.max
            && Writers(l) <= 1 && (Writers(l) == 1 ==> Readers(l) == 0)
            && (Readers(l) == 0 && Writers(l) == 0 ==> l.sem.queue == [])
  {
    FreshKeeps(start);
    RunKeeps(start, ts);
    var l := Run(start, ts);
    Exclusion(l);
    if l.sem.queue != [] {
      WaitersHaveReason(l);
    }
  }

  class RwLock {
    const max: nat
    const sem: S.BasicSemaphore
    ghost var readsDone: nat
    ghost var writesDone: nat

    ghost function Now(): Lock
      reads this, sem, sem.waiters
    {
      Lock(max, sem.Now(), readsDone, writesDone)
    }

    ghost predicate Valid()
      reads this, sem, sem.waiters
    {
      sem.Valid() && Inv(Now())
    }

    constructor OfMax(max: nat)
      requires max >= 2
      ensures Valid() && fresh(sem) && fresh(sem.waiters) && Fresh(Now()) && this.max == max
    {
      sem := new S.BasicSemaphore(max);
      this.max := max;
      readsDone, writesDone := 0, 0;
      new;
      FreshKeeps(Now());
    }

    /** rwlock() */
    static method Create() returns (l: RwLock)
      ensures fresh(l) && l.Valid() && fresh(l.sem) && l.max == MAX_OPS && Fresh(l.Now())
    {
      l := new RwLock.OfMax(MAX_OPS);
    }

    method ReadLock(id: nat) returns (a: S.Answer)
      requires Valid() && S.New(sem.Now(), S.Request(id, 1))
      modifies sem, sem.waiters
      ensures Valid() && Now() == Next(old(Now()), Step.ReadLock(id))
      ensures a == if S.MayProceed(old(sem.Now()), 1) then S.Ready else S.Later
    {
      StepKeeps(Now(), Step.ReadLock(id));
      a := sem.Wait(S.Request(id, 1), false);
    }

    method WriteLock(id: nat) returns (a: S.Answer)
      requires Valid() && S.New(sem.Now(), S.Request(id, max))
      modifies sem, sem.waiters
      ensures Valid() && Now() == Next(old(Now()), Step.WriteLock(id))
      ensures a == if S.MayProceed(old(sem.Now()), max) then S.Ready else S.Later
    {
      StepKeeps(Now(), Step.WriteLock(id));
      a := sem.Wait(S.Request(id, max), false);
    }

    method TryReadLock(id: nat) returns (b: bool)
      requires Valid() && S.New(sem.Now(), S.Request(id, 1))
      modifies sem
      ensures Valid() && Now() == Next(old(Now()), Step.TryReadLock(id)) && b == S.MayProceed(old(sem.Now()), 1)
    {
      TryKeeps(Now(), Step.TryReadLock(id), S.Request(id, 1));
      b := sem.TryWait(S.Request(id, 1));
    }

    method TryWriteLock(id: nat) returns (b: bool)
      requires Valid() && S.New(sem.Now(), S.Request(id, max))
      modifies sem
      ensures Valid() && Now() == Next(old(Now()), Step.TryWriteLock(id)) && b == S.MayProceed(old(sem.Now()), max)
    {
      TryKeeps(Now(), Step.TryWriteLock(id), S.Request(id, max));
      b := sem.TryWait(S.Request(id, max));
    }

    method ReadUnlock()
      requires Valid() && Readers(Now()) > 0
      modifies this, sem, sem.waiters
      ensures Valid() && Now() == Next(old(Now()), Step.ReadUnlock)
    {
      StepKeeps(Now(), Step.ReadUnlock);
      sem.Signal(1);
      readsDone := readsDone + 1;
      assert Now() == Next(old(Now()), Step.ReadUnlock);
    }

    method WriteUnlock()
      requires Valid() && Writers(Now()) > 0
      modifies this, sem, sem.waiters
      ensures Valid() && Now() == Next(old(Now()), Step.WriteUnlock)
    {
      StepKeeps(Now(), Step.WriteUnlock);
      sem.Signal(max);
      writesDone := writesDone + 1;
      assert Now() == Next(old(Now()), Step.WriteUnlock);
    }
  }
}
