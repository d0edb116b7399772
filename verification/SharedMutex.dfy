/** The shared and exclusive lock of src/shared_mutex.h. */
module SharedMutex {
  datatype Waiter = Waiter(id: nat, forWrite: bool)

  /** granted and arrivals list the lock requests in the order in which they were granted and made. */
  datatype State = State(readers: nat, writer: bool, waiters: seq<Waiter>, granted: seq<nat>, arrivals: seq<nat>)

  function Ids(ws: seq<Waiter>): (ids: seq<nat>)
    ensures |ids| == |ws|
  {
    if ws == [] then [] else [ws[0].id] + Ids(ws[1..])
  }

  lemma {:induction false} IdsAppend(ws: seq<Waiter>, w: Waiter)
    ensures Ids(ws + [w]) == Ids(ws) + [w.id]
  {
    if ws != [] {
      IdsAppend(ws[1..], w);
      assert (ws + [w])[1..] == ws[1..] + [w];
    }
  }

  /** Those that hold the lock. */
  function Holders(s: State): nat {
    s.readers + if s.writer then 1 else 0
  }

  /** No writer beside readers, nobody waits for an idle lock, and locks are granted in the order of arrival. */
  ghost predicate Inv(s: State) {
    && (s.writer ==> s.readers == 0)
    && (s.waiters != [] ==> Holders(s) > 0)
    && (s.waiters != [] && !s.writer ==> s.waiters[0].forWrite)
    && s.granted + Ids(s.waiters) == s.arrivals
  }

  // ----- the operations as functions -----

  /** The effect of wake, called when there is no writer. */
  function Woken(s: State): State
    decreases |s.waiters|
  {
    if s.waiters == [] || (s.waiters[0].forWrite && s.readers > 0) then s
    else
      var w := s.waiters[0];
      var s' := s.(waiters := s.waiters[1..], granted := s.granted + [w.id]);
      if w.forWrite then s'.(writer := true) else Woken(s'.(readers := s.readers + 1))
  }

  function Waiting(s: State, id: nat, forWrite: bool): State {
    s.(waiters := s.waiters + [Waiter(id, forWrite)], arrivals := s.arrivals + [id])
  }

  function AfterLockShared(s: State, id: nat): State {
    if !s.writer && s.waiters == [] then
      s.(readers := s.readers + 1, granted := s.granted + [id], arrivals := s.arrivals + [id])
    else Waiting(s, id, false)
  }

  /** The queue is not looked at: nobody waits for an idle lock. */
  function AfterLock(s: State, id: nat): State {
    if s.readers == 0 && !s.writer then s.(writer := true, granted := s.granted + [id], arrivals := s.arrivals + [id])
    else Waiting(s, id, true)
  }

  function AfterUnlockShared(s: State): State
    requires s.readers > 0
  {
    Woken(s.(readers := s.readers - 1))
  }

  function AfterUnlock(s: State): State {
    Woken(s.(writer := false))
  }

  lemma {:induction false} WokenKeeps(s: State)
    requires !s.writer && s.granted + Ids(s.waiters) == s.arrivals
    ensures Inv(Woken(s)) && Woken(s).arrivals == s.arrivals
    ensures Holders(Woken(s)) + |Woken(s).waiters| == Holders(s) + |s.waiters|
    ensures |Woken(s).waiters| <= |s.waiters| && Woken(s).waiters == s.waiters[|s.waiters| - |Woken(s).waiters|..]
    decreases |s.waiters|
  {
    if s.waiters != [] && !s.waiters[0].forWrite {
      WokenKeeps(s.(waiters := s.waiters[1..], granted := s.granted + [s.waiters[0].id], readers := s.readers + 1));
    }
  }

  lemma WaitingKeeps(s: State, id: nat, forWrite: bool)
    requires Inv(s) && Holders(s) > 0 && (s.waiters == [] ==> s.writer || forWrite)
    ensures Inv(Waiting(s, id, forWrite))
  {
    IdsAppend(s.waiters, Waiter(id, forWrite));
  }

  datatype Step = LockSharedStep(id: nat) | LockStep(id: nat) | UnlockSharedStep | UnlockStep

  ghost predicate Legal(s: State, t: Step) {
    match t
    case UnlockSharedStep => s.readers > 0
    case UnlockStep => s.writer
    case _ => true
  }

  function Next(s: State, t: Step): State
    requires t.UnlockSharedStep? ==> s.readers > 0
  {
    match t
    case LockSharedStep(id) => AfterLockShared(s, id)
    case LockStep(id) => AfterLock(s, id)
    case UnlockSharedStep => AfterUnlockShared(s)
    case UnlockStep => AfterUnlock(s)
  }

  lemma StepKeeps(s: State, t: Step)
    requires Inv(s) && Legal(s, t)
    ensures Inv(Next(s, t))
  {
    match t
    case LockSharedStep(id) =>
      if s.writer || s.waiters != [] {
        WaitingKeeps(s, id, false);
      }
    case LockStep(id) =>
      if Holders(s) > 0 {
        WaitingKeeps(s, id, true);
      }
    case UnlockSharedStep => WokenKeeps(s.(readers := s.readers - 1));
    case UnlockStep => WokenKeeps(s.(writer := false));
  }

  // ----- how long a waiter waits -----

  ghost predicate LegalRun(s: State, ts: seq<Step>)
    decreases ts
  {
    ts == [] || (Legal(s, ts[0]) && LegalRun(Next(s, ts[0]), ts[1..]))
  }

  ghost function Run(s: State, ts: seq<Step>): State
    requires LegalRun(s, ts)
    decreases ts
  {
    if ts == [] then s else Run(Next(s, ts[0]), ts[1..])
  }

  function Unlocks(ts: seq<Step>): nat {
    if ts == [] then 0
    else (if ts[0].UnlockSharedStep? || ts[0].UnlockStep? then 1 else 0) + Unlocks(ts[1..])
  }

  /** One step from a state where p requests are ahead of the one with the given place in the order of arrival. */
  lemma OneStep(s: State, t: Step, place: nat)
    requires Inv(s) && Legal(s, t) && |s.granted| <= place < |s.arrivals|
    ensures Inv(Next(s, t)) && |Next(s, t).arrivals| >= |s.arrivals|
    ensures var s' := Next(s, t);
            place < |s'.granted|
            || (place - |s'.granted|) + Holders(s') + Unlocks([t]) <= (place - |s.granted|) + Holders(s)
  {
    StepKeeps(s, t);
    assert |s.granted| + |s.waiters| == |s.arrivals|;
    var s' := Next(s, t);
    assert |s'.granted| + |s'.waiters| == |s'.arrivals|;
    match t
    case UnlockSharedStep => WokenKeeps(s.(readers := s.readers - 1));
    case UnlockStep => WokenKeeps(s.(writer := false));
    case _ =>
  }

  lemma SomeoneHolds(s: State, place: nat)
    requires Inv(s) && |s.granted| <= place < |s.arrivals|
    ensures Holders(s) > 0
  {
    assert |s.granted| + |s.waiters| == |s.arrivals|;
  }

  /**
   A request with p others ahead of it and h holders is granted by the time of the (p + h)-th unlock, whatever other
   requests come in meanwhile.
   */
  lemma {:induction false} GrantBound(s: State, ts: seq<Step>, place: nat)
    requires Inv(s) && LegalRun(s, ts) && |s.granted| <= place < |s.arrivals|
    requires Unlocks(ts) >= (place - |s.granted|) + Holders(s)
    ensures place < |Run(s, ts).granted|
    decreases ts
  {
    SomeoneHolds(s, place);
    if ts != [] {
      OneStep(s, ts[0], place);
      var s' := Next(s, ts[0]);
      if place < |s'.granted| {
        StaysGranted(s', ts[1..], place);
      } else {
        GrantBound(s', ts[1..], place);
      }
    }
  }

  lemma {:induction false} StaysGranted(s: State, ts: seq<Step>, place: nat)
    requires LegalRun(s, ts) && place < |s.granted|
    ensures place < |Run(s, ts).granted|
    decreases ts
  {
    if ts != [] {
      MoreGranted(s, ts[0]);
      StaysGranted(Next(s, ts[0]), ts[1..], place);
    }
  }

  lemma MoreGranted(s: State, t: Step)
    requires Legal(s, t)
    ensures s.granted <= Next(s, t).granted
  {
    WokenGrows(s.(writer := false));
    if s.readers > 0 {
      WokenGrows(s.(readers := s.readers - 1));
    }
  }

  lemma {:induction false} WokenGrows(s: State)
    ensures s.granted <= Woken(s).granted
    decreases |s.waiters|
  {
    if s.waiters != [] && !s.waiters[0].forWrite {
      WokenGrows(s.(waiters := s.waiters[1..], granted := s.granted + [s.waiters[0].id], readers := s.readers + 1));
    }
  }

  // ----- the class -----

  class Mutex {
    var readers: nat
    var writer: bool
    var waiters: seq<Waiter>
    var granted: seq<nat> // the promises fulfilled, in order
    ghost var arrivals: seq<nat>

    ghost function Now(): State
      reads this
    {
      State(readers, writer, waiters, granted, arrivals)
    }

    ghost predicate Valid()
      reads this
    {
      Inv(Now())
    }

    constructor ()
      ensures Valid() && Now() == State(0, false, [], [], [])
    {
      readers, writer, waiters, granted, arrivals := 0, false, [], [], [];
    }

    /** True if the lock is had at once. */
    method LockShared(id: nat) returns (ready: bool)
      requires Valid()
      modifies this
      ensures Valid() && Now() == AfterLockShared(old(Now()), id)
      ensures ready <==> old(!writer && waiters == [])
      ensures ready ==> granted == old(granted) + [id]
    {
      StepKeeps(Now(), LockSharedStep(id));
      arrivals := arrivals + [id];
      if !writer && waiters == [] {
        readers := readers + 1;
        granted := granted + [id];
        return true;
      }
      waiters := waiters + [Waiter(id, false)];
      ready := false;
    }

    method Lock(id: nat) returns (ready: bool)
      requires Valid()
      modifies this
      ensures Valid() && Now() == AfterLock(old(Now()), id)
      ensures ready <==> old(Holders(Now()) == 0)
      ensures ready ==> granted == old(granted) + [id]
    {
      StepKeeps(Now(), LockStep(id));
      arrivals := arrivals + [id];
      if readers == 0 && !writer {
        writer := true;
        granted := granted + [id];
        return true;
      }
      waiters := waiters + [Waiter(id, true)];
      ready := false;
    }

    method UnlockShared()
      requires Valid() && readers > 0
      modifies this
      ensures Valid() && Now() == AfterUnlockShared(old(Now()))
    {
      StepKeeps(Now(), UnlockSharedStep);
      readers := readers - 1;
      Wake();
    }

    method Unlock()
      requires Valid() && writer
      modifies this
      ensures Valid() && Now() == AfterUnlock(old(Now()))
    {
      StepKeeps(Now(), UnlockStep);
      writer := false;
      Wake();
    }

    method Wake()
      modifies this
      ensures Now() == Woken(old(Now()))
    {
      while waiters != []
        invariant Woken(Now()) == Woken(old(Now()))
        decreases |waiters|
      {
        var w := waiters[0];
        if w.forWrite {
          if readers == 0 {
            writer := true;
            granted := granted + [w.id];
            waiters := waiters[1..];
            return;
          }
          break;
        } else {
          readers := readers + 1;
          granted := granted + [w.id];
          waiters := waiters[1..];
        }
      }
    }
  }
}
