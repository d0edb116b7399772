/** The bounded queue of src/fueue.h, on which one reader and one writer can wait. */
module Fueue {
  import opened Wrappers

  /** How it stands with the continuation on _not_empty or _not_full: none, the promise is there, it was set, it failed. */
  datatype Waiter = Idle | Waits | Woken | Failed

  /** ex tells whether the queue was aborted. */
  datatype State<T> = State(q: seq<T>, max: nat, ex: bool, reader: Waiter, writer: Waiter)

  predicate Full<T>(f: State<T>) {
    |f.q| >= f.max
  }

  /** A promise is there only while what it waits for is not so. */
  ghost predicate Inv<T>(f: State<T>) {
    (f.reader.Waits? ==> f.q == []) && (f.writer.Waits? ==> Full(f))
  }

  // ----- the operations as functions -----

  function Notify(w: Waiter): Waiter {
    if w.Waits? then Woken else w
  }

  function Pushed<T>(f: State<T>, x: T): State<T> {
    f.(q := f.q + [x], reader := Notify(f.reader))
  }

  /** push: refused when full. */
  function AfterPush<T>(f: State<T>, x: T): State<T> {
    if |f.q| < f.max then Pushed(f, x) else f
  }

  /** The writer is notified only by the pop that leaves the full state. */
  function AfterPop<T>(f: State<T>): State<T>
    requires f.q != []
  {
    f.(q := f.q[1..], writer := if |f.q| == f.max then Notify(f.writer) else f.writer)
  }

  /** What push_eventually does at once; x is pushed later if the queue is full. */
  function AfterPushEventually<T>(f: State<T>, x: T): State<T> {
    if Full(f) then f.(writer := Waits) else Pushed(f, x)
  }

  /** What pop_eventually does at once. */
  function AfterPopEventually<T>(f: State<T>): State<T> {
    if f.q == [] then f.(reader := Waits) else AfterPop(f)
  }

  function AfterSetMaxSize<T>(f: State<T>, max: nat): State<T> {
    f.(max := max, writer := if |f.q| < max then Notify(f.writer) else f.writer)
  }

  function Fail(w: Waiter): Waiter {
    if w.Waits? then Failed else w
  }

  function AfterAbort<T>(f: State<T>): State<T> {
    f.(q := [], ex := true, reader := Fail(f.reader), writer := Fail(f.writer))
  }

  /** The items passed to func: up to and with the first that it answers with false. */
  function Taken<T>(q: seq<T>, func: T -> bool): (n: nat)
    ensures n <= |q|
  {
    if q == [] then 0 else if func(q[0]) then 1 + Taken(q[1..], func) else 1
  }

  /** Taken is the least number of items that ends with a false answer, or all of them. */
  lemma {:induction false} TakenIs<T>(q: seq<T>, func: T -> bool)
    ensures var n := Taken(q, func);
            && (forall i | 0 <= i < n - 1 :: func(q[i]))
            && (n < |q| ==> n > 0 && !func(q[n - 1]))
  {
    if q != [] && func(q[0]) {
      TakenIs(q[1..], func);
      var n := Taken(q, func);
      assert forall i | 0 < i < n :: q[i] == q[1..][i - 1];
    }
  }

  function AfterConsume<T>(f: State<T>, func: T -> bool): State<T> {
    var q := f.q[Taken(f.q, func)..];
    f.(q := q, writer := if |q| < f.max then Notify(f.writer) else f.writer)
  }

  /** Every operation keeps the promises honest, with the continuations run at any later time. */
  lemma Keeps<T>(f: State<T>, x: T, n: nat, func: T -> bool)
    requires Inv(f)
    ensures Inv(AfterPush(f, x)) && Inv(Pushed(f, x)) && Inv(AfterSetMaxSize(f, n)) && Inv(AfterAbort(f))
    ensures f.q != [] ==> Inv(AfterPop(f))
    ensures Inv(AfterConsume(f, func)) && Inv(AfterPushEventually(f, x)) && Inv(AfterPopEventually(f))
  {
  }

  class Queue<T> {
    var q: seq<T>
    var max: nat
    var ex: bool
    var reader: Waiter
    var writer: Waiter

    ghost function Now(): State<T>
      reads this
    {
      State(q, max, ex, reader, writer)
    }

    constructor (max: nat)
      ensures Now() == State([], max, false, Idle, Idle)
    {
      q, this.max, ex, reader, writer := [], max, false, Idle, Idle;
    }

    method NotifyNotEmpty()
      modifies this`reader
      ensures reader == Notify(old(reader))
    {
      if reader == Waits {
        reader := Woken;
      }
    }

    method NotifyNotFull()
      modifies this`writer
      ensures writer == Notify(old(writer))
    {
      if writer == Waits {
        writer := Woken;
      }
    }

    method Push(x: T) returns (ok: bool)
      modifies this
      ensures Now() == AfterPush(old(Now()), x) && ok == (|old(q)| < max)
    {
      ok := |q| < max;
      if ok {
        q := q + [x];
        NotifyNotEmpty();
      }
    }

    method Pop() returns (x: T)
      requires q != []
      modifies this
      ensures Now() == AfterPop(old(Now())) && [x] + q == old(q)
    {
      if |q| == max {
        NotifyNotFull();
      }
      x, q := q[0], q[1..];
    }

    /** done if x was pushed at once; otherwise ForcePush is to be called when the promise is set. */
    method PushEventually(x: T) returns (done: bool)
      requires writer == Idle
      modifies this
      ensures Now() == AfterPushEventually(old(Now()), x) && done == !Full(old(Now()))
    {
      if |q| >= max {
        writer := Waits;
        return false;
      }
      q := q + [x];
      NotifyNotEmpty();
      done := true;
    }

    /** None if there is nothing to pop: Pop is to be called when the promise is set. */
    method PopEventually() returns (x: Option<T>)
      requires reader == Idle
      modifies this
      ensures Now() == AfterPopEventually(old(Now()))
      ensures x == if old(q) == [] then None else Some(old(q)[0])
    {
      if q == [] {
        reader := Waits;
        return None;
      }
      var y := Pop();
      x := Some(y);
    }

    /** The continuation of push_eventually. */
    method ForcePush(x: T)
      modifies this
      ensures Now() == Pushed(old(Now()), x)
    {
      q := q + [x];
      NotifyNotEmpty();
    }

    /** False exactly if func has answered with false. */
    method Consume(func: T -> bool) returns (running: bool)
      modifies this
      ensures Now() == AfterConsume(old(Now()), func)
      ensures running <==> forall i | 0 <= i < Taken(old(q), func) :: func(old(q)[i])
    {
      ghost var n: nat := 0;
      running := true;
      while q != [] && running
        invariant n <= |old(q)| && q == old(q)[n..]
        invariant running <==> forall i | 0 <= i < n :: func(old(q)[i])
        invariant max == old(max) && ex == old(ex) && reader == old(reader) && writer == old(writer)
        invariant Taken(old(q), func) == n + if running then Taken(q, func) else 0
        decreases |q|
      {
        running := func(q[0]);
        q := q[1..];
        n := n + 1;
      }
      if |q| < max {
        NotifyNotFull();
      }
    }

    method SetMaxSize(max: nat)
      modifies this
      ensures Now() == AfterSetMaxSize(old(Now()), max)
    {
      this.max := max;
      if |q| < max {
        NotifyNotFull();
      }
    }

    method Abort()
      modifies this
      ensures Now() == AfterAbort(old(Now()))
    {
      while q != []
        invariant Now() == old(Now()).(q := q)
        decreases |q|
      {
        q := q[1..];
      }
      ex := true;
      reader, writer := Fail(reader), Fail(writer);
    }
  }
}
