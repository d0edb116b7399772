/** The promise and future objects of src/future.h, which point at each other across moves, destruction and forwarding. */
module Future {
  import opened Wrappers
  import opened FutureLinks

  /** What promise::_state points at: nothing, the promise's own state, or the state in its continuation. */
  datatype Pointer = Nowhere | Own | OfTask

  /** The promises are as recorded. */
  ghost predicate PromisesAre<T>(m: map<Promise<T>, PromiseRec<Future<T>, T>>)
    reads m.Keys
  {
    forall p | p in m :: p.Wf() && p.Rec() == m[p]
  }

  ghost predicate FuturesAre<T>(m: map<Future<T>, FutureRec<Promise<T>, T>>)
    reads m.Keys
  {
    forall f | f in m :: f.Rec() == m[f]
  }

  /** The engine's queue, and what there is at all of promises, futures and channels. */
  class Engine<T> {
    var queue: seq<Continuation<T>>
    ghost var now: World<Promise<T>, Future<T>, T>

    /** The objects are as recorded. */
    ghost predicate Faithful()
      reads this, now.ps.Keys, now.fs.Keys
    {
      queue == now.queue && PromisesAre(now.ps) && FuturesAre(now.fs)
    }

    ghost predicate Valid()
      reads this, now.ps.Keys, now.fs.Keys
    {
      Inv(now) && Faithful()
    }

    constructor ()
      ensures Valid() && now == Empty()
    {
      queue, now := [], Empty();
    }

    /** The bookkeeping of channels moves on, the objects stay. */
    ghost method Note(w: World<Promise<T>, Future<T>, T>)
      requires Faithful() && Inv(w) && w.ps == now.ps && w.fs == now.fs && w.queue == now.queue
      modifies this`now
      ensures Valid() && now == w
    {
      now := w;
    }

    /** The reactor runs the continuation at the front of its queue. */
    method RunTask() returns (k: Continuation<T>)
      requires Valid() && |queue| > 0
      modifies this
      ensures Valid() && now == Pop(old(now))
      ensures [k] + queue == old(queue)
    {
      PopKeeps(now);
      k, queue := queue[0], queue[1..];
      now := Pop(now);
    }
  }

  class Promise<T> {
    var fut: Future?<T>
    var local: State<T>
    var at: Pointer
    var task: Option<Continuation<T>>
    ghost var chan: nat

    ghost predicate Wf()
      reads this
    {
      at.OfTask? <==> task.Some?
    }

    /** *_state */
    function State(): State<T>
      reads this
    {
      if at.Own? then local else if at.OfTask? && task.Some? then task.value.state else Invalid
    }

    ghost function Rec(): PromiseRec<Future<T>, T>
      reads this
    {
      PromiseRec(if fut == null then None else var f: Future<T> := fut; Some(f),
                 if at.Own? then Local else if at.OfTask? && task.Some? then InTask(task.value.func) else Place.Null,
                 State(), chan)
    }

    ghost function Fut(): set<Future<T>>
      reads this
    {
      if fut == null then {} else {fut}
    }

    constructor (e: Engine<T>)
      requires e.Valid()
      modifies e
      ensures e.Valid()
      ensures e.now == NewPromise(old(e.now), this)
    {
      fut, local, at, task := null, Pending, Own, None;
      chan := e.now.next;
      new;
      NewPromiseKeeps(e.now, this);
      e.now := NewPromise(e.now, this);
    }

    /** The move constructor. */
    constructor Move(e: Engine<T>, other: Promise<T>)
      requires e.Valid() && other in e.now.ps
      modifies e`now, other, other.Fut()
      ensures e.Valid() && e.now == MovePromise(old(e.now), this, other)
    {
      fut, local, at, task := null, Pending, Nowhere, None;
      new;
      TakeFrom(e, other);
    }

    /** get_future */
    method GetFuture(e: Engine<T>) returns (f: Future<T>)
      requires e.Valid() && this in e.now.ps && fut == null && at == Own
      modifies this`fut, e`now
      ensures e.Valid() && fresh(f) && e.now == FutureLinks.GetFuture(old(e.now), this, f)
    {
      f := new Future<T>.Of(this);
      GetFutureKeeps(e.now, this, f);
      Link(e, f);
    }

    method Link(e: Engine<T>, f: Future<T>)
      requires e.Faithful() && this in e.now.ps && f !in e.now.fs && f.prom == this && f.local == Pending
          && f.chan == chan
      modifies this`fut, e`now
      ensures e.Faithful() && e.now == FutureLinks.GetFuture(old(e.now), this, f)
    {
      e.now := FutureLinks.GetFuture(e.now, this, f);
      fut := f;
    }

    /** set_value and set_exception, with make_ready. */
    method Set(e: Engine<T>, o: State<T>, urgent: bool)
      requires e.Valid() && this in e.now.ps && State() == Pending && o.Available()
      modifies this, e
      ensures e.Valid() && e.now == SetState(old(e.now), this, o, urgent)
    {
      SetStateKeeps(e.now, this, o, urgent);
      DoSet(e, o, urgent);
    }

    method DoSet(e: Engine<T>, o: State<T>, urgent: bool)
      requires e.Faithful() && this in e.now.ps && State() == Pending
      modifies this, e
      ensures e.Faithful() && e.now == SetState(old(e.now), this, o, urgent)
    {
      e.now := SetState(e.now, this, o, urgent);
      var k := SetFields(o);
      if k.Some? {
        e.queue := if urgent then [k.value] + e.queue else e.queue + [k.value];
      }
    }

    /** The state is set; a continuation comes out. */
    method SetFields(o: State<T>) returns (k: Option<Continuation<T>>)
      requires Wf() && State() == Pending
      modifies this
      ensures Wf() && if old(task).Some? then k == Some(old(task).value.(state := o))
          && Rec() == old(Rec()).(at := Place.Null, state := Invalid)
                      else k == None && Rec() == old(Rec()).(state := o)
    {
      k := None;
      if task.Some? {
        k := Some(task.value.(state := o));
        at, task := Nowhere, None;
      } else {
        local := o;
      }
    }

    /** The future linked is f from now on. */
    method Face(f: Future<T>, ghost m: map<Promise<T>, PromiseRec<Future<T>, T>>)
      requires PromisesAre(m) && this in m
      modifies this`fut
      ensures PromisesAre(m[this := m[this].(fut := Some(f))])
    {
      fut := f;
    }

    /** The future knows this promise, if there is one. */
    ghost predicate Known(e: Engine<T>)
      reads e, this, Fut()
    {
      this in e.now.ps && (fut != null ==> fut in e.now.fs && fut.prom == this)
    }

    /** ~promise */
    method Abandon(e: Engine<T>)
      requires e.Valid() && this in e.now.ps
      modifies this, Fut(), e`now
      ensures e.Valid() && e.now == FutureLinks.Abandon(old(e.now), this)
      ensures at == Nowhere && fut == null
    {
      AbandonKeeps(e.now, this);
      assert Known(e);
      DoAbandon(e);
    }

    method DoAbandon(e: Engine<T>)
      requires e.Faithful() && Known(e)
      modifies this, Fut(), e`now
      ensures e.Faithful() && e.now == FutureLinks.Abandon(old(e.now), this)
      ensures at == Nowhere && fut == null
    {
      e.now := FutureLinks.Abandon(e.now, this);
      if fut != null {
        LeaveState(old(e.now).fs);
      }
      Clear();
    }

    method Clear()
      requires Wf()
      modifies this
      ensures Wf() && Rec() == old(Rec()).(fut := None, at := Place.Null, state := Invalid)
      ensures at == Nowhere && fut == null
    {
      fut, at, task := null, Nowhere, None;
    }

    method LeaveState(ghost m: map<Future<T>, FutureRec<Promise<T>, T>>)
      requires fut != null && FuturesAre(m) && fut in m
      modifies fut
      ensures FuturesAre(m[fut := m[fut].(prom := None, local := State())])
    {
      fut.local := State();
      fut.prom := null;
    }

    /** What the move constructor does once there is an object, and assignment once the old contents are gone. */
    method TakeFrom(e: Engine<T>, other: Promise<T>)
      requires e.Valid() && other in e.now.ps && other != this && at == Nowhere && fut == null && Wf()
      modifies this, other, other.Fut(), e`now
      ensures e.Valid() && e.now == MovePromise(old(e.now), this, other)
    {
      MovePromiseKeeps(e.now, this, other);
      assert other.Known(e);
      DoTakeFrom(e, other);
    }

    method DoTakeFrom(e: Engine<T>, other: Promise<T>)
      requires e.Faithful() && other.Known(e) && other != this && at == Nowhere && fut == null && Wf()
      modifies this, other, other.Fut(), e`now
      ensures e.Faithful() && e.now == MovePromise(old(e.now), this, other)
    {
      ghost var w := e.now;
      e.now := MovePromise(e.now, this, other);
      TakeContents(other, w.ps);
      if fut != null {
        fut.Face(this, w.fs);
      }
    }

    method TakeContents(other: Promise<T>, ghost m: map<Promise<T>, PromiseRec<Future<T>, T>>)
      requires PromisesAre(m) && other in m && this != other && fut == null && Wf()
      modifies this, other
      ensures PromisesAre(m[other := m[other].(fut := None, at := Place.Null, state := Invalid)][this := m[other]])
      ensures fut == old(other.fut)
    {
      TakeFields(other);
    }

    method TakeFields(other: Promise<T>)
      requires this != other && Wf() && other.Wf()
      modifies this, other
      ensures Wf() && Rec() == old(other.Rec()) && fut == old(other.fut)
      ensures other.Wf() && other.Rec() == old(other.Rec()).(fut := None, at := Place.Null, state := Invalid)
    {
      fut, at, task, chan := other.fut, other.at, other.task, other.chan;
      if other.at == Own {
        local := other.local;
        other.local := Invalid;
      }
      other.fut, other.at, other.task := null, Nowhere, None;
    }

    /** The move assignment. */
    method Assign(e: Engine<T>, other: Promise<T>)
      requires e.Valid() && this in e.now.ps && other in e.now.ps
      modifies this, Fut(), other, other.Fut(), e`now
      ensures e.Valid()
      ensures e.now == if other == this then old(e.now)
                         else MovePromise(FutureLinks.Abandon(old(e.now), this), this, other)
    {
      if this != other {
        Abandon(e);
        TakeFrom(e, other);
      }
    }

    /** promise::schedule */
    method Schedule(e: Engine<T>, func: nat)
      requires e.Valid() && this in e.now.ps && fut == null && State() == Pending
      modifies this, e`now
      ensures e.Valid() && e.now == AttachTask(old(e.now), this, func)
    {
      AttachTaskKeeps(e.now, this, func);
      task, at := Some(Continuation(func, Pending)), OfTask;
      e.now := AttachTask(e.now, this, func);
    }
  }

  class Future<T> {
    var prom: Promise?<T>
    var local: State<T>
    ghost var chan: nat

    ghost function Rec(): FutureRec<Promise<T>, T>
      reads this
    {
      FutureRec(if prom == null then None else var p: Promise<T> := prom; Some(p), local, chan)
    }

    ghost function Prom(): set<Promise<T>>
      reads this
    {
      if prom == null then {} else {prom}
    }

    function State(): State<T>
      reads this, prom
    {
      if prom != null then prom.State() else local
    }

    constructor Of(p: Promise<T>)
      ensures prom == p && local == Pending && chan == p.chan
    {
      prom, local, chan := p, Pending, p.chan;
    }
  
    /** The move constructor. */
    constructor Move(e: Engine<T>, other: Future<T>)
      requires e.Valid() && other in e.now.fs
      modifies e`now, other, other.Prom()
      ensures e.Valid() && e.now == MoveFuture(old(e.now), this, other)
    {
      prom, local := null, Pending;
      new;
      TakeFrom(e, other);
    }

    /** make_ready_future and make_exception_future */
    constructor Ready(e: Engine<T>, o: State<T>)
      requires e.Valid() && o.Available()
      modifies e
      ensures e.Valid() && e.now == NewReady(old(e.now), this, o)
    {
      prom, local, chan := null, o, e.now.next;
      new;
      NewReadyKeeps(e.now, this, o);
      e.now := NewReady(e.now, this, o);
    }

    /** The promise linked is p from now on. */
    method Face(p: Promise<T>, ghost m: map<Future<T>, FutureRec<Promise<T>, T>>)
      requires FuturesAre(m) && this in m
      modifies this`prom
      ensures FuturesAre(m[this := m[this].(prom := Some(p))])
    {
      prom := p;
    }

    /** The promise knows this future, if there is one. */
    ghost predicate Known(e: Engine<T>)
      reads e, this, Prom()
    {
      this in e.now.fs && (prom != null ==> prom in e.now.ps && prom.fut == this && prom.at == Own)
    }

    /** What the move constructor does once there is an object. */
    method TakeFrom(e: Engine<T>, other: Future<T>)
      requires e.Valid() && other in e.now.fs && other != this && prom == null && !local.Available()
      modifies this, other, other.Prom(), e`now
      ensures e.Valid() && e.now == MoveFuture(old(e.now), this, other)
    {
      MoveFutureKeeps(e.now, this, other);
      assert other.Known(e);
      DoTakeFrom(e, other);
    }

    method DoTakeFrom(e: Engine<T>, other: Future<T>)
      requires e.Faithful() && other.Known(e) && other != this && prom == null
      modifies this, other, other.Prom(), e`now
      ensures e.Faithful() && e.now == MoveFuture(old(e.now), this, other)
    {
      ghost var w := e.now;
      e.now := MoveFuture(e.now, this, other);
      TakeContents(other, w.fs);
      if prom != null {
        prom.Face(this, w.ps);
      }
    }

    method TakeContents(other: Future<T>, ghost m: map<Future<T>, FutureRec<Promise<T>, T>>)
      requires FuturesAre(m) && other in m && this != other
      modifies this, other
      ensures var r := m[other];
              FuturesAre(m[other := r.(prom := None, local := if r.prom.Some? then r.local else Invalid)][this := r])
      ensures prom == old(other.prom)
    {
      TakeFields(other);
    }

    method TakeFields(other: Future<T>)
      requires this != other
      modifies this, other
      ensures Rec() == old(other.Rec()) && prom == old(other.prom)
      ensures other.Rec() == old(other.Rec()).(prom := None, local := if old(other.prom) == null then Invalid else old(other.local))
    {
      prom, local, chan := other.prom, other.local, other.chan;
      if other.prom == null {
        other.local := Invalid;
      }
      other.prom := null;
    }

    /** ~future */
    method Detach(e: Engine<T>)
      requires e.Valid() && this in e.now.fs
      modifies this, Prom(), e`now
      ensures e.Valid() && e.now == FutureLinks.Detach(old(e.now), this)
      ensures prom == null && (old(prom) != null ==> local == old(local) && old(prom).fut == null)
      ensures !local.Available() || old(prom) != null
    {
      DetachKeeps(e.now, this);
      assert Known(e);
      DoDetach(e);
    }

    method DoDetach(e: Engine<T>)
      requires e.Faithful() && Known(e)
      modifies this, Prom(), e`now
      ensures e.Faithful() && e.now == FutureLinks.Detach(old(e.now), this)
      ensures prom == null && (old(prom) != null ==> local == old(local) && old(prom).fut == null)
      ensures !local.Available() || old(prom) != null
    {
      e.now := FutureLinks.Detach(e.now, this);
      if prom != null {
        prom.fut := null;
        prom := null;
      } else {
        local := Invalid;
      }
    }

    /** The move assignment: the old future goes, the new one comes. */
    method Assign(e: Engine<T>, other: Future<T>)
      requires e.Valid() && this in e.now.fs && other in e.now.fs
      modifies this, Prom(), other, other.Prom(), e`now
      ensures e.Valid()
      ensures other == this ==> e.now == old(e.now)
      ensures other != this ==> old(this in e.now.fs && other in e.now.fs
          && other in FutureLinks.Detach(e.now, this).fs) &&
                                e.now == MoveFuture(FutureLinks.Detach(old(e.now), this), this, other)
    {
      if this != other {
        SameState(e);
        Detach(e);
        assert other.prom == old(other.prom) && !local.Available();
        TakeFrom(e, other);
      }
    }

    /** `std::move(*state())` */
    method MoveOut(e: Engine<T>) returns (o: State<T>)
      requires e.Valid() && this in e.now.fs && State().Available()
      modifies this, Prom(), e`now
      ensures e.Valid() && e.now == Consume(old(e.now), this)
      ensures o == old(State()) && prom == old(prom)
    {
      ConsumeKeeps(e.now, this);
      assert Known(e);
      o := DoMoveOut(e);
    }

    method DoMoveOut(e: Engine<T>) returns (o: State<T>)
      requires e.Faithful() && Known(e) && State().Available()
      modifies this, Prom(), e`now
      ensures e.Faithful() && e.now == Consume(old(e.now), this)
      ensures o == old(State()) && prom == old(prom)
    {
      o := State();
      e.now := Consume(e.now, this);
      if prom != null {
        prom.local := Invalid;
      } else {
        local := Invalid;
      }
    }

    /** get_available_state */
    method GetAvailableState(e: Engine<T>) returns (o: State<T>)
      requires e.Valid() && this in e.now.fs && State().Available()
      modifies this, Prom(), e`now
      ensures e.Valid() && e.now == Take(old(e.now), this)
      ensures o == old(State())
    {
      o := MoveOut(e);
      Detach(e);
    }

    /** future::schedule */
    method Schedule(e: Engine<T>, func: nat)
      requires e.Valid() && this in e.now.fs && Attached(e.now, this)
      modifies this, Prom(), e
      ensures e.Valid() && e.now == FutureLinks.Schedule(old(e.now), this, func)
    {
      SameState(e);
      if State().Available() {
        ScheduleNow(e, func);
      } else {
        ScheduleLater(e, func);
      }
    }

    lemma SameState(e: Engine<T>)
      requires e.Valid() && this in e.now.fs
      ensures State() == StateOf(e.now, this) && chan == e.now.fs[this].chan
      ensures Rec().prom == e.now.fs[this].prom && Known(e)
    {
    }

    /** An available state goes to the engine with the continuation. */
    method ScheduleNow(e: Engine<T>, func: nat)
      requires e.Valid() && this in e.now.fs && StateOf(e.now, this) == State() && State().Available()
      modifies this, Prom(), e
      ensures e.Valid() && e.now == Enqueue(Consume(old(e.now), this), old(chan), func, old(State()))
    {
      ghost var w, c := e.now, chan;
      ScheduleKeeps(w, this, func);
      var o := MoveOut(e);
      Push(e, c, func, o);
    }

    static method Push(e: Engine<T>, ghost c: nat, func: nat, o: State<T>)
      requires e.Faithful()
      modifies e
      ensures e.Faithful() && e.now == Enqueue(old(e.now), c, func, o)
    {
      e.queue := e.queue + [Continuation(func, o)];
      e.now := Enqueue(e.now, c, func, o);
    }

    /** The promise keeps the continuation, and promise and future part. */
    method ScheduleLater(e: Engine<T>, func: nat)
      requires e.Valid() && this in e.now.fs && State().Pending? && prom != null && prom in e.now.ps
      modifies this, Prom(), e`now
      ensures e.Valid() && e.now == AttachTask(FutureLinks.Detach(old(e.now), this), old(prom), func)
    {
      var p := prom;
      Detach(e);
      p.Schedule(e, func);
    }

    /** forward_to */
    method ForwardTo(e: Engine<T>, pr: Promise<T>)
      requires e.Valid() && this in e.now.fs && pr in e.now.ps && CanForward(e.now, this, pr)
      modifies this, Prom(), pr, pr.Fut(), e
      ensures e.Valid() && e.now == Forward(old(e.now), this, pr)
    {
      SameState(e);
      if State().Available() {
        ForwardNow(e, pr);
      } else {
        ForwardPending(e.now, this, pr);
        ForwardLater(e, pr, Forward(e.now, this, pr), e.now.fs[this].chan, e.now.ps[pr].chan);
      }
    }

    method ForwardNow(e: Engine<T>, pr: Promise<T>)
      requires e.Valid() && this in e.now.fs && pr in e.now.ps && CanForward(e.now, this, pr)
      requires State() == StateOf(e.now, this) && State().Available()
      modifies this, Prom(), pr, e
      ensures e.Valid() && e.now == Forward(old(e.now), this, pr)
    {
      ghost var w, c, d := e.now, chan, pr.chan;
      ForwardAvailable(w, this, pr);
      ForwardState(e, pr);
      e.Note(Redirect(e.now, c, d));
    }

    /** future_state::forward_to */
    method ForwardState(e: Engine<T>, pr: Promise<T>)
      requires e.Valid() && this in e.now.fs && pr in e.now.ps && pr.State().Pending? && prom != pr
          && State().Available()
      modifies this, Prom(), pr, e
      ensures e.Valid() && e.now == Consume(SetState(old(e.now), pr, old(State()), true), this)
    {
      pr.Set(e, State(), true);
      var _ := MoveOut(e);
    }

    /** `*_promise = std::move(pr)`, with the links to this future cut. */
    method Replace(e: Engine<T>, pr: Promise<T>, p: Promise<T>)
      requires e.Valid() && this in e.now.fs && pr in e.now.ps && prom == p && p in e.now.ps && p != pr
      modifies this, p, pr, pr.Fut(), e`now
      ensures e.Faithful() && old(p in e.now.ps && this in e.now.fs)
      ensures e.now == MovePromise(FutureLinks.Abandon(FutureLinks.Detach(old(e.now), this), p), p, pr)
    {
      Detach(e);
      p.Assign(e, pr);
    }

    method ForwardLater(e: Engine<T>, pr: Promise<T>, ghost w: World<Promise<T>, Future<T>, T>, ghost c: nat,
            ghost d: nat)
      requires e.Valid() && this in e.now.fs && prom != null && prom in e.now.ps && prom != pr && pr in e.now.ps
      requires Inv(w) && w == Redirect(MovePromise(FutureLinks.Abandon(FutureLinks.Detach(e.now, this), prom), prom, pr), c, d)
      modifies this, Prom(), pr, pr.Fut(), e`now
      ensures e.Valid() && e.now == w
    {
      Replace(e, pr, prom);
      e.Note(w);
    }
  }
}
