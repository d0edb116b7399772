/**
 What the operations of src/future.h do to the promises and futures of a program as a whole, as functions on a value.

 P and F stand for the addresses of promise and future objects.  The table of channels is bookkeeping: a channel is one
 value to be passed on, from the promise that is to set it to the future or continuation that is to receive it.
 */
module FutureLinks {
  import opened Wrappers

  /** future_state; exceptions are represented by a number. */
  datatype State<T> = Invalid | Pending | Result(value: T) | Failed(e: int) {
    predicate Available() {
      Result? || Failed?
    }
  }

  /** What promise::_state points at; a continuation is known by its function. */
  datatype Place = Null | Local | InTask(func: nat)

  datatype Continuation<T> = Continuation(func: nat, state: State<T>)

  datatype PromiseRec<F, T> = PromiseRec(fut: Option<F>, at: Place, state: State<T>, chan: nat)

  datatype FutureRec<P, T> = FutureRec(prom: Option<P>, local: State<T>, chan: nat)

  datatype Consumer<F> = Nobody | ByFuture(f: F) | ByTask(func: nat) | Forwarded(to: nat) | Delivered

  datatype Channel<P, F, T> = Channel(outcome: State<T>, producer: Option<P>, consumer: Consumer<F>)

  datatype World<!P, !F, T> = World(
    ps: map<P, PromiseRec<F, T>>, fs: map<F, FutureRec<P, T>>,
    queue: seq<Continuation<T>>, queued: seq<nat>, // the channels of the queued continuations
    table: map<nat, Channel<P, F, T>>, next: nat)

  ghost function Empty<P, F, T>(): (w: World<P, F, T>)
    ensures Inv(w)
  {
    World(map[], map[], [], [], map[], 0)
  }

  // ----- the invariant -----

  /** future::state() */
  ghost function StateOf<P, F, T>(w: World<P, F, T>, f: F): State<T>
    requires f in w.fs
  {
    match w.fs[f].prom
    case Some(p) => if p in w.ps then w.ps[p].state else Invalid
    case None => w.fs[f].local
  }

  /** There is, or may still come, something for f to receive. */
  ghost predicate Attached<P, F, T>(w: World<P, F, T>, f: F)
    requires f in w.fs
  {
    !StateOf(w, f).Invalid? && (w.fs[f].prom.Some? || w.fs[f].local.Available())
  }

  /** Promises and futures point at each other or not at all. */
  ghost predicate Linked<P, F, T>(w: World<P, F, T>) {
    && (forall p | p in w.ps && w.ps[p].fut.Some? ::
          w.ps[p].fut.value in w.fs && w.fs[w.ps[p].fut.value].prom == Some(p))
    && (forall f | f in w.fs && w.fs[f].prom.Some? ::
          && w.fs[f].prom.value in w.ps && w.ps[w.fs[f].prom.value].fut == Some(f)
          && w.ps[w.fs[f].prom.value].chan == w.fs[f].chan && w.fs[f].local.Pending?)
  }

  ghost predicate PromiseOk<F, T>(r: PromiseRec<F, T>) {
    && (r.at.InTask? ==> r.state.Pending?)
    && (r.fut.Some? ==> r.at.Local?)
    && (r.at.Null? ==> r.state.Invalid?)
  }

  ghost predicate Producing<P, F, T>(w: World<P, F, T>) {
    forall p | p in w.ps ::
      && PromiseOk(w.ps[p])
      && (!w.ps[p].state.Invalid? ==> w.ps[p].chan in w.table && w.table[w.ps[p].chan].producer == Some(p))
  }

  ghost predicate Consuming<P, F, T>(w: World<P, F, T>) {
    forall f | f in w.fs :: ConsumingOk(w, f)
  }

  ghost predicate ConsumingOk<P, F, T>(w: World<P, F, T>, f: F)
    requires f in w.fs
  {
    Attached(w, f) ==> w.fs[f].chan in w.table && w.table[w.fs[f].chan].consumer == ByFuture(f)
  }

  /** The producer of a channel holds its outcome. */
  ghost predicate ProducerOk<P, F, T>(w: World<P, F, T>, c: nat)
    requires c in w.table
  {
    var ch := w.table[c];
    && !ch.outcome.Invalid? && c < w.next
    && (ch.producer.Some? ==>
          && ch.producer.value in w.ps && w.ps[ch.producer.value].chan == c
              && w.ps[ch.producer.value].state == ch.outcome
          && (w.ps[ch.producer.value].at.InTask? ==> ch.consumer == ByTask(w.ps[ch.producer.value].at.func)))
  }

  /** Whoever is to receive the outcome of a channel sees just that outcome. */
  ghost predicate ConsumerOk<P, F, T>(w: World<P, F, T>, c: nat)
    requires c in w.table
  {
    var ch := w.table[c];
    match ch.consumer
    case Nobody => true
    case ByFuture(f) =>
      && f in w.fs && w.fs[f].chan == c && Attached(w, f) && StateOf(w, f) == ch.outcome
      && ch.producer == w.fs[f].prom
    case ByTask(k) =>
      if ch.outcome.Pending? then ch.producer.Some? && ch.producer.value in w.ps
          && w.ps[ch.producer.value].at == InTask(k)
      else ch.producer.None? && c in w.queued
    case Forwarded(d) =>
      ch.producer.None? && d in w.table && (ch.outcome.Pending? || w.table[d].outcome == ch.outcome)
    case Delivered => ch.producer.None? && ch.outcome.Available()
  }

  ghost predicate Channels<P, F, T>(w: World<P, F, T>) {
    forall c | c in w.table :: ProducerOk(w, c) && ConsumerOk(w, c)
  }

  ghost predicate Queued<P, F, T>(w: World<P, F, T>) {
    QueueOk(w.queue, w.queued, w.table)
  }

  /** Each queued continuation carries the outcome of its own channel. */
  ghost predicate QueueOk<P, F, T>(queue: seq<Continuation<T>>, queued: seq<nat>, table: map<nat, Channel<P, F, T>>) {
    && |queue| == |queued|
    && (forall i, j | 0 <= i < j < |queued| :: queued[i] != queued[j])
    && (forall i | 0 <= i < |queued| ::
          && queued[i] in table && table[queued[i]].outcome == queue[i].state && queue[i].state.Available()
          && table[queued[i]].consumer == ByTask(queue[i].func))
  }

  lemma QueueGrows<P, F, T>(queue: seq<Continuation<T>>, queued: seq<nat>, t: map<nat, Channel<P, F, T>>,
                            t': map<nat, Channel<P, F, T>>, c: nat, k: Continuation<T>, urgent: bool)
    requires QueueOk(queue, queued, t) && c !in queued && forall d | d in queued :: d in t' && t'[d] == t[d]
    requires c in t' && t'[c].outcome == k.state && k.state.Available() && t'[c].consumer == ByTask(k.func)
    ensures QueueOk(if urgent then [k] + queue else queue + [k], if urgent then [c] + queued else queued + [c], t')
  {
  }

  ghost predicate Inv<P, F, T>(w: World<P, F, T>) {
    Linked(w) && Producing(w) && Consuming(w) && Channels(w) && Queued(w)
  }

  /** It is enough to look at the channels one by one. */
  lemma ChannelsOf<P, F, T>(w: World<P, F, T>, c: nat)
    requires Channels(w) && c in w.table
    ensures ProducerOk(w, c) && ConsumerOk(w, c)
  {
  }

  // ----- steps that the operations are made of -----

  ghost function Retable<P, F, T>(w: World<P, F, T>, c: nat, producer: Option<P>, consumer: Consumer<F>)
    : map<nat, Channel<P, F, T>>
  {
    if c in w.table then w.table[c := w.table[c].(producer := producer, consumer := consumer)] else w.table
  }

  ghost function NewPromise<P, F, T>(w: World<P, F, T>, p: P): World<P, F, T> {
    w.(ps := w.ps[p := PromiseRec(None, Local, Pending, w.next)],
       table := w.table[w.next := Channel(Pending, Some(p), Nobody)], next := w.next + 1)
  }

  lemma NewPromiseKeeps<P, F, T>(w: World<P, F, T>, p: P)
    requires Inv(w) && p !in w.ps
    ensures Inv(NewPromise(w, p))
  {
    var w' := NewPromise(w, p);
    forall c | c in w'.table ensures ProducerOk(w', c) && ConsumerOk(w', c) {
      if c != w.next {
        ChannelsOf(w, c);
      }
    }
  }

  /** make_ready_future and make_exception_future */
  ghost function NewReady<P, F, T>(w: World<P, F, T>, f: F, o: State<T>): World<P, F, T> {
    w.(fs := w.fs[f := FutureRec(None, o, w.next)],
       table := w.table[w.next := Channel(o, None, ByFuture(f))], next := w.next + 1)
  }

  lemma NewReadyKeeps<P, F, T>(w: World<P, F, T>, f: F, o: State<T>)
    requires Inv(w) && f !in w.fs && o.Available()
    ensures Inv(NewReady(w, f, o)) && Evolves(w, NewReady(w, f, o))
  {
    var w' := NewReady(w, f, o);
    forall c | c in w'.table ensures ProducerOk(w', c) && ConsumerOk(w', c) {
      if c in w.table {
        ChannelsOf(w, c);
      }
    }
    forall g | g in w'.fs ensures ConsumingOk(w', g) {
      if g != f {
        assert ConsumingOk(w, g);
        if Attached(w, g) {
          ChannelsOf(w, w.fs[g].chan);
        }
      }
    }
  }

  /** get_future: its assertion asks for no future, no continuation, and a state. */
  ghost predicate CanGetFuture<P, F, T>(w: World<P, F, T>, p: P) {
    p in w.ps && w.ps[p].fut.None? && w.ps[p].at.Local?
  }

  ghost function GetFuture<P, F, T>(w: World<P, F, T>, p: P, f: F): World<P, F, T>
    requires p in w.ps
  {
    var r := w.ps[p];
    w.(ps := w.ps[p := r.(fut := Some(f))], fs := w.fs[f := FutureRec(Some(p), Pending, r.chan)],
       table := if r.state.Invalid? then w.table else Retable(w, r.chan, Some(p), ByFuture(f)))
  }

  lemma GetFutureKeeps<P, F, T>(w: World<P, F, T>, p: P, f: F)
    requires Inv(w) && CanGetFuture(w, p) && f !in w.fs
    ensures Inv(GetFuture(w, p, f))
  {
    var w' := GetFuture(w, p, f);
    forall c | c in w'.table ensures ProducerOk(w', c) && ConsumerOk(w', c) {
      ChannelsOf(w, c);
    }
    forall g | g in w'.fs ensures ConsumingOk(w', g) {
      if g != f {
        assert ConsumingOk(w, g);
        if Attached(w, g) {
          ChannelsOf(w, w.fs[g].chan);
        }
      }
    }
  }

  /** ~promise: a future still linked is left with the state as it is; a continuation goes unrun. */
  ghost function Abandon<P, F, T>(w: World<P, F, T>, p: P): World<P, F, T>
    requires p in w.ps
  {
    var r := w.ps[p];
    w.(ps := w.ps[p := r.(fut := None, at := Null, state := Invalid)],
       fs := if r.fut.Some? && r.fut.value in w.fs then
               w.fs[r.fut.value := w.fs[r.fut.value].(prom := None, local := r.state)]
             else w.fs,
       table := if r.state.Invalid? || r.chan !in w.table then w.table
                else Retable(w, r.chan, None, if r.state.Pending? then Nobody else w.table[r.chan].consumer))
  }

  lemma AbandonChannel<P, F, T>(w: World<P, F, T>, p: P, c: nat)
    requires Inv(w) && p in w.ps && c in w.table
    ensures c in Abandon(w, p).table && ProducerOk(Abandon(w, p), c) && ConsumerOk(Abandon(w, p), c)
  {
    ChannelsOf(w, c);
  }

  lemma AbandonKeeps<P, F, T>(w: World<P, F, T>, p: P)
    requires Inv(w) && p in w.ps
    ensures Inv(Abandon(w, p))
  {
    var w' := Abandon(w, p);
    forall c | c in w'.table ensures ProducerOk(w', c) && ConsumerOk(w', c) {
      AbandonChannel(w, p, c);
    }
    forall g | g in w'.fs ensures ConsumingOk(w', g) {
      assert ConsumingOk(w, g);
      if Attached(w, g) {
        ChannelsOf(w, w.fs[g].chan);
      }
    }
  }

  /** The move constructor of promise, and its assignment once the target is abandoned. */
  ghost function MovePromise<P, F, T>(w: World<P, F, T>, q: P, p: P): World<P, F, T>
    requires p in w.ps
  {
    var r := w.ps[p];
    w.(ps := w.ps[p := r.(fut := None, at := Null, state := Invalid)][q := r],
       fs := if r.fut.Some? && r.fut.value in w.fs then
               w.fs[r.fut.value := w.fs[r.fut.value].(prom := Some(q))]
             else w.fs,
       table := if r.state.Invalid? || r.chan !in w.table then w.table
                else Retable(w, r.chan, Some(q), w.table[r.chan].consumer))
  }

  lemma MovePromiseChannel<P, F, T>(w: World<P, F, T>, q: P, p: P, c: nat)
    requires Inv(w) && p in w.ps && q != p && (q in w.ps ==> w.ps[q].at.Null?) && c in w.table
    ensures c in MovePromise(w, q, p).table && ProducerOk(MovePromise(w, q, p), c)
        && ConsumerOk(MovePromise(w, q, p), c)
  {
    ChannelsOf(w, c);
  }

  lemma MovePromiseConsuming<P, F, T>(w: World<P, F, T>, q: P, p: P, g: F)
    requires Inv(w) && p in w.ps && q != p && (q in w.ps ==> w.ps[q].at.Null?) && g in w.fs
    ensures g in MovePromise(w, q, p).fs && ConsumingOk(MovePromise(w, q, p), g)
  {
    assert ConsumingOk(w, g);
  }

  lemma MovePromiseKeeps<P, F, T>(w: World<P, F, T>, q: P, p: P)
    requires Inv(w) && p in w.ps && q != p && (q in w.ps ==> w.ps[q].at.Null?)
    ensures Inv(MovePromise(w, q, p))
  {
    var w' := MovePromise(w, q, p);
    forall c | c in w'.table ensures ProducerOk(w', c) && ConsumerOk(w', c) {
      MovePromiseChannel(w, q, p, c);
    }
    forall g | g in w'.fs ensures ConsumingOk(w', g) {
      MovePromiseConsuming(w, q, p, g);
    }
  }

  /** set_value and set_exception, and make_ready: a continuation goes to one end or the other of the engine's queue. */
  ghost function SetState<P, F, T>(w: World<P, F, T>, p: P, o: State<T>, urgent: bool): World<P, F, T>
    requires p in w.ps
  {
    var r := w.ps[p];
    if r.at.InTask? then
      var k := Continuation(r.at.func, o);
      w.(ps := w.ps[p := r.(at := Null, state := Invalid)],
         queue := if urgent then [k] + w.queue else w.queue + [k],
         queued := if urgent then [r.chan] + w.queued else w.queued + [r.chan],
         table := if r.chan in w.table then w.table[r.chan := w.table[r.chan].(outcome := o, producer := None)] else w.table)
    else
      w.(ps := w.ps[p := r.(state := o)],
         table := if r.chan in w.table then w.table[r.chan := w.table[r.chan].(outcome := o)] else w.table)
  }

  lemma SetStateChannel<P, F, T>(w: World<P, F, T>, p: P, o: State<T>, urgent: bool, c: nat)
    requires Inv(w) && p in w.ps && w.ps[p].state.Pending? && o.Available() && c in w.table
    ensures var w' := SetState(w, p, o, urgent);
            c in w'.table && ProducerOk(w', c) && ConsumerOk(w', c)
  {
    var w', r := SetState(w, p, o, urgent), w.ps[p];
    ChannelsOf(w, c);
    ChannelsOf(w, r.chan);
    if r.at.InTask? {
      assert if urgent then w'.queued[0] == r.chan && w'.queued[1..] == w.queued
             else w'.queued[|w.queued|] == r.chan && w'.queued[..|w.queued|] == w.queued;
    }
  }

  lemma SetStateQueue<P, F, T>(w: World<P, F, T>, p: P, o: State<T>, urgent: bool)
    requires Inv(w) && p in w.ps && w.ps[p].state.Pending? && o.Available()
    ensures Queued(SetState(w, p, o, urgent))
  {
    var r := w.ps[p];
    ChannelsOf(w, r.chan);
    if r.at.InTask? {
      QueueGrows(w.queue, w.queued, w.table, SetState(w, p, o, urgent).table, r.chan, Continuation(r.at.func, o), urgent);
    }
  }

  lemma SetStateKeeps<P, F, T>(w: World<P, F, T>, p: P, o: State<T>, urgent: bool)
    requires Inv(w) && p in w.ps && w.ps[p].state.Pending? && o.Available()
    ensures Inv(SetState(w, p, o, urgent))
  {
    var w' := SetState(w, p, o, urgent);
    forall c | c in w'.table ensures ProducerOk(w', c) && ConsumerOk(w', c) {
      SetStateChannel(w, p, o, urgent, c);
    }
    forall g | g in w'.fs ensures ConsumingOk(w', g) {
      assert ConsumingOk(w, g);
    }
    SetStateQueue(w, p, o, urgent);
  }

  /** The move constructor of future. */
  ghost function MoveFuture<P, F, T>(w: World<P, F, T>, g: F, f: F): World<P, F, T>
    requires f in w.fs
  {
    var r := w.fs[f];
    w.(fs := w.fs[f := r.(prom := None, local := if r.prom.Some? then r.local else Invalid)][g := r],
       ps := if r.prom.Some? && r.prom.value in w.ps then
               w.ps[r.prom.value := w.ps[r.prom.value].(fut := Some(g))]
             else w.ps,
       table := if Attached(w, f) && r.chan in w.table then w.table[r.chan := w.table[r.chan].(consumer := ByFuture(g))]
                else w.table)
  }

  lemma MoveFutureChannel<P, F, T>(w: World<P, F, T>, g: F, f: F, c: nat)
    requires Inv(w) && f in w.fs && f != g && (g in w.fs ==> w.fs[g].prom.None? && !Attached(w, g)) && c in w.table
    ensures var w' := MoveFuture(w, g, f);
            c in w'.table && ProducerOk(w', c) && ConsumerOk(w', c)
  {
    ChannelsOf(w, c);
    assert ConsumingOk(w, f);
  }

  lemma MoveFutureConsuming<P, F, T>(w: World<P, F, T>, g: F, f: F, h: F)
    requires Inv(w) && f in w.fs && f != g && (g in w.fs ==> w.fs[g].prom.None? && !Attached(w, g))
    requires h in MoveFuture(w, g, f).fs
    ensures ConsumingOk(MoveFuture(w, g, f), h)
  {
    assert h in w.fs ==> ConsumingOk(w, h);
    assert ConsumingOk(w, f);
  }

  lemma MoveFutureKeeps<P, F, T>(w: World<P, F, T>, g: F, f: F)
    requires Inv(w) && f in w.fs && f != g && (g in w.fs ==> w.fs[g].prom.None? && !Attached(w, g))
    ensures Inv(MoveFuture(w, g, f))
  {
    var w' := MoveFuture(w, g, f);
    forall c | c in w'.table ensures ProducerOk(w', c) && ConsumerOk(w', c) {
      MoveFutureChannel(w, g, f, c);
    }
    forall h | h in w'.fs ensures ConsumingOk(w', h) {
      MoveFutureConsuming(w, g, f, h);
    }
  }

  /** A future lets go of its promise, or of its own state; what was to come to it is lost. */
  ghost function Detach<P, F, T>(w: World<P, F, T>, f: F): World<P, F, T>
    requires f in w.fs
  {
    var r := w.fs[f];
    w.(fs := w.fs[f := if r.prom.Some? then r.(prom := None) else r.(local := Invalid)],
       ps := if r.prom.Some? && r.prom.value in w.ps then
               w.ps[r.prom.value := w.ps[r.prom.value].(fut := None)]
             else w.ps,
       table := if Attached(w, f) && r.chan in w.table then w.table[r.chan := w.table[r.chan].(consumer := Nobody)]
                else w.table)
  }

  lemma DetachChannel<P, F, T>(w: World<P, F, T>, f: F, c: nat)
    requires Inv(w) && f in w.fs && c in w.table
    ensures var w' := Detach(w, f);
            c in w'.table && ProducerOk(w', c) && ConsumerOk(w', c)
  {
    ChannelsOf(w, c);
    assert ConsumingOk(w, f);
  }

  lemma DetachKeeps<P, F, T>(w: World<P, F, T>, f: F)
    requires Inv(w) && f in w.fs
    ensures Inv(Detach(w, f))
  {
    var w' := Detach(w, f);
    forall c | c in w'.table ensures ProducerOk(w', c) && ConsumerOk(w', c) {
      DetachChannel(w, f, c);
    }
    forall h | h in w'.fs ensures ConsumingOk(w', h) {
      assert ConsumingOk(w, h) && ConsumingOk(w, f);
    }
  }

  /** promise::schedule */
  ghost function AttachTask<P, F, T>(w: World<P, F, T>, p: P, k: nat): World<P, F, T>
    requires p in w.ps
  {
    w.(ps := w.ps[p := w.ps[p].(at := InTask(k))], table := Retable(w, w.ps[p].chan, Some(p), ByTask(k)))
  }

  lemma AttachTaskKeeps<P, F, T>(w: World<P, F, T>, p: P, k: nat)
    requires Inv(w) && p in w.ps && w.ps[p].fut.None? && w.ps[p].state.Pending?
    ensures Inv(AttachTask(w, p, k))
  {
    var w' := AttachTask(w, p, k);
    forall c | c in w'.table ensures ProducerOk(w', c) && ConsumerOk(w', c) {
      ChannelsOf(w, c);
    }
    forall h | h in w'.fs ensures ConsumingOk(w', h) {
      assert ConsumingOk(w, h);
      if Attached(w, h) {
        ChannelsOf(w, w.fs[h].chan);
      }
    }
  }

  /** `std::move(*state())`: the outcome goes out, the links stay. */
  ghost function Consume<P, F, T>(w: World<P, F, T>, f: F): World<P, F, T>
    requires f in w.fs
  {
    var r := w.fs[f];
    w.(fs := if r.prom.Some? then w.fs else w.fs[f := r.(local := Invalid)],
       ps := if r.prom.Some? && r.prom.value in w.ps then
               w.ps[r.prom.value := w.ps[r.prom.value].(state := Invalid)]
             else w.ps,
       table := Retable(w, r.chan, None, Delivered))
  }

  lemma ConsumeKeeps<P, F, T>(w: World<P, F, T>, f: F)
    requires Inv(w) && f in w.fs && StateOf(w, f).Available()
    ensures Inv(Consume(w, f))
  {
    var w' := Consume(w, f);
    assert ConsumingOk(w, f);
    forall c | c in w'.table ensures ProducerOk(w', c) && ConsumerOk(w', c) {
      ChannelsOf(w, c);
    }
    forall h | h in w'.fs ensures ConsumingOk(w', h) {
      assert ConsumingOk(w, h);
    }
  }

  /** An outcome that was taken is put into the queue as a continuation. */
  ghost function Enqueue<P, F, T>(w: World<P, F, T>, c: nat, k: nat, o: State<T>): World<P, F, T> {
    w.(queue := w.queue + [Continuation(k, o)], queued := w.queued + [c], table := Retable(w, c, None, ByTask(k)))
  }

  lemma EnqueueKeeps<P, F, T>(w: World<P, F, T>, c: nat, k: nat, o: State<T>)
    requires Inv(w) && c in w.table && w.table[c].consumer.Delivered? && w.table[c].outcome == o
    ensures Inv(Enqueue(w, c, k, o))
  {
    var w' := Enqueue(w, c, k, o);
    ChannelsOf(w, c);
    QueueGrows(w.queue, w.queued, w.table, w'.table, c, Continuation(k, o), false);
    assert w'.queued[|w.queued|] == c && w'.queued[..|w.queued|] == w.queued;
    forall d | d in w'.table ensures ProducerOk(w', d) && ConsumerOk(w', d) {
      ChannelsOf(w, d);
    }
    forall h | h in w'.fs ensures ConsumingOk(w', h) {
      assert ConsumingOk(w, h);
    }
  }

  /** A channel that is finished with is noted as continued by another. */
  ghost function Redirect<P, F, T>(w: World<P, F, T>, c: nat, d: nat): World<P, F, T> {
    w.(table := Retable(w, c, None, Forwarded(d)))
  }

  lemma RedirectKeeps<P, F, T>(w: World<P, F, T>, c: nat, d: nat)
    requires Inv(w) && c in w.table && d in w.table && c != d && w.table[c].producer.None?
    requires if w.table[c].consumer.Delivered? then w.table[c].outcome == w.table[d].outcome
             else w.table[c].consumer.Nobody? && w.table[c].outcome.Pending?
    ensures Inv(Redirect(w, c, d))
  {
    var w' := Redirect(w, c, d);
    forall b | b in w'.table ensures ProducerOk(w', b) && ConsumerOk(w', b) {
      ChannelsOf(w, b);
    }
    forall h | h in w'.fs ensures ConsumingOk(w', h) {
      assert ConsumingOk(w, h);
    }
  }

  /** The engine takes the first continuation off its queue and runs it. */
  ghost function Pop<P, F, T>(w: World<P, F, T>): World<P, F, T>
    requires |w.queue| == |w.queued| > 0
  {
    w.(queue := w.queue[1..], queued := w.queued[1..], table := Retable(w, w.queued[0], None, Delivered))
  }

  lemma PopKeeps<P, F, T>(w: World<P, F, T>)
    requires Inv(w) && |w.queue| > 0
    ensures Inv(Pop(w))
  {
    var w' := Pop(w);
    forall c | c in w'.table ensures ProducerOk(w', c) && ConsumerOk(w', c) {
      ChannelsOf(w, c);
      if c in w.queued && c != w.queued[0] {
        assert c in w.queued[1..];
      }
    }
    forall h | h in w'.fs ensures ConsumingOk(w', h) {
      assert ConsumingOk(w, h);
    }
  }

  // ----- operations made of several steps -----

  /** future::schedule */
  ghost function Schedule<P, F, T>(w: World<P, F, T>, f: F, k: nat): World<P, F, T>
    requires Linked(w) && f in w.fs && Attached(w, f)
  {
    if StateOf(w, f).Available() then Enqueue(Consume(w, f), w.fs[f].chan, k, StateOf(w, f))
    else AttachTask(Detach(w, f), w.fs[f].prom.value, k)
  }

  /** get_available_state */
  ghost function Take<P, F, T>(w: World<P, F, T>, f: F): World<P, F, T>
    requires f in w.fs
  {
    Detach(Consume(w, f), f)
  }

  ghost predicate CanForward<P, F, T>(w: World<P, F, T>, f: F, q: P) {
    f in w.fs && Attached(w, f) && q in w.ps && w.ps[q].state.Pending? && w.fs[f].prom != Some(q)
  }

  /**
   forward_to.  A state that is there is set on q, urgently.  Otherwise the promise that f waits for becomes what q was,
   so that whoever is to set it sets q's channel from now on.
   */
  ghost function Forward<P, F, T>(w: World<P, F, T>, f: F, q: P): World<P, F, T>
    requires Linked(w) && CanForward(w, f, q)
  {
    var c, d := w.fs[f].chan, w.ps[q].chan;
    if StateOf(w, f).Available() then Redirect(Consume(SetState(w, q, StateOf(w, f), true), f), c, d)
    else
      var p := w.fs[f].prom.value;
      Redirect(MovePromise(Abandon(Detach(w, f), p), p, q), c, d)
  }

  lemma ScheduleKeeps<P, F, T>(w: World<P, F, T>, f: F, k: nat)
    requires Inv(w) && f in w.fs && Attached(w, f)
    ensures Inv(Schedule(w, f, k)) && Evolves(w, Schedule(w, f, k))
  {
    var c, o := w.fs[f].chan, StateOf(w, f);
    assert ConsumingOk(w, f);
    ChannelsOf(w, c);
    if o.Available() {
      ConsumeKeeps(w, f);
      EnqueueKeeps(Consume(w, f), c, k, o);
    } else {
      DetachKeeps(w, f);
      AttachTaskKeeps(Detach(w, f), w.fs[f].prom.value, k);
    }
  }

  lemma TakeKeeps<P, F, T>(w: World<P, F, T>, f: F)
    requires Inv(w) && f in w.fs && StateOf(w, f).Available()
    ensures Inv(Take(w, f)) && Evolves(w, Take(w, f))
  {
    assert ConsumingOk(w, f);
    ChannelsOf(w, w.fs[f].chan);
    ConsumeKeeps(w, f);
    DetachKeeps(Consume(w, f), f);
  }

  /** Different attached holders have different channels. */
  lemma ForwardChannels<P, F, T>(w: World<P, F, T>, f: F, q: P)
    requires Inv(w) && CanForward(w, f, q)
    ensures var c, d := w.fs[f].chan, w.ps[q].chan;
            && c != d && c in w.table && d in w.table
            && w.table[c].consumer == ByFuture(f) && w.table[c].outcome == StateOf(w, f)
                && w.table[c].producer == w.fs[f].prom
            && w.table[d].producer == Some(q) && w.table[d].outcome.Pending?
  {
    assert ConsumingOk(w, f);
    ChannelsOf(w, w.fs[f].chan);
    ChannelsOf(w, w.ps[q].chan);
  }

  lemma AvailableSteps<P, F, T>(w: World<P, F, T>, f: F, q: P)
    requires Inv(w) && CanForward(w, f, q) && StateOf(w, f).Available()
    ensures var o, c, d := StateOf(w, f), w.fs[f].chan, w.ps[q].chan;
            var w1 := SetState(w, q, o, true);
            && f in w1.fs && StateOf(w1, f) == o && c != d && c in w.table && d in w.table
            && w.table[c].outcome == o && w.table[d].outcome.Pending? && w.table[c].consumer == ByFuture(f)
            && !w.table[d].consumer.Delivered? && !w.table[d].consumer.Forwarded?
            && Consume(w1, f).table == w1.table[c := Channel(o, None, Delivered)]
            && w1.table == w.table[d := w1.table[d]] && w1.table[d].outcome == o
                && w1.table[d].consumer == w.table[d].consumer
  {
    ForwardChannels(w, f, q);
    ChannelsOf(w, w.ps[q].chan);
  }

  lemma ForwardAvailable<P, F, T>(w: World<P, F, T>, f: F, q: P)
    requires Inv(w) && CanForward(w, f, q) && StateOf(w, f).Available()
    ensures var w', c, d := Forward(w, f, q), w.fs[f].chan, w.ps[q].chan;
            && Inv(w') && d in w'.table && d in w.table && c in w.table
            && w'.table[d].outcome == StateOf(w, f) == w.table[c].outcome && w'.table[d].consumer == w.table[d].consumer
            && Evolves(w, w')
  {
    var o := StateOf(w, f);
    AvailableSteps(w, f, q);
    SetStateKeeps(w, q, o, true);
    var w1 := SetState(w, q, o, true);
    ConsumeKeeps(w1, f);
    RedirectKeeps(Consume(w1, f), w.fs[f].chan, w.ps[q].chan);
  }

  /** The steps of a forward to come, and what they leave of the table and of the promises. */
  lemma PendingSteps<P, F, T>(w: World<P, F, T>, f: F, q: P)
    requires Inv(w) && CanForward(w, f, q) && StateOf(w, f).Pending?
    ensures var c, d, p := w.fs[f].chan, w.ps[q].chan, w.fs[f].prom.value;
            var w3 := MovePromise(Abandon(Detach(w, f), p), p, q);
            && c != d && c in w.table && d in w.table && w.table[d].outcome.Pending? && w.table[c].outcome.Pending?
            && !w.table[c].consumer.Delivered? && !w.table[c].consumer.Forwarded?
            && !w.table[d].consumer.Delivered? && !w.table[d].consumer.Forwarded?
            && w3.table == w.table[c := Channel(Pending, None, Nobody)][d := w.table[d].(producer := Some(p))]
            && w3.ps == w.ps[p := w.ps[q]][q := w.ps[q].(fut := None, at := Null, state := Invalid)]
  {
    ForwardChannels(w, f, q);
    ChannelsOf(w, w.ps[q].chan);
  }

  lemma PendingKeeps<P, F, T>(w: World<P, F, T>, f: F, q: P)
    requires Inv(w) && CanForward(w, f, q) && StateOf(w, f).Pending?
    ensures var p := w.fs[f].prom.value; Inv(MovePromise(Abandon(Detach(w, f), p), p, q))
  {
    var p := w.fs[f].prom.value;
    DetachKeeps(w, f);
    var w1 := Detach(w, f);
    AbandonKeeps(w1, p);
    MovePromiseKeeps(Abandon(w1, p), p, q);
  }

  lemma ForwardPending<P, F, T>(w: World<P, F, T>, f: F, q: P)
    requires Inv(w) && CanForward(w, f, q) && StateOf(w, f).Pending?
    ensures var w', p, c, d := Forward(w, f, q), w.fs[f].prom.value, w.fs[f].chan, w.ps[q].chan;
            && Inv(w') && d in w.table
            && w'.table == w.table[c := Channel(Pending, None, Forwarded(d))][d := w.table[d].(producer := Some(p))]
            && w'.ps == w.ps[p := w.ps[q]][q := w.ps[q].(fut := None, at := Null, state := Invalid)]
            && Evolves(w, w')
  {
    PendingSteps(w, f, q);
    PendingKeeps(w, f, q);
    var p := w.fs[f].prom.value;
    var w3 := MovePromise(Abandon(Detach(w, f), p), p, q);
    RedirectKeeps(w3, w.fs[f].chan, w.ps[q].chan);
  }

  /** A value once set stays what it is, and a value once received is not received again. */
  ghost predicate Evolves<P, F, T>(w: World<P, F, T>, w': World<P, F, T>) {
    forall c | c in w.table ::
      && c in w'.table
      && (w.table[c].outcome.Available() ==> w'.table[c].outcome == w.table[c].outcome)
      && (w.table[c].consumer.Delivered? || w.table[c].consumer.Forwarded? ==> w'.table[c] == w.table[c])
  }

  // ----- whole runs -----

  datatype Op<P, F, T> =
    | New(p: P) | Ready(f: F, o: State<T>) | Get(p: P, f: F) | Move(q: P, p: P) | Assign(q: P, p: P)
    | Destroy(p: P) | Set(p: P, o: State<T>)
    | MoveF(g: F, f: F) | AssignF(g: F, f: F) | DestroyF(f: F) | Then(f: F, k: nat) | Receive(f: F) | Pass(f: F, q: P)
    | RunTask

  /** What the assertions of the source, and the lifetimes of its objects, ask for. */
  ghost predicate Legal<P, F, T>(w: World<P, F, T>, op: Op<P, F, T>) {
    match op
    case New(p) => p !in w.ps
    case Ready(f, o) => f !in w.fs && o.Available()
    case Get(p, f) => CanGetFuture(w, p) && f !in w.fs
    case Move(q, p) => q !in w.ps && p in w.ps && q != p
    case Assign(q, p) => q in w.ps && p in w.ps && q != p
    case Destroy(p) => p in w.ps
    case Set(p, o) => p in w.ps && w.ps[p].state.Pending? && o.Available()
    case MoveF(g, f) => g !in w.fs && f in w.fs && g != f
    case AssignF(g, f) => g in w.fs && f in w.fs && g != f
    case DestroyF(f) => f in w.fs
    case Then(f, k) => f in w.fs && Attached(w, f)
    case Receive(f) => f in w.fs && StateOf(w, f).Available()
    case Pass(f, q) => CanForward(w, f, q)
    case RunTask => |w.queue| > 0
  }

  ghost function Step<P, F, T>(w: World<P, F, T>, op: Op<P, F, T>): World<P, F, T>
    requires Inv(w) && Legal(w, op)
  {
    match op
    case New(p) => NewPromise(w, p)
    case Ready(f, o) => NewReady(w, f, o)
    case Get(p, f) => GetFuture(w, p, f)
    case Move(q, p) => MovePromise(w, q, p)
    case Assign(q, p) => MovePromise(Abandon(w, q), q, p)
    case Destroy(p) => Abandon(w, p)
    case Set(p, o) => SetState(w, p, o, false)
    case MoveF(g, f) => MoveFuture(w, g, f)
    case AssignF(g, f) => MoveFuture(Detach(w, g), g, f)
    case DestroyF(f) => Detach(w, f)
    case Then(f, k) => Schedule(w, f, k)
    case Receive(f) => Take(w, f)
    case Pass(f, q) => Forward(w, f, q)
    case RunTask => Pop(w)
  }

  lemma EvolvesWithPromise<P, F, T>(w: World<P, F, T>, op: Op<P, F, T>)
    requires Inv(w) && Legal(w, op) && (op.New? || op.Get? || op.Move? || op.Destroy? || op.Set?)
    ensures Evolves(w, Step(w, op))
  {
    if !op.New? {
      var c := w.ps[op.p].chan;
      if c in w.table {
        ChannelsOf(w, c);
      }
    }
    forall c | c in w.table ensures ProducerOk(w, c) {
      ChannelsOf(w, c);
    }
  }

  lemma EvolvesWithFuture<P, F, T>(w: World<P, F, T>, op: Op<P, F, T>)
    requires Inv(w) && Legal(w, op) && (op.MoveF? || op.DestroyF? || op.RunTask?)
    ensures Evolves(w, Step(w, op))
  {
    if !op.RunTask? {
      assert ConsumingOk(w, op.f);
    }
  }

  lemma EvolvesTrans<P, F, T>(a: World<P, F, T>, b: World<P, F, T>, c: World<P, F, T>)
    requires Evolves(a, b) && Evolves(b, c)
    ensures Evolves(a, c)
  {
  }

  /** Every operation keeps the links and the channels in order. */
  lemma StepKeeps<P, F, T>(w: World<P, F, T>, op: Op<P, F, T>)
    requires Inv(w) && Legal(w, op)
    ensures Inv(Step(w, op)) && Evolves(w, Step(w, op))
  {
    match op
    case New(p) => NewPromiseKeeps(w, p); EvolvesWithPromise(w, op);
    case Ready(f, o) => NewReadyKeeps(w, f, o);
    case Get(p, f) => GetFutureKeeps(w, p, f); EvolvesWithPromise(w, op);
    case Move(q, p) => MovePromiseKeeps(w, q, p); EvolvesWithPromise(w, op);
    case Assign(q, p) =>
      AbandonKeeps(w, q);
      MovePromiseKeeps(Abandon(w, q), q, p);
      AssignEvolves(w, q, p);
    case Destroy(p) => AbandonKeeps(w, p); EvolvesWithPromise(w, op);
    case Set(p, o) => SetStateKeeps(w, p, o, false); EvolvesWithPromise(w, op);
    case MoveF(g, f) => MoveFutureKeeps(w, g, f); EvolvesWithFuture(w, op);
    case AssignF(g, f) =>
      DetachKeeps(w, g);
      EvolvesWithFuture(w, DestroyF(g));
      AssignFEvolves(Detach(w, g), g, f);
      EvolvesTrans(w, Detach(w, g), Step(w, op));
    case DestroyF(f) => DetachKeeps(w, f); EvolvesWithFuture(w, op);
    case Then(f, k) => ScheduleKeeps(w, f, k);
    case Receive(f) => TakeKeeps(w, f);
    case Pass(f, q) =>
      if StateOf(w, f).Available() {
        ForwardAvailable(w, f, q);
      } else {
        ForwardPending(w, f, q);
      }
    case RunTask => PopKeeps(w); EvolvesWithFuture(w, op);
  }

  lemma AssignEvolves<P, F, T>(w: World<P, F, T>, q: P, p: P)
    requires Inv(w) && q in w.ps && p in w.ps && q != p
    ensures Evolves(w, MovePromise(Abandon(w, q), q, p))
  {
    EvolvesWithPromise(w, Destroy(q));
    AbandonKeeps(w, q);
    var w1 := Abandon(w, q);
    MoveEvolves(w1, q, p);
    EvolvesTrans(w, w1, MovePromise(w1, q, p));
  }

  lemma MoveEvolves<P, F, T>(w: World<P, F, T>, q: P, p: P)
    requires Inv(w) && p in w.ps
    ensures Evolves(w, MovePromise(w, q, p))
  {
    var c := w.ps[p].chan;
    if c in w.table {
      ChannelsOf(w, c);
    }
  }

  lemma AssignFEvolves<P, F, T>(w: World<P, F, T>, g: F, f: F)
    requires Inv(w) && f in w.fs && f != g && g in w.fs && w.fs[g].prom.None? && !Attached(w, g)
    ensures Inv(MoveFuture(w, g, f)) && Evolves(w, MoveFuture(w, g, f))
  {
    MoveFutureKeeps(w, g, f);
    assert ConsumingOk(w, f);
  }

  ghost predicate LegalRun<P, F, T>(w: World<P, F, T>, ops: seq<Op<P, F, T>>)
    requires Inv(w)
    decreases ops
  {
    ops == [] || (Legal(w, ops[0]) && (StepKeeps(w, ops[0]); LegalRun(Step(w, ops[0]), ops[1..])))
  }

  ghost function Run<P, F, T>(w: World<P, F, T>, ops: seq<Op<P, F, T>>): (w': World<P, F, T>)
    requires Inv(w) && LegalRun(w, ops)
    ensures Inv(w')
    decreases ops
  {
    if ops == [] then w else StepKeeps(w, ops[0]); Run(Step(w, ops[0]), ops[1..])
  }

  /** In every state a program can reach, p has f for its future exactly if f has p for its promise, and a promise with a
      continuation has no future. */
  lemma LinksAgree<P, F, T>(ops: seq<Op<P, F, T>>, p: P, f: F)
    requires LegalRun(Empty<P, F, T>(), ops)
    ensures var w := Run(Empty<P, F, T>(), ops);
            && ((p in w.ps && w.ps[p].fut == Some(f)) <==> (f in w.fs && w.fs[f].prom == Some(p)))
            && (p in w.ps && w.ps[p].at.InTask? ==> w.ps[p].fut == None)
  {
  }

  /** The values that leave the system: those a future hands out and those a continuation is run with. */
  ghost function Received<P, F, T>(w: World<P, F, T>, op: Op<P, F, T>): seq<(nat, State<T>)>
    requires Inv(w) && Legal(w, op)
    ensures |Received(w, op)| <= 1
  {
    match op
    case Receive(f) => [(w.fs[f].chan, StateOf(w, f))]
    case RunTask => [(w.queued[0], w.queue[0].state)]
    case _ => []
  }

  ghost function Receipts<P, F, T>(w: World<P, F, T>, ops: seq<Op<P, F, T>>): seq<(nat, State<T>)>
    requires Inv(w) && LegalRun(w, ops)
    decreases ops
  {
    if ops == [] then [] else StepKeeps(w, ops[0]); Received(w, ops[0]) + Receipts(Step(w, ops[0]), ops[1..])
  }

  /** What is received is what was set, and it was not received before. */
  lemma ReceivedIsOutcome<P, F, T>(w: World<P, F, T>, op: Op<P, F, T>)
    requires Inv(w) && Legal(w, op) && Received(w, op) != []
    ensures var (c, o), w' := Received(w, op)[0], Step(w, op);
            && c in w.table && w.table[c].outcome == o && o.Available() && !w.table[c].consumer.Delivered?
            && c in w'.table && w'.table[c].consumer.Delivered?
  {
    if op.Receive? {
      assert ConsumingOk(w, op.f);
      ChannelsOf(w, w.fs[op.f].chan);
    }
  }

  lemma {:induction false} RunEvolves<P, F, T>(w: World<P, F, T>, ops: seq<Op<P, F, T>>)
    requires Inv(w) && LegalRun(w, ops)
    ensures Evolves(w, Run(w, ops))
    decreases ops
  {
    if ops != [] {
      StepKeeps(w, ops[0]);
      RunEvolves(Step(w, ops[0]), ops[1..]);
      EvolvesTrans(w, Step(w, ops[0]), Run(w, ops));
    }
  }

  lemma {:induction false} NotAgain<P, F, T>(w: World<P, F, T>, ops: seq<Op<P, F, T>>, c: nat)
    requires Inv(w) && LegalRun(w, ops) && c in w.table && w.table[c].consumer.Delivered?
    ensures forall i | 0 <= i < |Receipts(w, ops)| :: Receipts(w, ops)[i].0 != c
    decreases ops
  {
    if ops != [] {
      StepKeeps(w, ops[0]);
      NotAgain(Step(w, ops[0]), ops[1..], c);
      if Received(w, ops[0]) != [] {
        ReceivedIsOutcome(w, ops[0]);
      }
    }
  }

  /** Over any run, no channel is received from twice, and what is received is the outcome the channel ends with. */
  lemma {:induction false} ReceivedOnce<P, F, T>(w: World<P, F, T>, ops: seq<Op<P, F, T>>)
    requires Inv(w) && LegalRun(w, ops)
    ensures var l, w' := Receipts(w, ops), Run(w, ops);
            Once(l) && Settled(w', l)
    decreases ops
  {
    if ops != [] {
      StepKeeps(w, ops[0]);
      var w1, r := Step(w, ops[0]), Received(w, ops[0]);
      ReceivedOnce(w1, ops[1..]);
      ReceivedFirst(w, ops[0], w1, ops[1..]);
      assert Receipts(w, ops) == r + Receipts(w1, ops[1..]);
      OnceAfter(r, Receipts(w1, ops[1..]));
    }
  }

  /** What a step receives is not received again, and settled to the end. */
  lemma ReceivedFirst<P, F, T>(w: World<P, F, T>, op: Op<P, F, T>, w1: World<P, F, T>, ops: seq<Op<P, F, T>>)
    requires Inv(w) && Legal(w, op) && w1 == Step(w, op) && Inv(w1) && LegalRun(w1, ops)
    ensures |Received(w, op)| <= 1 && Settled(Run(w1, ops), Received(w, op))
    ensures Received(w, op) != [] ==>
              forall i | 0 <= i < |Receipts(w1, ops)| :: Receipts(w1, ops)[i].0 != Received(w, op)[0].0
  {
    if Received(w, op) != [] {
      ReceivedIsOutcome(w, op);
      NotAgain(w1, ops, Received(w, op)[0].0);
      RunEvolves(w1, ops);
    }
  }

  ghost predicate Once<T>(l: seq<(nat, State<T>)>) {
    forall i, j | 0 <= i < j < |l| :: l[i].0 != l[j].0
  }

  ghost predicate Settled<P, F, T>(w: World<P, F, T>, l: seq<(nat, State<T>)>) {
    forall i | 0 <= i < |l| :: l[i].0 in w.table && w.table[l[i].0].outcome == l[i].1
  }

  lemma OnceAfter<T>(r: seq<(nat, State<T>)>, t: seq<(nat, State<T>)>)
    requires Once(t) && |r| <= 1 && forall i | 0 <= i < |t| :: r != [] ==> t[i].0 != r[0].0
    ensures Once(r + t)
  {
  }

  ghost function RunTasks<P, F, T>(n: nat): (ops: seq<Op<P, F, T>>)
    ensures |ops| == n
  {
    if n == 0 then [] else [RunTask] + RunTasks(n - 1)
  }

  lemma FirstTask<P, F, T>(w: World<P, F, T>, ops: seq<Op<P, F, T>>)
    requires Inv(w) && |w.queue| > 0 && ops != [] && ops[0] == RunTask
    ensures Inv(Pop(w)) && Pop(w).queue == w.queue[1..] && Pop(w).queued == w.queued[1..] && |w.queue| == |w.queued|
    ensures LegalRun(Pop(w), ops[1..]) ==>
              && LegalRun(w, ops) && Run(w, ops) == Run(Pop(w), ops[1..])
              && Receipts(w, ops) == [(w.queued[0], w.queue[0].state)] + Receipts(Pop(w), ops[1..])
  {
    StepKeeps(w, RunTask);
  }

  /** The first n queued continuations, as receipts. */
  ghost function Carried<T>(queued: seq<nat>, queue: seq<Continuation<T>>, n: nat): (l: seq<(nat, State<T>)>)
    requires n <= |queue| == |queued|
    ensures |l| == n
  {
    if n == 0 then [] else [(queued[0], queue[0].state)] + Carried(queued[1..], queue[1..], n - 1)
  }

  /** The engine gets to every continuation in its queue, in order, each with the value of its channel. */
  lemma {:induction false} QueueIsRun<P, F, T>(w: World<P, F, T>, n: nat)
    requires Inv(w) && n <= |w.queue| == |w.queued|
    ensures LegalRun(w, RunTasks<P, F, T>(n)) && Run(w, RunTasks<P, F, T>(n)).queue == w.queue[n..]
    ensures Receipts(w, RunTasks<P, F, T>(n)) == Carried(w.queued, w.queue, n)
    decreases n
  {
    if n > 0 {
      var ops := RunTasks<P, F, T>(n);
      FirstTask(w, ops);
      QueueIsRun(Pop(w), n - 1);
      assert ops[1..] == RunTasks<P, F, T>(n - 1);
    }
  }

  // ----- what futures see -----

  /** A value set is seen by the linked future at once, and by no other. */
  lemma SetIsSeen<P, F, T>(w: World<P, F, T>, p: P, o: State<T>, urgent: bool, g: F)
    requires Inv(w) && p in w.ps && w.ps[p].state.Pending? && o.Available() && g in w.fs
    ensures StateOf(SetState(w, p, o, urgent), g) == if w.ps[p].fut == Some(g) then o else StateOf(w, g)
  {
  }

  /** Moves and destructions of promises change nothing that any future sees. */
  lemma MoveIsUnseen<P, F, T>(w: World<P, F, T>, q: P, p: P, g: F)
    requires Inv(w) && p in w.ps && q != p && (q in w.ps ==> w.ps[q].at.Null?) && g in w.fs
    ensures StateOf(MovePromise(w, q, p), g) == StateOf(w, g) && StateOf(Abandon(w, p), g) == StateOf(w, g)
    ensures MovePromise(w, q, p).ps[q] == w.ps[p]
  {
  }

  /** A future moved to sees what the one moved from saw; the others see no change. */
  lemma FutureMoveIsSeen<P, F, T>(w: World<P, F, T>, g: F, f: F, h: F)
    requires Inv(w) && f in w.fs && f != g && (g in w.fs ==> w.fs[g].prom.None? && !Attached(w, g)) && h in w.fs
    requires h != f && h != g
    ensures var w' := MoveFuture(w, g, f); StateOf(w', g) == StateOf(w, f) && StateOf(w', h) == StateOf(w, h)
  {
  }

  /** A continuation comes to the queue with the value, whether it was attached before the value was set or after. */
  lemma ScheduleEitherWay<P, F, T>(w: World<P, F, T>, f: F, k: nat, o: State<T>)
    requires Inv(w) && f in w.fs && Attached(w, f) && StateOf(w, f).Pending? && o.Available()
    ensures var p := w.fs[f].prom.value;
            && Linked(SetState(w, p, o, false)) && Attached(SetState(w, p, o, false), f)
            && p in Schedule(w, f, k).ps && Schedule(w, f, k).ps[p].state.Pending?
            && Schedule(SetState(w, p, o, false), f, k).queue == w.queue + [Continuation(k, o)]
            && SetState(Schedule(w, f, k), p, o, false).queue == w.queue + [Continuation(k, o)]
  {
    SetStateKeeps(w, w.fs[f].prom.value, o, false);
  }

  /** The future of the other promise sees the value, whether it was set before the forwarding or after. */
  lemma ForwardEitherWay<P, F, T>(w: World<P, F, T>, f: F, q: P, o: State<T>)
    requires Inv(w) && CanForward(w, f, q) && StateOf(w, f).Pending? && o.Available() && w.ps[q].fut.Some?
    ensures var p, g := w.fs[f].prom.value, w.ps[q].fut.value;
            && g in w.fs && Inv(SetState(w, p, o, false)) && CanForward(SetState(w, p, o, false), f, q)
            && g in Forward(SetState(w, p, o, false), f, q).fs
                && StateOf(Forward(SetState(w, p, o, false), f, q), g) == o
            && p in Forward(w, f, q).ps && g in SetState(Forward(w, f, q), p, o, false).fs
            && StateOf(SetState(Forward(w, f, q), p, o, false), g) == o
  {
    var p, g := w.fs[f].prom.value, w.ps[q].fut.value;
    SetFirst(w, f, q, o);
    ForwardFirst(w, f, q, o);
  }

  lemma SetFirst<P, F, T>(w: World<P, F, T>, f: F, q: P, o: State<T>)
    requires Inv(w) && CanForward(w, f, q) && StateOf(w, f).Pending? && o.Available() && w.ps[q].fut.Some?
    ensures var w1, g := SetState(w, w.fs[f].prom.value, o, false), w.ps[q].fut.value;
            && g in w.fs && Inv(w1) && CanForward(w1, f, q) && g in Forward(w1, f, q).fs
                && StateOf(Forward(w1, f, q), g) == o
  {
    var p, g := w.fs[f].prom.value, w.ps[q].fut.value;
    SetStateKeeps(w, p, o, false);
    var w1 := SetState(w, p, o, false);
    assert f != g && p != q;
    assert StateOf(w1, f) == o && w1.ps[q] == w.ps[q];
    SetIsSeen(w1, q, o, true, g);
    var w2 := SetState(w1, q, o, true);
    assert Consume(w2, f).fs == w2.fs && Consume(w2, f).ps[q] == w2.ps[q];
  }

  lemma ForwardFirst<P, F, T>(w: World<P, F, T>, f: F, q: P, o: State<T>)
    requires Inv(w) && CanForward(w, f, q) && StateOf(w, f).Pending? && o.Available() && w.ps[q].fut.Some?
    ensures var w1, p, g := Forward(w, f, q), w.fs[f].prom.value, w.ps[q].fut.value;
            p in w1.ps && g in w1.fs && StateOf(SetState(w1, p, o, false), g) == o
  {
    var p, g := w.fs[f].prom.value, w.ps[q].fut.value;
    ForwardPending(w, f, q);
    var w1 := Forward(w, f, q);
    assert w1.ps[p].fut == Some(g) && w1.ps[p].state.Pending?;
    SetIsSeen(w1, p, o, false, g);
  }

  // ----- chains -----

  /** f is passed on to qs[0], the future of qs[0] to qs[1], and so on, all before anything has been set. */
  ghost predicate Chain<P, F, T>(w: World<P, F, T>, f: F, qs: seq<P>)
    requires Linked(w)
    decreases qs
  {
    qs != [] && CanForward(w, f, qs[0]) && StateOf(w, f).Pending? && qs[0] !in qs[1..]
    && (|qs| > 1 ==>
          && w.ps[qs[0]].fut.Some? && w.fs[f].prom.value !in qs && Inv(Forward(w, f, qs[0]))
          && Chain(Forward(w, f, qs[0]), w.ps[qs[0]].fut.value, qs[1..]))
  }

  ghost function ForwardAll<P, F, T>(w: World<P, F, T>, f: F, qs: seq<P>): World<P, F, T>
    requires Linked(w) && Chain(w, f, qs)
    decreases qs
  {
    if |qs| == 1 then Forward(w, f, qs[0]) else ForwardAll(Forward(w, f, qs[0]), w.ps[qs[0]].fut.value, qs[1..])
  }

  lemma PendingBefore<P, F, T>(w: World<P, F, T>, f: F, q: P, r: P)
    requires Inv(w) && CanForward(w, f, q) && StateOf(w, f).Pending? && r != w.fs[f].prom.value
    requires r in Forward(w, f, q).ps && Forward(w, f, q).ps[r].state.Pending?
    ensures r in w.ps && w.ps[r].state.Pending?
  {
    ForwardPending(w, f, q);
  }

  /** What one forward leaves of a chain. */
  lemma ChainTail<P, F, T>(w: World<P, F, T>, f: F, qs: seq<P>)
    requires Inv(w) && Chain(w, f, qs) && |qs| > 1
    ensures var w1, last := Forward(w, f, qs[0]), qs[|qs| - 1];
            && Inv(w1) && Chain(w1, w.ps[qs[0]].fut.value, qs[1..])
            && last == qs[1..][|qs| - 2] && last != w.fs[f].prom.value && last != qs[0]
  {
    var last := qs[|qs| - 1];
    assert last == qs[1..][|qs| - 2] && last in qs && last in qs[1..];
  }

  lemma {:induction false} ChainPending<P, F, T>(w: World<P, F, T>, f: F, qs: seq<P>)
    requires Inv(w) && Chain(w, f, qs)
    ensures var last := qs[|qs| - 1]; last in w.ps && w.ps[last].state.Pending?
    decreases |qs|
  {
    if |qs| > 1 {
      ChainTail(w, f, qs);
      ChainPending(Forward(w, f, qs[0]), w.ps[qs[0]].fut.value, qs[1..]);
      PendingBefore(w, f, qs[0], qs[|qs| - 1]);
    }
  }

  lemma Untouched<P, F, T>(w: World<P, F, T>, f: F, q: P, r: P)
    requires Inv(w) && CanForward(w, f, q) && StateOf(w, f).Pending? && r != w.fs[f].prom.value && r != q
    requires r in w.ps && w.ps[r].state.Pending?
    ensures var w1 := Forward(w, f, q);
            && r in w1.ps && w1.ps[r] == w.ps[r] && w.ps[r].chan in w.table && w.ps[r].chan in w1.table
            && w1.table[w.ps[r].chan] == w.table[w.ps[r].chan]
  {
    ForwardPending(w, f, q);
    ForwardChannels(w, f, q);
    ChannelsOf(w, w.ps[r].chan);
  }

  /** One forward leaves what the rest of the chain depends on. */
  lemma ChainStep<P, F, T>(w: World<P, F, T>, f: F, qs: seq<P>)
    requires Inv(w) && Chain(w, f, qs) && |qs| > 1
    ensures var w1, p, g, last := Forward(w, f, qs[0]), w.fs[f].prom.value, w.ps[qs[0]].fut.value, qs[|qs| - 1];
            && g in w1.fs && w1.fs[g].prom == Some(p) && last == qs[1..][|qs| - 2]
            && last in w.ps && last in w1.ps && w1.ps[last] == w.ps[last]
            && w.ps[last].chan in w.table && w.ps[last].chan in w1.table
            && w1.table[w.ps[last].chan] == w.table[w.ps[last].chan]
  {
    ForwardPending(w, f, qs[0]);
    var w1, last := Forward(w, f, qs[0]), qs[|qs| - 1];
    assert last == qs[1..][|qs| - 2] && last in qs[1..];
    ChainPending(w, f, qs);
    Untouched(w, f, qs[0], last);
  }

  /** After a chain of forwards, the promise at its start stands where the last one stood. */
  lemma {:induction false} ChainMoves<P, F, T>(w: World<P, F, T>, f: F, qs: seq<P>)
    requires Inv(w) && Chain(w, f, qs)
    ensures var w', p, last := ForwardAll(w, f, qs), w.fs[f].prom.value, qs[|qs| - 1];
            && Inv(w') && last in w.ps && p in w'.ps && w'.ps[p] == w.ps[last]
            && w.ps[last].chan in w'.table && w.ps[last].chan in w.table
            && w'.table[w.ps[last].chan] == w.table[w.ps[last].chan].(producer := Some(p))
    decreases qs
  {
    if |qs| == 1 {
      ForwardPending(w, f, qs[0]);
    } else {
      ChainStep(w, f, qs);
      ChainMoves(Forward(w, f, qs[0]), w.ps[qs[0]].fut.value, qs[1..]);
    }
  }

  /** A value set on the promise at the start comes to the receiver at the end: in its future, or in the engine's queue. */
  lemma ChainReaches<P, F, T>(w: World<P, F, T>, f: F, qs: seq<P>, o: State<T>)
    requires Inv(w) && Chain(w, f, qs) && o.Available()
    ensures qs[|qs| - 1] in w.ps
    ensures var w1, p, d := ForwardAll(w, f, qs), w.fs[f].prom.value, w.ps[qs[|qs| - 1]].chan;
            && Inv(w1) && Legal(w1, Set(p, o)) && d in w.table
            && var w2 := Step(w1, Set(p, o));
               && (w.table[d].consumer.ByFuture? ==>
                     w.table[d].consumer.f in w2.fs && StateOf(w2, w.table[d].consumer.f) == o)
               && (w.table[d].consumer.ByTask? ==>
                     |w2.queue| > 0 && w2.queue[|w2.queue| - 1] == Continuation(w.table[d].consumer.func, o))
  {
    ChainMoves(w, f, qs);
    var w1, p, d := ForwardAll(w, f, qs), w.fs[f].prom.value, w.ps[qs[|qs| - 1]].chan;
    ChainPending(w, f, qs);
    ChannelsOf(w1, d);
    SetStateKeeps(w1, p, o, false);
    ChannelsOf(SetState(w1, p, o, false), d);
  }
}
