/**
 The combinators of src/future_util.h.  Futures complete in any order the outside chooses: each completion is a call or a
 step of its own.
 */
module FutureUtil {
  import opened Wrappers

  datatype Outcome<T> = Value(v: T) | Error(e: int)

  // ----- parallel_for_each -----

  /** What one invocation does: it is over at once (with an exception or not), or its future completes later. */
  datatype Launch = AtOnce(ex: Option<int>) | Later

  function FirstFailure(log: seq<Option<int>>): Option<int> {
    if log == [] then None
    else if FirstFailure(log[..|log| - 1]).Some? then FirstFailure(log[..|log| - 1])
    else log[|log| - 1]
  }

  /** FirstFailure is a failure of the log, and is none only if there are none. */
  lemma {:induction false} FirstFailureIs(log: seq<Option<int>>)
    ensures FirstFailure(log).None? <==> forall i | 0 <= i < |log| :: log[i].None?
    ensures FirstFailure(log).Some? ==>
              exists i :: 0 <= i < |log| && log[i] == FirstFailure(log) && forall j | 0 <= j < i :: log[j].None?
  {
    if log != [] {
      var n := |log| - 1;
      FirstFailureIs(log[..n]);
      if FirstFailure(log[..n]).Some? {
        var i :| 0 <= i < n && log[..n][i] == FirstFailure(log[..n]) && forall j | 0 <= j < i :: log[..n][j].None?;
        assert log[i] == FirstFailure(log) && forall j | 0 <= j < i :: log[j] == log[..n][j];
      } else {
        assert forall j | 0 <= j < n :: log[j] == log[..n][j];
        if log[n].Some? {
          assert log[n] == FirstFailure(log);
        }
      }
    }
  }

  class ParallelForEach {
    var waiting: nat
    var ex: Option<int>
    var settings: seq<Option<int>> // what the promise was set to, each time it was
    ghost var launched: nat
    ghost var finished: bool          // the loop over the range is over
    ghost var log: seq<Option<int>>   // the outcomes, in the order of completion

    ghost predicate Valid()
      reads this
    {
      && waiting == launched - |log| + (if finished then 0 else 1) && |log| <= launched
      && ex == FirstFailure(log)
      && settings == if finished && |log| == launched then [FirstFailure(log)] else []
    }

    /** One guard is counted to keep the promise from being set while the loop is on. */
    constructor ()
      ensures Valid() && !finished && launched == 0 && log == []
    {
      waiting, ex, settings := 1, None, [];
      launched, finished, log := 0, false, [];
    }

    /** parallel_for_each_state::complete */
    method CountDown()
      requires waiting > 0
      modifies this`waiting, this`settings
      ensures waiting == old(waiting) - 1
      ensures settings == if waiting == 0 then old(settings) + [ex] else old(settings)
    {
      waiting := waiting - 1;
      if waiting == 0 {
        settings := settings + [ex];
      }
    }

    /** One invocation is over; the promise is set with the last one, once. */
    method Complete(o: Option<int>)
      requires Valid() && |log| < launched
      modifies this
      ensures Valid() && log == old(log) + [o] && launched == old(launched) && finished == old(finished)
      ensures settings == if finished && |log| == launched then [FirstFailure(log)] else []
    {
      if ex == None {
        ex := o;
      }
      log := log + [o];
      assert log[..|log| - 1] == old(log);
      CountDown();
    }

    /** The loop; the futures that were not ready are left to complete in any order. */
    method Start(range: seq<Launch>)
      requires Valid() && !finished && launched == 0 && log == []
      modifies this
      ensures Valid() && finished && launched == |range| && log == Immediate(range)
    {
      var i := 0;
      while i < |range|
        invariant 0 <= i <= |range| && launched == i && !finished
        invariant Valid() && log == Immediate(range[..i])
      {
        assert range[..i + 1][..i] == range[..i];
        waiting := waiting + 1;
        launched := launched + 1;
        if range[i].AtOnce? {
          Complete(range[i].ex);
        }
        i := i + 1;
      }
      assert range[..i] == range;
      finished := true;
      CountDown();
    }
  }

  /** The outcomes of the invocations that were over at once. */
  function Immediate(range: seq<Launch>): (l: seq<Option<int>>)
    ensures |l| <= |range|
  {
    if range == [] then []
    else Immediate(range[..|range| - 1]) + if range[|range| - 1].AtOnce? then [range[|range| - 1].ex] else []
  }

  // ----- when_all -----

  /** The futures with what they hold, and the one that complete_when_all waits for; woken once that one is there. */
  datatype WhenAll<T> = WhenAll(futures: seq<Option<Outcome<T>>>, pos: nat, woken: bool, result: Option<seq<Outcome<T>>>)

  function Skip<T>(futures: seq<Option<Outcome<T>>>, pos: nat): (p: nat)
    requires pos <= |futures|
    ensures pos <= p <= |futures| && (forall i | pos <= i < p :: futures[i].Some?)
    ensures p < |futures| ==> futures[p].None?
    decreases |futures| - pos
  {
    if pos < |futures| && futures[pos].Some? then Skip(futures, pos + 1) else pos
  }

  function Outcomes<T>(futures: seq<Option<Outcome<T>>>): (r: seq<Outcome<T>>)
    requires forall i | 0 <= i < |futures| :: futures[i].Some?
    ensures |r| == |futures| && forall i | 0 <= i < |futures| :: r[i] == futures[i].value
  {
    seq(|futures|, i requires 0 <= i < |futures| => futures[i].value)
  }

  ghost predicate WhenAllInv<T>(w: WhenAll<T>) {
    && w.pos <= |w.futures| && (forall i | 0 <= i < w.pos :: w.futures[i].Some?)
    && (w.result.None? ==> w.pos < |w.futures| && (w.woken <==> w.futures[w.pos].Some?))
    && (w.result.Some? ==>
          (forall i | 0 <= i < |w.futures| :: w.futures[i].Some?) && w.result.value == Outcomes(w.futures))
  }

  /** complete_when_all from pos on. */
  function Continue<T>(futures: seq<Option<Outcome<T>>>, pos: nat): (w: WhenAll<T>)
    requires pos <= |futures| && forall i | 0 <= i < pos :: futures[i].Some?
    ensures WhenAllInv(w) && w.futures == futures
  {
    var p := Skip(futures, pos);
    WhenAll(futures, p, false, if p == |futures| then Some(Outcomes(futures)) else None)
  }

  /** A future completes; if it is the one waited for, the continuation is due. */
  function Completed<T>(w: WhenAll<T>, i: nat, o: Outcome<T>): (w': WhenAll<T>)
    requires i < |w.futures|
  {
    w.(futures := w.futures[i := Some(o)], woken := w.woken || (w.result.None? && i == w.pos))
  }

  /** The continuation: the future is put back, and the search goes on behind it. */
  function Resumed<T>(w: WhenAll<T>): WhenAll<T>
    requires WhenAllInv(w) && w.result.None? && w.woken
  {
    Continue(w.futures, w.pos + 1)
  }

  datatype WhenStep<T> = Comes(i: nat, o: Outcome<T>) | Resumes

  /** A future comes once; the continuation runs when it is due. */
  ghost predicate CanHappen<T>(w: WhenAll<T>, t: WhenStep<T>) {
    match t
    case Comes(i, _) => i < |w.futures| && w.futures[i].None?
    case Resumes => w.result.None? && w.woken
  }

  function Happened<T>(w: WhenAll<T>, t: WhenStep<T>): WhenAll<T>
    requires WhenAllInv(w) && CanHappen(w, t)
  {
    match t
    case Comes(i, o) => Completed(w, i, o)
    case Resumes => Resumed(w)
  }

  lemma WhenStepKeeps<T>(w: WhenAll<T>, t: WhenStep<T>)
    requires WhenAllInv(w) && CanHappen(w, t)
    ensures WhenAllInv(Happened(w, t)) && w.result.None?
  {
  }

  ghost predicate WhenRun<T>(w: WhenAll<T>, ts: seq<WhenStep<T>>, w': WhenAll<T>)
    requires WhenAllInv(w)
    decreases ts
  {
    if ts == [] then w == w'
    else CanHappen(w, ts[0]) && (WhenStepKeeps(w, ts[0]); WhenRun(Happened(w, ts[0]), ts[1..], w'))
  }

  ghost predicate AllThere<T>(futures: seq<Option<Outcome<T>>>) {
    forall i | 0 <= i < |futures| :: futures[i].Some?
  }

  /** w' has the futures that w had, and those that came since, each with its own outcome. */
  ghost predicate Gathered<T>(w: WhenAll<T>, ts: seq<WhenStep<T>>, w': WhenAll<T>) {
    && |w'.futures| == |w.futures|
    && (forall i | 0 <= i < |w.futures| && w.futures[i].Some? :: w'.futures[i] == w.futures[i])
    && (forall t | t in ts && t.Comes? :: t.i < |w'.futures| && w'.futures[t.i] == Some(t.o))
  }

  lemma {:induction false} WhenRunKeeps<T>(w: WhenAll<T>, ts: seq<WhenStep<T>>, w': WhenAll<T>)
    requires WhenAllInv(w) && WhenRun(w, ts, w')
    ensures WhenAllInv(w') && Gathered(w, ts, w')
    ensures w.result.Some? ==> ts == []
    decreases ts
  {
    if ts != [] {
      WhenStepKeeps(w, ts[0]);
      WhenRunKeeps(Happened(w, ts[0]), ts[1..], w');
    }
  }

  /**
   In whatever order the futures come and the continuations run, when_all resolves only when all of them are there, with
   the outcome of each in its place; and when all are there it has resolved, or does with the continuation that is due.
   */
  lemma WhenAllResolves<T>(futures: seq<Option<Outcome<T>>>, ts: seq<WhenStep<T>>, w: WhenAll<T>)
    requires WhenRun(Continue(futures, 0), ts, w)
    ensures Gathered(Continue(futures, 0), ts, w)
    ensures w.result.Some? ==> AllThere(w.futures) && w.result.value == Outcomes(w.futures)
    ensures AllThere(w.futures) && w.result.None? ==>
              CanHappen(w, Resumes) && WhenAllInv(w) && Happened(w, Resumes).result == Some(Outcomes(w.futures))
  {
    WhenRunKeeps(Continue(futures, 0), ts, w);
  }

  lemma {:induction false} NoneBeforeStep<T>(w: WhenAll<T>, ts: seq<WhenStep<T>>, w': WhenAll<T>, k: nat,
                                             mid: WhenAll<T>)
    requires WhenAllInv(w) && WhenRun(w, ts, w') && k < |ts| && WhenRun(w, ts[..k], mid)
    ensures mid.result.None?
    decreases ts
  {
    WhenStepKeeps(w, ts[0]);
    if k > 0 {
      assert ts[..k][1..] == ts[1..][..k - 1];
      NoneBeforeStep(Happened(w, ts[0]), ts[1..], w', k - 1, mid);
    }
  }

  /** It resolves at most once, with the last step of a run if at all: before any step there is no result. */
  lemma WhenAllOnce<T>(futures: seq<Option<Outcome<T>>>, ts: seq<WhenStep<T>>, w: WhenAll<T>, k: nat, mid: WhenAll<T>)
    requires WhenRun(Continue(futures, 0), ts, w) && k < |ts| && WhenRun(Continue(futures, 0), ts[..k], mid)
    ensures mid.result.None?
  {
    NoneBeforeStep(Continue(futures, 0), ts, w, k, mid);
  }

  // ----- map_reduce with a reducer object -----

  /**
   maps and reduces say how each mapper's future and each call of the reducer turn out; done which mappers' futures have
   completed; stage how many links of the chain of `ret` futures have resolved, running whether the reducer's future of
   the next link is outstanding; ret is what the last resolved link holds, applied the values given to the reducer.
   */
  datatype Reducing<T> = Reducing(done: set<nat>, stage: nat, running: bool, ret: Option<int>, applied: seq<T>)

  /** What the reducer sees, and what comes out, if all happens in list order. */
  function InListOrder<T>(maps: seq<Outcome<T>>, reduces: seq<Option<int>>): (seq<T>, Option<int>)
    requires |maps| == |reduces|
  {
    if maps == [] then ([], None)
    else
      var n := |maps| - 1;
      var (applied, ret) := InListOrder(maps[..n], reduces[..n]);
      if ret.Some? then (applied, ret)
      else if maps[n].Error? then (applied, Some(maps[n].e))
      else (applied + [maps[n].v], reduces[n])
  }

  /** It is the first failure in list order that comes out, and the reducer has seen the values before it, in order. */
  lemma {:induction false} UpToFirstFailure<T>(maps: seq<Outcome<T>>, reduces: seq<Option<int>>, k: nat)
    requires |maps| == |reduces| && k < |maps|
    requires forall i | 0 <= i < k :: maps[i].Value? && reduces[i].None?
    requires maps[k].Error? || reduces[k].Some?
    ensures var (applied, ret) := InListOrder(maps, reduces);
            && ret == (if maps[k].Error? then Some(maps[k].e) else reduces[k])
            && |applied| == (if maps[k].Error? then k else k + 1)
            && forall i | 0 <= i < |applied| :: applied[i] == maps[i].v
  {
    var n := |maps| - 1;
    if k < n {
      UpToFirstFailure(maps[..n], reduces[..n], k);
    } else {
      NoFailure(maps[..n], reduces[..n]);
    }
  }

  lemma {:induction false} NoFailure<T>(maps: seq<Outcome<T>>, reduces: seq<Option<int>>)
    requires |maps| == |reduces| && forall i | 0 <= i < |maps| :: maps[i].Value? && reduces[i].None?
    ensures var (applied, ret) := InListOrder(maps, reduces);
            ret == None && |applied| == |maps| && forall i | 0 <= i < |maps| :: applied[i] == maps[i].v
  {
    if maps != [] {
      NoFailure(maps[..|maps| - 1], reduces[..|maps| - 1]);
    }
  }

  datatype ReducingStep = MapperDone(i: nat) | LinkRuns | ReducerDone

  ghost predicate CanReduce<T>(s: Reducing<T>, maps: seq<Outcome<T>>, t: ReducingStep) {
    match t
    case MapperDone(i) => i < |maps| && i !in s.done
    case LinkRuns => s.stage < |maps| && s.stage in s.done && !s.running
    case ReducerDone => s.running && s.stage < |maps|
  }

  function Reduced<T>(s: Reducing<T>, maps: seq<Outcome<T>>, reduces: seq<Option<int>>, t: ReducingStep): Reducing<T>
    requires |maps| == |reduces| && (!t.MapperDone? ==> s.stage < |maps|)
  {
    match t
    case MapperDone(i) => s.(done := s.done + {i})
    case LinkRuns =>
      if s.ret.Some? then s.(stage := s.stage + 1)
      else if maps[s.stage].Error? then s.(stage := s.stage + 1, ret := Some(maps[s.stage].e))
      else s.(running := true, applied := s.applied + [maps[s.stage].v])
    case ReducerDone => s.(running := false, stage := s.stage + 1, ret := reduces[s.stage])
  }

  ghost predicate ReducingInv<T>(s: Reducing<T>, maps: seq<Outcome<T>>, reduces: seq<Option<int>>)
    requires |maps| == |reduces|
  {
    && s.stage <= |maps| && (s.running ==> s.stage < |maps| && maps[s.stage].Value? && s.ret.None?)
    && (s.applied, s.ret) ==
       (var (a, r) := InListOrder(maps[..s.stage], reduces[..s.stage]);
        (if s.running then a + [maps[s.stage].v] else a, r))
  }

  lemma ReducingKeeps<T>(s: Reducing<T>, maps: seq<Outcome<T>>, reduces: seq<Option<int>>, t: ReducingStep)
    requires |maps| == |reduces| && ReducingInv(s, maps, reduces) && CanReduce(s, maps, t)
    ensures ReducingInv(Reduced(s, maps, reduces, t), maps, reduces)
  {
    if !t.MapperDone? {
      assert maps[..s.stage + 1][..s.stage] == maps[..s.stage]
          && reduces[..s.stage + 1][..s.stage] == reduces[..s.stage];
    }
  }

  ghost predicate ReduceRun<T>(s: Reducing<T>, maps: seq<Outcome<T>>, reduces: seq<Option<int>>,
          ts: seq<ReducingStep>, s': Reducing<T>)
    requires |maps| == |reduces|
    decreases ts
  {
    if ts == [] then s == s'
    else CanReduce(s, maps, ts[0]) && ReduceRun(Reduced(s, maps, reduces, ts[0]), maps, reduces, ts[1..], s')
  }

  lemma {:induction false} ReduceRunKeeps<T>(s: Reducing<T>, maps: seq<Outcome<T>>, reduces: seq<Option<int>>,
                                             ts: seq<ReducingStep>, s': Reducing<T>)
    requires |maps| == |reduces| && ReducingInv(s, maps, reduces) && ReduceRun(s, maps, reduces, ts, s')
    ensures ReducingInv(s', maps, reduces)
    decreases ts
  {
    if ts != [] {
      ReducingKeeps(s, maps, reduces, ts[0]);
      ReduceRunKeeps(Reduced(s, maps, reduces, ts[0]), maps, reduces, ts[1..], s');
    }
  }

  /** In whatever order the futures complete, a map_reduce that comes to its end has given the reducer the values in list
      order, up to the first failure, and comes out with that. */
  lemma ReducesInListOrder<T>(maps: seq<Outcome<T>>, reduces: seq<Option<int>>, ts: seq<ReducingStep>, s: Reducing<T>)
    requires |maps| == |reduces| && ReduceRun(Reducing({}, 0, false, None, []), maps, reduces, ts, s)
    ensures s.applied <= InListOrder(maps, reduces).0
    ensures s.stage == |maps| ==> (s.applied, s.ret) == InListOrder(maps, reduces)
    ensures s.stage < |maps| && !s.running && s.stage in s.done ==> CanReduce(s, maps, LinkRuns)
  {
    ReduceRunKeeps(Reducing({}, 0, false, None, []), maps, reduces, ts, s);
    PrefixApplied(maps, reduces, s.stage);
    if s.running {
      var k := s.stage + 1;
      assert maps[..k][..s.stage] == maps[..s.stage] && reduces[..k][..s.stage] == reduces[..s.stage];
      PrefixApplied(maps, reduces, k);
    }
    if s.stage == |maps| {
      assert maps[..s.stage] == maps && reduces[..s.stage] == reduces;
    }
  }

  lemma {:induction false} PrefixApplied<T>(maps: seq<Outcome<T>>, reduces: seq<Option<int>>, k: nat)
    requires |maps| == |reduces| && k <= |maps|
    ensures InListOrder(maps[..k], reduces[..k]).0 <= InListOrder(maps, reduces).0
  {
    if k == |maps| {
      assert maps[..k] == maps && reduces[..k] == reduces;
    } else {
      var n := |maps| - 1;
      PrefixApplied(maps[..n], reduces[..n], k);
      assert maps[..n][..k] == maps[..k] && reduces[..n][..k] == reduces[..k];
    }
  }

  // ----- map_reduce with an initial value -----

  /** The values reduced in the order in which their futures completed; a mapper that fails adds nothing. */
  function InOrderOf<A, T>(maps: seq<Outcome<T>>, order: seq<nat>, initial: A, reduce: (A, T) -> A): A
    requires forall i | 0 <= i < |order| :: order[i] < |maps|
  {
    if order == [] then initial
    else
      var k := |order| - 1;
      var a := InOrderOf(maps, order[..k], initial, reduce);
      if maps[order[k]].Value? then reduce(a, maps[order[k]].v) else a
  }

  function InOrderOfList<A, T>(maps: seq<Outcome<T>>, initial: A, reduce: (A, T) -> A): A {
    if maps == [] then initial
    else
      var a := InOrderOfList(maps[..|maps| - 1], initial, reduce);
      if maps[|maps| - 1].Value? then reduce(a, maps[|maps| - 1].v) else a
  }

  /** Every future completes once. */
  ghost predicate CompletionOrder(order: seq<nat>, n: nat) {
    && (forall i | 0 <= i < |order| :: order[i] < n)
    && (forall i, j | 0 <= i < j < |order| :: order[i] != order[j])
    && (forall k | 0 <= k < n :: k in order)
  }

  ghost predicate LeftCommutative<A(!new), T(!new)>(reduce: (A, T) -> A) {
    forall a, x, y :: reduce(reduce(a, x), y) == reduce(reduce(a, y), x)
  }

  function Drop<T>(q: seq<T>, k: nat): (r: seq<T>)
    requires k < |q|
    ensures |r| == |q| - 1
  {
    q[..k] + q[k + 1..]
  }

  /** A completion may be taken to have come last. */
  lemma {:induction false} ComesLast<A(!new), T(!new)>(maps: seq<Outcome<T>>, order: seq<nat>, initial: A,
          reduce: (A, T) -> A, k: nat)
    requires (forall i | 0 <= i < |order| :: order[i] < |maps|) && k < |order| && LeftCommutative(reduce)
    ensures forall i | 0 <= i < |order| - 1 :: Drop(order, k)[i] < |maps|
    ensures InOrderOf(maps, order, initial, reduce) == InOrderOf(maps, Drop(order, k) + [order[k]], initial, reduce)
  {
    var n := |order| - 1;
    if k == n {
      assert Drop(order, k) + [order[k]] == order;
    } else {
      ComesLast(maps, order[..n], initial, reduce, k);
      var rest, d := Drop(order[..n], k), Drop(order, k);
      assert d == rest + [order[n]];
      assert (rest + [order[k]])[..|rest|] == rest && (d + [order[k]])[..|d|] == d && d[..|rest|] == rest;
    }
  }

  lemma DropCompletion(order: seq<nat>, k: nat, n: nat)
    requires CompletionOrder(order, n) && n > 0 && k < |order| && order[k] == n - 1
    ensures CompletionOrder(Drop(order, k), n - 1)
  {
    var d := Drop(order, k);
    forall j | 0 <= j < n - 1 ensures j in d {
      assert j in order;
      var i :| 0 <= i < |order| && order[i] == j;
      assert d[if i < k then i else i - 1] == j;
    }
  }

  lemma {:induction false} FewerMaps<A, T>(maps: seq<Outcome<T>>, order: seq<nat>, initial: A, reduce: (A, T) -> A,
          n: nat)
    requires n <= |maps| && forall i | 0 <= i < |order| :: order[i] < n
    ensures InOrderOf(maps, order, initial, reduce) == InOrderOf(maps[..n], order, initial, reduce)
  {
    if order != [] {
      FewerMaps(maps, order[..|order| - 1], initial, reduce, n);
    }
  }

  lemma {:induction false} AnyOrder<A(!new), T(!new)>(maps: seq<Outcome<T>>, order: seq<nat>, initial: A,
          reduce: (A, T) -> A)
    requires CompletionOrder(order, |maps|) && LeftCommutative(reduce)
    ensures InOrderOf(maps, order, initial, reduce) == InOrderOfList(maps, initial, reduce)
    decreases |maps|
  {
    if maps != [] {
      var n := |maps| - 1;
      assert n in order;
      var k :| 0 <= k < |order| && order[k] == n;
      ComesLast(maps, order, initial, reduce, k);
      DropCompletion(order, k, |maps|);
      var d := Drop(order, k);
      assert (d + [n])[..|d|] == d;
      FewerMaps(maps, d, initial, reduce, n);
      AnyOrder(maps[..n], d, initial, reduce);
    }
  }

  /** What a call of reduce leaves as the result, and what it throws. */
  datatype Reduction<A> = Reduction(result: A, ex: Option<int>)

  /** The result alone. */
  function Results<A, T>(reduce: (A, T) -> Reduction<A>): (A, T) -> A {
    (a: A, x: T) => reduce(a, x).result
  }

  /** What the future of one mapper makes of its link of the `ret` chain: its own failure, or what reduce throws. */
  function LinkFailure<A, T>(o: Outcome<T>, a: A, reduce: (A, T) -> Reduction<A>): Option<int> {
    if o.Error? then Some(o.e) else reduce(a, o.v).ex
  }

  /** The failures of the links in list order, for futures that completed in the given one. */
  function Failures<A, T>(maps: seq<Outcome<T>>, order: seq<nat>, initial: A, reduce: (A, T) -> Reduction<A>):
    (fs: seq<Option<int>>)
    requires forall i | 0 <= i < |order| :: order[i] < |maps|
    ensures |fs| == |maps|
  {
    if order == [] then seq(|maps|, _ => None)
    else
      var k := |order| - 1;
      var a := InOrderOf(maps, order[..k], initial, Results(reduce));
      Failures(maps, order[..k], initial, reduce)[order[k] := LinkFailure(maps[order[k]], a, reduce)]
  }

  /** Each link fails by what its own mapper did, or its own reduction on the result of the completions before. */
  lemma {:induction false} FailuresAt<A, T>(maps: seq<Outcome<T>>, order: seq<nat>, initial: A,
          reduce: (A, T) -> Reduction<A>, k: nat)
    requires (forall i | 0 <= i < |order| :: order[i] < |maps|) && k < |order|
    requires forall i, j | 0 <= i < j < |order| :: order[i] != order[j]
    ensures Failures(maps, order, initial, reduce)[order[k]]
         == LinkFailure(maps[order[k]], InOrderOf(maps, order[..k], initial, Results(reduce)), reduce)
  {
    var n := |order| - 1;
    if k < n {
      FailuresAt(maps, order[..n], initial, reduce, k);
      assert order[..n][..k] == order[..k] && order[n] != order[k];
    }
  }

  /** The outcome once every link of the `ret` chain has resolved: of the failures, the last in list order comes out. */
  function LastFailure(fs: seq<Option<int>>): Option<int> {
    if fs == [] then None
    else if fs[|fs| - 1].Some? then fs[|fs| - 1]
    else LastFailure(fs[..|fs| - 1])
  }

  lemma {:induction false} LastFailureIs(fs: seq<Option<int>>)
    ensures LastFailure(fs).None? <==> forall i | 0 <= i < |fs| :: fs[i].None?
    ensures LastFailure(fs).Some? ==>
              exists i :: 0 <= i < |fs| && fs[i] == LastFailure(fs) && forall j | i < j < |fs| :: fs[j].None?
  {
    if fs != [] {
      var n := |fs| - 1;
      LastFailureIs(fs[..n]);
      assert forall i | 0 <= i < n :: fs[i] == fs[..n][i];
      if fs[n].Some? {
        assert fs[n] == LastFailure(fs);
      } else if LastFailure(fs).Some? {
        var i :| 0 <= i < n && fs[..n][i] == LastFailure(fs[..n]) && forall j | i < j < n :: fs[..n][j].None?;
        assert fs[i] == LastFailure(fs);
      }
    }
  }

  /** A value if no link failed, or else the failure of the last that did. */
  ghost predicate IsOutcome<A>(fs: seq<Option<int>>, a: A, r: Outcome<A>) {
    match r
    case Value(v) => v == a && forall i | 0 <= i < |fs| :: fs[i].None?
    case Error(e) => exists i :: 0 <= i < |fs| && fs[i] == Some(e) && forall j | i < j < |fs| :: fs[j].None?
  }

  class MapReduce<A, T> {
    const maps: seq<Outcome<T>> // how the mappers' futures turn out
    const reduce: (A, T) -> Reduction<A>
    const initial: A
    var result: A
    var links: seq<Option<Option<int>>> // whose continuations have run, and how each has failed
    ghost var order: seq<nat>

    ghost predicate Valid()
      reads this
    {
      && |links| == |maps| && (forall i | 0 <= i < |order| :: order[i] < |maps|)
      && (forall i | 0 <= i < |maps| :: links[i].Some? <==> i in order)
      && (forall i | 0 <= i < |maps| && links[i].Some? ::
            links[i].value == Failures(maps, order, initial, reduce)[i])
      && (forall i, j | 0 <= i < j < |order| :: order[i] != order[j])
      && result == InOrderOf(maps, order, initial, Results(reduce))
    }

    constructor (maps: seq<Outcome<T>>, initial: A, reduce: (A, T) -> Reduction<A>)
      ensures Valid() && order == [] && this.maps == maps && this.initial == initial && this.reduce == reduce
    {
      this.maps, this.initial, this.reduce := maps, initial, reduce;
      result, links, order := initial, seq(|maps|, _ => None), [];
    }

    /** The future of mapper i completes: the value is reduced then and there, and what goes wrong is passed on. */
    method Complete(i: nat)
      requires Valid() && i < |maps| && links[i].None?
      modifies this
      ensures Valid() && order == old(order) + [i]
    {
      var failure := if maps[i].Error? then Some(maps[i].e) else None;
      if maps[i].Value? {
        var r := reduce(result, maps[i].v);
        result, failure := r.result, r.ex;
      }
      links := links[i := Some(failure)];
      order := order + [i];
      assert order[..|order| - 1] == old(order);
    }

    /** What the returned future holds: nothing while some future is outstanding; then the failure of the last link that
        failed, or the reduction. */
    method Outcome() returns (r: Option<Outcome<A>>)
      requires Valid()
      ensures r.Some? <==> CompletionOrder(order, |maps|)
      ensures r.Some? ==> IsOutcome(Failures(maps, order, initial, reduce),
                                    InOrderOf(maps, order, initial, Results(reduce)), r.value)
    {
      ghost var fs := Failures(maps, order, initial, reduce);
      var n, ret := 0, None;
      while n < |maps|
        invariant 0 <= n <= |maps| && ret == LastFailure(fs[..n])
        invariant forall i | 0 <= i < n :: links[i].Some?
      {
        if links[n].None? {
          assert n !in order;
          return None;
        }
        assert fs[..n + 1][..n] == fs[..n];
        if links[n].value.Some? {
          ret := links[n].value;
        }
        n := n + 1;
      }
      assert fs[..n] == fs;
      assert CompletionOrder(order, |maps|);
      LastFailureIs(fs);
      r := Some(if ret.Some? then Error(ret.value) else Value(result));
    }
  }

  /** The order of completion makes no difference to what is reduced. */
  ghost predicate OrderFree<A(!new), T(!new)>(reduce: (A, T) -> A) {
    forall maps: seq<Outcome<T>>, order: seq<nat>, initial: A | CompletionOrder(order, |maps|) ::
      InOrderOf(maps, order, initial, reduce) == InOrderOfList(maps, initial, reduce)
  }

  /** map_reduce comes to the fold in list order, for every completion order and every input, exactly if the order of two
      reductions never matters. */
  lemma ListOrderIffCommutative<A(!new), T(!new)>(reduce: (A, T) -> A)
    ensures OrderFree(reduce) <==> LeftCommutative(reduce)
  {
    if LeftCommutative(reduce) {
      forall maps: seq<Outcome<T>>, order: seq<nat>, initial: A | CompletionOrder(order, |maps|)
        ensures InOrderOf(maps, order, initial, reduce) == InOrderOfList(maps, initial, reduce)
      {
        AnyOrder(maps, order, initial, reduce);
      }
    }
    if OrderFree(reduce) {
      forall a, x, y ensures reduce(reduce(a, x), y) == reduce(reduce(a, y), x) {
        SwapTwo(a, x, y, reduce);
        var maps, order: seq<nat> := [Value(x), Value(y)], [1, 0];
        assert InOrderOf(maps, order, a, reduce) == InOrderOfList(maps, a, reduce);
      }
      assert LeftCommutative(reduce);
    }
  }

  /** Two values, completing in list order and the other way round. */
  lemma SwapTwo<A, T>(a: A, x: T, y: T, reduce: (A, T) -> A)
    ensures CompletionOrder([1, 0], 2)
    ensures InOrderOf([Value(x), Value(y)], [1, 0], a, reduce) == reduce(reduce(a, y), x)
    ensures InOrderOfList([Value(x), Value(y)], a, reduce) == reduce(reduce(a, x), y)
  {
    var maps, order: seq<nat> := [Value(x), Value(y)], [1, 0];
    assert order[0] == 1 && order[1] == 0 && order[..1] == [1] && [1][..0] == [];
    assert InOrderOf(maps, [1], a, reduce) == reduce(a, y);
    assert maps[..1] == [Value(x)] && [Value(x)][..0] == [];
    assert InOrderOfList([Value(x)], a, reduce) == reduce(a, x);
  }

  // ----- do_until -----

  /** The first round at which do_until ends: the condition holds, or the action fails. */
  ghost predicate EndsAt(stop: nat -> bool, action: nat -> Option<int>, n: nat) {
    (stop(n) || action(n).Some?) && forall k | 0 <= k < n :: !stop(k) && action(k).None?
  }

  /**
   do_until_continued from the given round on.  ready says whether the action's future is there at once (and no other
   task is due); if not, the loop goes on in a continuation.  p is what the promise is set to.
   */
  method DoUntil(stop: nat -> bool, action: nat -> Option<int>, ready: nat -> bool, from: nat, ghost end: nat)
    returns (p: Option<int>, rounds: nat)
    requires from <= end && EndsAt(stop, action, end)
    ensures rounds == end && p == if stop(end) then None else action(end)
    decreases end - from
  {
    rounds := from;
    while !stop(rounds)
      invariant rounds <= end
      decreases end - rounds
    {
      var f := action(rounds);
      if !ready(rounds) {
        if f.None? {
          p, rounds := DoUntil(stop, action, ready, rounds + 1, end);
        } else {
          p := f;
        }
        return;
      }
      if f.Some? {
        return f, rounds;
      }
      rounds := rounds + 1;
    }
    p := None;
  }
}
