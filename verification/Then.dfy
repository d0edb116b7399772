/**
 future::then of src/future.h as a machine of futures that are ready, wait for the outside, or wait for each other.

 A computation is what a piece of asynchronous code does: hand over a value or an exception, wait for an event from
 outside, or run one computation and then another that depends on its value.  `env` says how each event turns out.
 */
module Then {
  import opened Wrappers

  datatype Outcome<T> = Value(v: T) | Error(e: int)

  datatype Comp<!T> = Done(o: Outcome<T>) | Wait(event: nat) | Then(c: Comp<T>, f: T -> Comp<T>)

  // ----- what a computation means -----

  /** The outcome of c, if it is reached within n calls of continuations. */
  ghost function Result<T(!new)>(c: Comp<T>, env: nat -> Outcome<T>, n: nat): Option<Outcome<T>>
    decreases n, c
  {
    match c
    case Done(o) => Some(o)
    case Wait(k) => Some(env(k))
    case Then(c1, f) =>
      match Result(c1, env, n)
      case Some(Value(v)) => if n == 0 then None else Result(f(v), env, n - 1)
      case r => r
  }

  ghost predicate Evaluates<T(!new)>(c: Comp<T>, env: nat -> Outcome<T>, o: Outcome<T>) {
    exists n: nat :: Result(c, env, n) == Some(o)
  }

  lemma {:induction false} MoreFuel<T(!new)>(c: Comp<T>, env: nat -> Outcome<T>, n: nat, m: nat)
    requires n <= m && Result(c, env, n).Some?
    ensures Result(c, env, m) == Result(c, env, n)
    decreases n, c
  {
    match c
    case Then(c1, f) =>
      MoreFuel(c1, env, n, m);
      if Result(c1, env, n).value.Value? {
        MoreFuel(f(Result(c1, env, n).value.v), env, n - 1, m - 1);
      }
    case _ =>
  }

  /** A computation has at most one outcome. */
  lemma Deterministic<T(!new)>(c: Comp<T>, env: nat -> Outcome<T>, o: Outcome<T>, o': Outcome<T>)
    requires Evaluates(c, env, o) && Evaluates(c, env, o')
    ensures o == o'
  {
    var n: nat :| Result(c, env, n) == Some(o);
    var m: nat :| Result(c, env, m) == Some(o');
    MoreFuel(c, env, n, n + m);
    MoreFuel(c, env, m, n + m);
  }

  /** then, in terms of outcomes: the continuation runs on a value, an exception passes by it. */
  lemma ThenIs<T(!new)>(c: Comp<T>, f: T -> Comp<T>, env: nat -> Outcome<T>, o: Outcome<T>)
    ensures Evaluates(Then(c, f), env, o) <==>
            || (o.Error? && Evaluates(c, env, o))
            || (exists v :: Evaluates(c, env, Value(v)) && Evaluates(f(v), env, o))
  {
    if Evaluates(Then(c, f), env, o) {
      var n: nat :| Result(Then(c, f), env, n) == Some(o);
      if o.Error? && Result(c, env, n) == Some(o) {
        assert Evaluates(c, env, o);
      } else {
        var v := Result(c, env, n).value.v;
        assert Evaluates(c, env, Value(v));
        assert Result(f(v), env, n - 1) == Some(o);
      }
    }
    if o.Error? && Evaluates(c, env, o) {
      var n: nat :| Result(c, env, n) == Some(o);
      assert Result(Then(c, f), env, n) == Some(o);
    }
    if v :| Evaluates(c, env, Value(v)) && Evaluates(f(v), env, o) {
      var n: nat :| Result(c, env, n) == Some(Value(v));
      var m: nat :| Result(f(v), env, m) == Some(o);
      MoreFuel(c, env, n, n + m + 1);
      MoreFuel(f(v), env, m, n + m);
      assert Result(Then(c, f), env, n + m + 1) == Some(o);
    }
  }

  /** Chained thens may be grouped either way. */
  lemma Associative<T(!new)>(c: Comp<T>, f: T -> Comp<T>, g: T -> Comp<T>, env: nat -> Outcome<T>, o: Outcome<T>)
    ensures Evaluates(Then(Then(c, f), g), env, o) <==> Evaluates(Then(c, x => Then(f(x), g)), env, o)
  {
    var h := x => Then(f(x), g);
    ThenIs(Then(c, f), g, env, o);
    ThenIs(c, h, env, o);
    ThenIs(c, f, env, o);
    forall v
      ensures Evaluates(Then(c, f), env, Value(v)) <==>
              exists u :: Evaluates(c, env, Value(u)) && Evaluates(f(u), env, Value(v))
    {
      ThenIs(c, f, env, Value(v));
    }
    forall u
      ensures Evaluates(h(u), env, o) <==>
              || (o.Error? && Evaluates(f(u), env, o))
              || (exists v :: Evaluates(f(u), env, Value(v)) && Evaluates(g(v), env, o))
    {
      ThenIs(f(u), g, env, o);
    }
  }

  ghost predicate Equiv<T(!new)>(a: Comp<T>, b: Comp<T>, env: nat -> Outcome<T>) {
    forall o :: Evaluates(a, env, o) <==> Evaluates(b, env, o)
  }

  lemma Congruent<T(!new)>(a: Comp<T>, b: Comp<T>, f: T -> Comp<T>, env: nat -> Outcome<T>)
    requires Equiv(a, b, env)
    ensures Equiv(Then(a, f), Then(b, f), env)
  {
    forall o ensures Evaluates(Then(a, f), env, o) <==> Evaluates(Then(b, f), env, o) {
      ThenIs(a, f, env, o);
      ThenIs(b, f, env, o);
    }
  }

  lemma DoneIs<T(!new)>(o: Outcome<T>, env: nat -> Outcome<T>, o': Outcome<T>)
    ensures Evaluates(Done(o), env, o') <==> o == o'
  {
    assert Result(Done(o), env, 0) == Some(o);
  }

  lemma WaitIs<T(!new)>(k: nat, env: nat -> Outcome<T>, o: Outcome<T>)
    ensures Evaluates(Wait(k), env, o) <==> o == env(k)
  {
    assert Result<T>(Wait(k), env, 0) == Some(env(k));
  }

  /** A computation that has come to o may be replaced by o, and one that has come to a value by what follows. */
  lemma Reached<T(!new)>(c: Comp<T>, f: T -> Comp<T>, env: nat -> Outcome<T>, o: Outcome<T>)
    requires Evaluates(c, env, o)
    ensures Equiv(Then(c, f), Then(Done(o), f), env)
    ensures o.Value? ==> Equiv(Then(c, f), f(o.v), env)
    ensures o.Error? ==> Evaluates(Then(c, f), env, o)
  {
    forall o' ensures Evaluates(Then(c, f), env, o') <==> Evaluates(Then(Done(o), f), env, o') {
      ThenIs(c, f, env, o');
      ThenIs(Done(o), f, env, o');
      OnlyOutcome(c, env, o);
    }
    if o.Value? {
      forall o' ensures Evaluates(Then(c, f), env, o') <==> Evaluates(f(o.v), env, o') {
        ThenIs(c, f, env, o');
        OnlyOutcome(c, env, o);
      }
    }
    ThenIs(c, f, env, o);
  }

  lemma OnlyOutcome<T(!new)>(c: Comp<T>, env: nat -> Outcome<T>, o: Outcome<T>)
    requires Evaluates(c, env, o)
    ensures forall o' :: Evaluates(c, env, o') ==> o' == o
    ensures forall o' :: Evaluates(Done(o), env, o') <==> o' == o
  {
    forall o' | Evaluates(c, env, o') ensures o' == o {
      Deterministic(c, env, o, o');
    }
    forall o' ensures Evaluates(Done(o), env, o') <==> o' == o {
      DoneIs(o, env, o');
    }
  }

  // ----- the machine -----

  /** A future waits for an event, or for the continuation f on the future `on`, or for f to be run on o; or it is set. */
  datatype Status<!T> = Event(k: nat) | Chained(on: nat, f: T -> Comp<T>) | Queued(f: T -> Comp<T>, o: Outcome<T>)
      | Set(o: Outcome<T>)

  /** want is the computation the future stands for; next the future of a continuation attached to this one. */
  datatype Cell<!T> = Cell(want: Comp<T>, status: Status<T>, next: Option<nat>)

  datatype Machine<!T> = Machine(cells: map<nat, Cell<T>>, queue: seq<nat>, size: nat)

  ghost predicate CellOk<T(!new)>(m: Machine<T>, env: nat -> Outcome<T>, d: nat)
    requires d in m.cells
  {
    var c := m.cells[d];
    && d < m.size
    && (c.next.Some? && !c.status.Set? ==>
          c.next.value in m.cells && m.cells[c.next.value].status.Chained? && m.cells[c.next.value].status.on == d)
    && match c.status {
      case Event(k) => Equiv(c.want, Wait(k), env)
      case Chained(on, f) =>
        && on in m.cells && !m.cells[on].status.Set? && m.cells[on].next == Some(d)
        && Equiv(c.want, Then(m.cells[on].want, f), env)
      case Queued(f, o) => d in m.queue && Equiv(c.want, Then(Done(o), f), env)
      case Set(o) => Evaluates(c.want, env, o)
    }
  }

  ghost predicate QueueOk<T(!new)>(m: Machine<T>) {
    && (forall i | 0 <= i < |m.queue| :: m.queue[i] in m.cells && m.cells[m.queue[i]].status.Queued?)
    && (forall i, j | 0 <= i < j < |m.queue| :: m.queue[i] != m.queue[j])
  }

  /** Following continuations back from d, by way of futures numbered lo or more, ends after at most n steps. */
  ghost predicate Grounded<T(!new)>(m: Machine<T>, d: nat, lo: nat, n: nat)
    decreases n
  {
    && d in m.cells && lo <= d
    && (m.cells[d].status.Chained? ==> n > 0 && Grounded(m, m.cells[d].status.on, lo, n - 1))
  }

  ghost predicate Inv<T(!new)>(m: Machine<T>, env: nat -> Outcome<T>) {
    && (forall d | d in m.cells :: CellOk(m, env, d))
    && QueueOk(m)
    && (forall d | d in m.cells :: exists n: nat :: Grounded(m, d, 0, n))
  }

  /** What running a piece of code gives: a ready future, or one of the machine's. */
  datatype Fut<T> = Ready(o: Outcome<T>) | Pending(d: nat)

  ghost function Add<T(!new)>(m: Machine<T>, c: Cell<T>): Machine<T> {
    m.(cells := m.cells[m.size := c], size := m.size + 1)
  }

  /** The continuation f on the future `on`, for a new future. */
  ghost function Attach<T(!new)>(m: Machine<T>, on: nat, f: T -> Comp<T>): Machine<T>
    requires on in m.cells
  {
    var m1 := m.(cells := m.cells[on := m.cells[on].(next := Some(m.size))]);
    Add(m1, Cell(Then(m.cells[on].want, f), Chained(on, f), None))
  }

  /**
   Code is run at once as far as it goes.  The two ways of then are here: on a ready future the continuation runs in
   place, otherwise it is left with the future.  None stands for code that runs for longer than n continuations.
   */
  ghost function Exec<T(!new)>(m: Machine<T>, c: Comp<T>, n: nat): Option<(Machine<T>, Fut<T>)>
    decreases n, c
  {
    match c
    case Done(o) => Some((m, Ready(o)))
    case Wait(k) => Some((Add(m, Cell(c, Event(k), None)), Pending(m.size)))
    case Then(c1, f) =>
      match Exec(m, c1, n)
      case None => None
      case Some((m1, Ready(Value(v)))) => if n == 0 then None else Exec(m1, f(v), n - 1)
      case Some((m1, Ready(Error(e)))) => Some((m1, Ready(Error(e))))
      case Some((m1, Pending(d))) => if d in m1.cells then Some((Attach(m1, d, f), Pending(m1.size))) else None
  }

  /** m' is m with more futures, which do not involve those there were. */
  ghost predicate Extends<T(!new)>(m: Machine<T>, m': Machine<T>) {
    && m.size <= m'.size && m'.queue == m.queue
    && (forall d | d in m.cells :: d in m'.cells && m'.cells[d] == m.cells[d])
    && (forall d | d in m'.cells && d !in m.cells :: m.size <= d)
  }

  /** What Exec promises of its future: it stands for c, nothing is attached to it, and it rests on new futures only. */
  ghost predicate Stands<T(!new)>(m: Machine<T>, r: Fut<T>, c: Comp<T>, env: nat -> Outcome<T>, lo: nat) {
    match r
    case Ready(o) => Evaluates(c, env, o)
    case Pending(d) =>
      && d in m.cells && lo <= d && Equiv(m.cells[d].want, c, env) && m.cells[d].next.None?
      && (m.cells[d].status.Event? || m.cells[d].status.Chained?) && exists n: nat :: Grounded(m, d, lo, n)
  }

  lemma {:induction false} GroundedKept<T(!new)>(m: Machine<T>, m': Machine<T>, d: nat, lo: nat, n: nat)
    requires Grounded(m, d, lo, n)
    requires forall b | b in m.cells && lo <= b ::
               b in m'.cells && (m'.cells[b].status == m.cells[b].status || !m'.cells[b].status.Chained?)
    ensures Grounded(m', d, lo, n)
    decreases n
  {
    if m.cells[d].status.Chained? && m'.cells[d].status.Chained? {
      GroundedKept(m, m', m.cells[d].status.on, lo, n - 1);
    }
  }

  lemma {:induction false} GroundedLower<T(!new)>(m: Machine<T>, d: nat, lo: nat, lo': nat, n: nat)
    requires Grounded(m, d, lo, n) && lo' <= lo
    ensures Grounded(m, d, lo', n)
    decreases n
  {
    if m.cells[d].status.Chained? {
      GroundedLower(m, m.cells[d].status.on, lo, lo', n - 1);
    }
  }

  lemma AllGrounded<T(!new)>(m: Machine<T>, m': Machine<T>, d: nat)
    requires exists n: nat :: Grounded(m, d, 0, n)
    requires forall b | b in m.cells ::
               b in m'.cells && (m'.cells[b].status == m.cells[b].status || !m'.cells[b].status.Chained?)
    ensures exists n: nat :: Grounded(m', d, 0, n)
  {
    var n: nat :| Grounded(m, d, 0, n);
    GroundedKept(m, m', d, 0, n);
  }

  lemma AttachCells<T(!new)>(m: Machine<T>, env: nat -> Outcome<T>, on: nat, f: T -> Comp<T>)
    requires Inv(m, env) && on in m.cells && !m.cells[on].status.Set? && m.cells[on].next.None?
    ensures var m' := Attach(m, on, f); forall d | d in m'.cells :: CellOk(m', env, d)
  {
    var m' := Attach(m, on, f);
    forall d | d in m'.cells ensures CellOk(m', env, d) {
      if d != m.size {
        assert CellOk(m, env, d);
      }
    }
  }

  lemma AttachKeeps<T(!new)>(m: Machine<T>, env: nat -> Outcome<T>, on: nat, f: T -> Comp<T>)
    requires Inv(m, env) && on in m.cells && !m.cells[on].status.Set? && m.cells[on].next.None?
    ensures Inv(Attach(m, on, f), env)
  {
    var m' := Attach(m, on, f);
    AttachCells(m, env, on, f);
    forall d | d in m'.cells ensures exists n: nat :: Grounded(m', d, 0, n) {
      if d != m.size {
        AllGrounded(m, m', d);
      } else {
        AllGrounded(m, m', on);
        var n: nat :| Grounded(m', on, 0, n);
        assert Grounded(m', d, 0, n + 1);
      }
    }
  }

  lemma AddKeeps<T(!new)>(m: Machine<T>, env: nat -> Outcome<T>, c: Cell<T>)
    requires Inv(m, env) && c.next.None?
    requires match c.status case Event(k) => Equiv(c.want, Wait(k), env) case Set(o) => Evaluates(c.want, env, o) case _ => false
    ensures Inv(Add(m, c), env)
  {
    var m' := Add(m, c);
    forall d | d in m'.cells ensures CellOk(m', env, d) {
      if d != m.size {
        assert CellOk(m, env, d);
      }
    }
    forall d | d in m'.cells ensures exists n: nat :: Grounded(m', d, 0, n) {
      if d != m.size {
        AllGrounded(m, m', d);
      } else {
        assert Grounded(m', d, 0, 0);
      }
    }
  }

  /** A continuation attached to what stands for c1 stands for what then means. */
  lemma AttachStands<T(!new)>(m: Machine<T>, env: nat -> Outcome<T>, d: nat, c1: Comp<T>, f: T -> Comp<T>, lo: nat)
    requires Inv(m, env) && Stands(m, Pending(d), c1, env, lo)
    ensures Inv(Attach(m, d, f), env) && lo <= m.size
    ensures Stands(Attach(m, d, f), Pending(m.size), Then(c1, f), env, lo)
  {
    var m' := Attach(m, d, f);
    assert CellOk(m, env, d);
    AttachKeeps(m, env, d, f);
    Congruent(m.cells[d].want, c1, f, env);
    var n: nat :| Grounded(m, d, lo, n);
    GroundedKept(m, m', d, lo, n);
    assert Grounded(m', m.size, lo, n + 1);
  }

  /** Running code keeps the machine in order, and what it gives stands for the code. */
  lemma {:induction false} ExecStands<T(!new)>(m: Machine<T>, env: nat -> Outcome<T>, c: Comp<T>, n: nat)
    requires Inv(m, env) && Exec(m, c, n).Some?
    ensures var (m', r) := Exec(m, c, n).value; Inv(m', env) && Extends(m, m') && Stands(m', r, c, env, m.size)
    decreases n, c
  {
    match c
    case Done(o) => DoneIs(o, env, o);
    case Wait(k) =>
      AddKeeps(m, env, Cell(c, Event(k), None));
      assert Grounded(Add(m, Cell(c, Event(k), None)), m.size, m.size, 0);
      forall d | d in m.cells ensures d < m.size {
        assert CellOk(m, env, d);
      }
    case Then(c1, f) =>
      ExecStands(m, env, c1, n);
      var (m1, r) := Exec(m, c1, n).value;
      forall d | d in m1.cells ensures d < m1.size {
        assert CellOk(m1, env, d);
      }
      match r
      case Ready(o) =>
        Reached(c1, f, env, o);
        if o.Value? {
          ExecStands(m1, env, f(o.v), n - 1);
          var (m2, r2) := Exec(m1, f(o.v), n - 1).value;
          StandsFor(m2, r2, f(o.v), c, env, m1.size, m.size);
        }
      case Pending(d) =>
        AttachStands(m1, env, d, c1, f, m.size);
  }

  lemma StandsFor<T(!new)>(m: Machine<T>, r: Fut<T>, a: Comp<T>, b: Comp<T>, env: nat -> Outcome<T>, lo: nat, lo': nat)
    requires Stands(m, r, a, env, lo) && Equiv(b, a, env) && lo' <= lo
    ensures Stands(m, r, b, env, lo')
  {
    if r.Pending? {
      var n: nat :| Grounded(m, r.d, lo, n);
      GroundedLower(m, r.d, lo, lo', n);
    }
  }

  // ----- the steps of a run -----

  /** A value arrives at d: a continuation attached there goes into the queue, for its own future. */
  ghost function SetCell<T(!new)>(m: Machine<T>, d: nat, o: Outcome<T>, rest: seq<nat>): Machine<T>
    requires d in m.cells
  {
    var m1 := m.(cells := m.cells[d := m.cells[d].(status := Set(o))], queue := rest);
    match m.cells[d].next
    case Some(e) =>
      if e in m.cells && m.cells[e].status.Chained? then
        m1.(cells := m1.cells[e := m.cells[e].(status := Queued(m.cells[e].status.f, o))], queue := rest + [e])
      else m1
    case None => m1
  }

  /** The queue without d. */
  ghost predicate Rest<T(!new)>(m: Machine<T>, d: nat, rest: seq<nat>) {
    && (forall i | 0 <= i < |rest| :: rest[i] in m.queue && rest[i] != d)
    && (forall i, j | 0 <= i < j < |rest| :: rest[i] != rest[j])
    && (forall e | e in m.queue && e != d :: e in rest)
  }

  lemma SetCellOk<T(!new)>(m: Machine<T>, env: nat -> Outcome<T>, d: nat, o: Outcome<T>, rest: seq<nat>, b: nat)
    requires Inv(m, env) && d in m.cells && (m.cells[d].status.Event? || m.cells[d].status.Queued?)
    requires Evaluates(m.cells[d].want, env, o) && Rest(m, d, rest) && b in m.cells
    ensures b in SetCell(m, d, o, rest).cells && CellOk(SetCell(m, d, o, rest), env, b)
  {
    var m' := SetCell(m, d, o, rest);
    assert CellOk(m, env, b) && CellOk(m, env, d);
    if m.cells[d].next.Some? {
      var e := m.cells[d].next.value;
      assert CellOk(m, env, e);
      Reached(m.cells[d].want, m.cells[e].status.f, env, o);
      assert m'.queue[|rest|] == e && m'.queue[..|rest|] == rest;
    }
  }

  lemma SetCellKeeps<T(!new)>(m: Machine<T>, env: nat -> Outcome<T>, d: nat, o: Outcome<T>, rest: seq<nat>)
    requires Inv(m, env) && d in m.cells && (m.cells[d].status.Event? || m.cells[d].status.Queued?)
    requires Evaluates(m.cells[d].want, env, o) && Rest(m, d, rest)
    ensures Inv(SetCell(m, d, o, rest), env)
  {
    var m' := SetCell(m, d, o, rest);
    forall b | b in m'.cells ensures CellOk(m', env, b) {
      SetCellOk(m, env, d, o, rest, b);
    }
    forall b | b in m'.cells ensures exists n: nat :: Grounded(m', b, 0, n) {
      AllGrounded(m, m', b);
    }
    assert CellOk(m, env, d);
  }

  /** `*_promise = std::move(pr)`: whoever is to set r is to set d from now on. */
  ghost function Replace<T(!new)>(m: Machine<T>, d: nat, r: nat, rest: seq<nat>): Machine<T>
    requires d in m.cells && r in m.cells
  {
    var st := m.cells[r].status;
    var cells := (m.cells - {r})[d := m.cells[d].(status := st)];
    m.(cells := if st.Chained?
        && st.on in cells then cells[st.on := cells[st.on].(next := Some(d))] else cells, queue := rest)
  }

  lemma ReplaceOk<T(!new)>(m: Machine<T>, env: nat -> Outcome<T>, d: nat, r: nat, rest: seq<nat>, b: nat)
    requires Inv(m, env) && d in m.cells && m.cells[d].status.Queued? && Rest(m, d, rest)
    requires d < r && Stands(m, Pending(r), m.cells[d].want, env, d + 1) && b in Replace(m, d, r, rest).cells
    ensures CellOk(Replace(m, d, r, rest), env, b)
  {
    assert CellOk(m, env, b) && CellOk(m, env, r) && CellOk(m, env, d);
    if m.cells[r].status.Chained? {
      assert CellOk(m, env, m.cells[r].status.on);
    }
    if m.cells[b].next.Some? && !m.cells[b].status.Set? {
      assert CellOk(m, env, m.cells[b].next.value);
    }
    if m.cells[b].status.Chained? {
      assert CellOk(m, env, m.cells[b].status.on);
    }
  }

  /** What r rests on is above d and is not r, so it stays. */
  lemma {:induction false} AboveStays<T(!new)>(m: Machine<T>, env: nat -> Outcome<T>, d: nat, r: nat, rest: seq<nat>,
          b: nat, n: nat)
    requires Inv(m, env) && d in m.cells && r in m.cells && m.cells[r].next.None? && b != r && Grounded(m, b, d + 1, n)
    ensures Grounded(Replace(m, d, r, rest), b, 0, n)
    decreases n
  {
    assert CellOk(m, env, b);
    if m.cells[b].status.Chained? {
      AboveStays(m, env, d, r, rest, m.cells[b].status.on, n - 1);
    }
  }

  lemma {:induction false} ReplacedGrounded<T(!new)>(m: Machine<T>, env: nat -> Outcome<T>, d: nat, r: nat,
          rest: seq<nat>, b: nat, n: nat, j: nat)
    requires Inv(m, env) && d in m.cells && d < r && r in m.cells && m.cells[r].next.None? && b != r
        && Grounded(m, b, 0, n)
    requires Grounded(m, r, d + 1, j)
    ensures exists k: nat :: Grounded(Replace(m, d, r, rest), b, 0, k)
    decreases n
  {
    var m' := Replace(m, d, r, rest);
    if b == d {
      if m.cells[r].status.Chained? {
        assert CellOk(m, env, r);
        AboveStays(m, env, d, r, rest, m.cells[r].status.on, j - 1);
      }
      assert Grounded(m', b, 0, j);
    } else {
      assert CellOk(m, env, b);
      if m.cells[b].status.Chained? {
        ReplacedGrounded(m, env, d, r, rest, m.cells[b].status.on, n - 1, j);
        var k: nat :| Grounded(m', m.cells[b].status.on, 0, k);
        assert Grounded(m', b, 0, k + 1);
      } else {
        assert Grounded(m', b, 0, 0);
      }
    }
  }

  lemma ReplaceQueue<T(!new)>(m: Machine<T>, env: nat -> Outcome<T>, d: nat, r: nat, rest: seq<nat>)
    requires Inv(m, env) && d in m.cells && Rest(m, d, rest) && Stands(m, Pending(r), m.cells[d].want, env, d + 1)
    ensures QueueOk(Replace(m, d, r, rest))
  {
  }

  lemma ReplaceKeeps<T(!new)>(m: Machine<T>, env: nat -> Outcome<T>, d: nat, r: nat, rest: seq<nat>)
    requires Inv(m, env) && d in m.cells && m.cells[d].status.Queued? && Rest(m, d, rest)
    requires d < r && Stands(m, Pending(r), m.cells[d].want, env, d + 1)
    ensures Inv(Replace(m, d, r, rest), env)
  {
    var m' := Replace(m, d, r, rest);
    forall b | b in m'.cells ensures CellOk(m', env, b) {
      ReplaceOk(m, env, d, r, rest, b);
    }
    ReplaceQueue(m, env, d, r, rest);
    var j: nat :| Grounded(m, r, d + 1, j);
    forall b | b in m'.cells ensures exists n: nat :: Grounded(m', b, 0, n) {
      var n: nat :| Grounded(m, b, 0, n);
      ReplacedGrounded(m, env, d, r, rest, b, n, j);
    }
  }

  /** An event comes in; a queued continuation is run; code is started; then is called on a future. */
  datatype Step<!T> = Happen(d: nat) | Run(i: nat, n: nat) | Start(c: Comp<T>, n: nat)
      | Chain(d: nat, f: T -> Comp<T>, n: nat)

  function Without(q: seq<nat>, i: nat): (r: seq<nat>)
    requires i < |q|
  {
    q[..i] + q[i + 1..]
  }

  lemma WithoutIsRest<T(!new)>(m: Machine<T>, i: nat)
    requires QueueOk(m) && i < |m.queue|
    ensures Rest(m, m.queue[i], Without(m.queue, i))
  {
    var q, r := m.queue, Without(m.queue, i);
    forall e | e in q && e != q[i] ensures e in r {
      var j :| 0 <= j < |q| && q[j] == e;
      assert r[if j < i then j else j - 1] == e;
    }
  }

  /** The future that a piece of code hands over, made if it is ready. */
  ghost function Root<T(!new)>(m: Machine<T>, r: Fut<T>, want: Comp<T>): (Machine<T>, nat) {
    match r
    case Ready(o) => (Add(m, Cell(want, Set(o), None)), m.size)
    case Pending(d) => (m, d)
  }

  /** The code of a continuation has run and its future is forwarded to d. */
  ghost function Settle<T(!new)>(m: Machine<T>, d: nat, r: Fut<T>, rest: seq<nat>): Machine<T>
    requires d in m.cells && (r.Pending? ==> r.d in m.cells)
  {
    match r
    case Ready(o) => SetCell(m, d, o, rest)
    case Pending(b) => Replace(m, d, b, rest)
  }

  /** One step; None if it is not possible.  The future it gives, if it gives one, is the second part. */
  ghost function Next<T(!new)>(m: Machine<T>, env: nat -> Outcome<T>, step: Step<T>): Option<(Machine<T>,
          Option<nat>)> {
    match step
    case Happen(d) =>
      if d in m.cells && m.cells[d].status.Event? then Some((SetCell(m, d, env(m.cells[d].status.k), m.queue), None)) else None
    case Run(i, n) =>
      if i < |m.queue| && m.queue[i] in m.cells && m.cells[m.queue[i]].status.Queued? then
        var d, rest := m.queue[i], Without(m.queue, i);
        var Queued(f, o) := m.cells[d].status;
        if o.Error? then Some((SetCell(m, d, o, rest), None))
        else
          match Exec(m, f(o.v), n)
          case Some((m1, r)) =>
            if d in m1.cells && (r.Pending? ==> r.d in m1.cells) then Some((Settle(m1, d, r, rest), None)) else None
          case None => None
      else None
    case Start(c, n) =>
      (match Exec(m, c, n)
       case Some((m1, r)) => var (m2, d) := Root(m1, r, c); Some((m2, Some(d)))
       case None => None)
    case Chain(d, f, n) =>
      if d !in m.cells || m.cells[d].next.Some? then None
      else if !m.cells[d].status.Set? then Some((Attach(m, d, f), Some(m.size)))
      else if m.cells[d].status.o.Error? then
        Some((Add(m, Cell(Then(m.cells[d].want, f), m.cells[d].status, None)), Some(m.size)))
      else
        match Exec(m, f(m.cells[d].status.o.v), n)
        case Some((m1, r)) => var (m2, d2) := Root(m1, r, Then(m.cells[d].want, f)); Some((m2, Some(d2)))
        case None => None
  }

  /** A future once made stays, stands for the same computation, and keeps its outcome. */
  ghost predicate Persists<T(!new)>(m: Machine<T>, m': Machine<T>) {
    forall d | d in m.cells ::
      && d in m'.cells && m'.cells[d].want == m.cells[d].want
      && (m.cells[d].status.Set? ==> m'.cells[d].status == m.cells[d].status)
  }

  lemma HappenKeeps<T(!new)>(m: Machine<T>, env: nat -> Outcome<T>, d: nat)
    requires Inv(m, env) && d in m.cells && m.cells[d].status.Event?
    ensures var m' := SetCell(m, d, env(m.cells[d].status.k), m.queue); Inv(m', env) && Persists(m, m')
  {
    assert CellOk(m, env, d);
    WaitIs(m.cells[d].status.k, env, env(m.cells[d].status.k));
    SetCellKeeps(m, env, d, env(m.cells[d].status.k), m.queue);
    if m.cells[d].next.Some? {
      assert CellOk(m, env, d);
    }
  }

  lemma RootStands<T(!new)>(m: Machine<T>, env: nat -> Outcome<T>, r: Fut<T>, want: Comp<T>, lo: nat)
    requires Inv(m, env) && Stands(m, r, want, env, lo)
    ensures var (m', d) := Root(m, r, want);
            Inv(m', env) && Persists(m, m') && d in m'.cells && Equiv(m'.cells[d].want, want, env)
  {
    if r.Ready? {
      AddKeeps(m, env, Cell(want, Set(r.o), None));
      forall d | d in m.cells ensures d != m.size {
        assert CellOk(m, env, d);
      }
    }
  }

  lemma StartKeeps<T(!new)>(m: Machine<T>, env: nat -> Outcome<T>, c: Comp<T>, n: nat)
    requires Inv(m, env) && Next(m, env, Start(c, n)).Some?
    ensures var (m', d) := Next(m, env, Start(c, n)).value;
            Inv(m', env) && Persists(m, m') && d.Some? && d.value in m'.cells && Equiv(m'.cells[d.value].want, c, env)
  {
    ExecStands(m, env, c, n);
    var (m1, r) := Exec(m, c, n).value;
    RootStands(m1, env, r, c, m.size);
  }

  /** then gives the same future, in what it stands for, whether d was there already or comes later. */
  lemma ThenEitherWay<T(!new)>(m: Machine<T>, env: nat -> Outcome<T>, d: nat, f: T -> Comp<T>, n: nat)
    requires Inv(m, env) && Next(m, env, Chain(d, f, n)).Some?
    ensures var (m', e) := Next(m, env, Chain(d, f, n)).value;
            && Inv(m', env) && Persists(m, m') && e.Some? && e.value in m'.cells
            && Equiv(m'.cells[e.value].want, Then(m.cells[d].want, f), env)
  {
    var want := m.cells[d].want;
    assert CellOk(m, env, d);
    forall b | b in m.cells ensures b != m.size {
      assert CellOk(m, env, b);
    }
    match m.cells[d].status
    case Set(o) =>
      Reached(want, f, env, o);
      if o.Error? {
        AddKeeps(m, env, Cell(Then(want, f), Set(o), None));
      } else {
        ExecStands(m, env, f(o.v), n);
        var (m1, r) := Exec(m, f(o.v), n).value;
        StandsFor(m1, r, f(o.v), Then(want, f), env, m.size, m.size);
        RootStands(m1, env, r, Then(want, f), m.size);
      }
    case _ =>
      AttachKeeps(m, env, d, f);
  }

  lemma RunErrorKeeps<T(!new)>(m: Machine<T>, env: nat -> Outcome<T>, i: nat)
    requires Inv(m, env) && i < |m.queue| && m.cells[m.queue[i]].status.o.Error?
    ensures var d := m.queue[i]; var m' := SetCell(m, d, m.cells[d].status.o, Without(m.queue, i));
            Inv(m', env) && Persists(m, m')
  {
    var d := m.queue[i];
    var Queued(f, o) := m.cells[d].status;
    assert CellOk(m, env, d);
    WithoutIsRest(m, i);
    DoneIs(o, env, o);
    Reached(Done(o), f, env, o);
    SetCellKeeps(m, env, d, o, Without(m.queue, i));
  }

  lemma SettleKeeps<T(!new)>(m: Machine<T>, env: nat -> Outcome<T>, d: nat, r: Fut<T>, rest: seq<nat>, lo: nat)
    requires Inv(m, env) && d in m.cells && m.cells[d].status.Queued? && Rest(m, d, rest)
    requires d < lo && Stands(m, r, m.cells[d].want, env, lo)
    ensures var m' := Settle(m, d, r, rest);
            Inv(m', env) && forall b | b in m.cells && b < lo ::
              && b in m'.cells && m'.cells[b].want == m.cells[b].want
              && (m.cells[b].status.Set? ==> m'.cells[b].status == m.cells[b].status)
  {
    assert CellOk(m, env, d);
    if r.Ready? {
      SetCellKeeps(m, env, d, r.o, rest);
    } else {
      StandsFor(m, r, m.cells[d].want, m.cells[d].want, env, lo, d + 1);
      ReplaceKeeps(m, env, d, r.d, rest);
    }
  }

  lemma RunKeeps<T(!new)>(m: Machine<T>, env: nat -> Outcome<T>, i: nat, n: nat)
    requires Inv(m, env) && Next(m, env, Run(i, n)).Some?
    ensures var (m', _) := Next(m, env, Run(i, n)).value; Inv(m', env) && Persists(m, m')
  {
    var d := m.queue[i];
    var Queued(f, o) := m.cells[d].status;
    if o.Error? {
      RunErrorKeeps(m, env, i);
    } else {
      forall b | b in m.cells ensures b < m.size {
        assert CellOk(m, env, b);
      }
      assert CellOk(m, env, d);
      ExecStands(m, env, f(o.v), n);
      var (m1, r) := Exec(m, f(o.v), n).value;
      DoneIs(o, env, o);
      Reached(Done(o), f, env, o);
      StandsFor(m1, r, f(o.v), m.cells[d].want, env, m.size, m.size);
      WithoutIsRest(m1, i);
      SettleKeeps(m1, env, d, r, Without(m.queue, i), m.size);
    }
  }

  lemma StepKeeps<T(!new)>(m: Machine<T>, env: nat -> Outcome<T>, step: Step<T>)
    requires Inv(m, env) && Next(m, env, step).Some?
    ensures var (m', _) := Next(m, env, step).value; Inv(m', env) && Persists(m, m')
  {
    match step
    case Happen(d) => HappenKeeps(m, env, d);
    case Run(i, n) => RunKeeps(m, env, i, n);
    case Start(c, n) => StartKeeps(m, env, c, n);
    case Chain(d, f, n) => ThenEitherWay(m, env, d, f, n);
  }

  // ----- whole runs -----

  ghost predicate Reaches<T(!new)>(m: Machine<T>, env: nat -> Outcome<T>, steps: seq<Step<T>>, m': Machine<T>)
    decreases steps
  {
    if steps == [] then m == m'
    else Next(m, env, steps[0]).Some? && Reaches(Next(m, env, steps[0]).value.0, env, steps[1..], m')
  }

  lemma {:induction false} RunsKeep<T(!new)>(m: Machine<T>, env: nat -> Outcome<T>, steps: seq<Step<T>>, m': Machine<T>)
    requires Inv(m, env) && Reaches(m, env, steps, m')
    ensures Inv(m', env) && Persists(m, m')
    decreases steps
  {
    if steps != [] {
      StepKeeps(m, env, steps[0]);
      RunsKeep(Next(m, env, steps[0]).value.0, env, steps[1..], m');
    }
  }

  /** Whatever the order in which events come in and continuations run, a future that gets set gets the same outcome,
      the one its computation evaluates to. */
  lemma AnySchedule<T(!new)>(m: Machine<T>, env: nat -> Outcome<T>, d: nat, s1: seq<Step<T>>, m1: Machine<T>,
          s2: seq<Step<T>>, m2: Machine<T>)
    requires Inv(m, env) && Reaches(m, env, s1, m1) && Reaches(m, env, s2, m2) && d in m.cells
    ensures d in m1.cells && d in m2.cells
    ensures m1.cells[d].status.Set? ==> Evaluates(m.cells[d].want, env, m1.cells[d].status.o)
    ensures m1.cells[d].status.Set? && m2.cells[d].status.Set? ==> m1.cells[d].status.o == m2.cells[d].status.o
  {
    RunsKeep(m, env, s1, m1);
    RunsKeep(m, env, s2, m2);
    assert CellOk(m1, env, d) && CellOk(m2, env, d);
    if m1.cells[d].status.Set? && m2.cells[d].status.Set? {
      Deterministic(m.cells[d].want, env, m1.cells[d].status.o, m2.cells[d].status.o);
    }
  }

  /** p.then(f).then(g) and p.then(x => f(x).then(g)) come to the same, in any runs. */
  lemma AnyGrouping<T(!new)>(m: Machine<T>, env: nat -> Outcome<T>, a: nat, b: nat, c: Comp<T>, f: T -> Comp<T>,
          g: T -> Comp<T>,
                             s: seq<Step<T>>, m': Machine<T>)
    requires Inv(m, env) && a in m.cells && b in m.cells && Reaches(m, env, s, m')
    requires Equiv(m.cells[a].want, Then(Then(c, f), g), env)
    requires Equiv(m.cells[b].want, Then(c, x => Then(f(x), g)), env)
    ensures a in m'.cells && b in m'.cells
    ensures m'.cells[a].status.Set? && m'.cells[b].status.Set? ==> m'.cells[a].status == m'.cells[b].status
  {
    RunsKeep(m, env, s, m');
    assert CellOk(m', env, a) && CellOk(m', env, b);
    if m'.cells[a].status.Set? && m'.cells[b].status.Set? {
      Associative(c, f, g, env, m'.cells[a].status.o);
      assert Evaluates(m.cells[b].want, env, m'.cells[a].status.o);
      Deterministic(m.cells[b].want, env, m'.cells[a].status.o, m'.cells[b].status.o);
    }
  }

  lemma {:induction false} GroundedSet<T(!new)>(m: Machine<T>, env: nat -> Outcome<T>, d: nat, n: nat)
    requires Inv(m, env) && m.queue == [] && (forall b | b in m.cells :: !m.cells[b].status.Event?)
        && Grounded(m, d, 0, n)
    ensures m.cells[d].status.Set?
    decreases n
  {
    assert CellOk(m, env, d);
    if m.cells[d].status.Chained? {
      GroundedSet(m, env, m.cells[d].status.on, n - 1);
    }
  }

  /** No future is left behind: once all events have come in and the queue is empty, every future is set. */
  lemma AllSettled<T(!new)>(m: Machine<T>, env: nat -> Outcome<T>, d: nat)
    requires Inv(m, env) && d in m.cells && m.queue == [] && forall b | b in m.cells :: !m.cells[b].status.Event?
    ensures m.cells[d].status.Set? && Evaluates(m.cells[d].want, env, m.cells[d].status.o)
  {
    var n: nat :| Grounded(m, d, 0, n);
    GroundedSet(m, env, d, n);
    assert CellOk(m, env, d);
  }
}
