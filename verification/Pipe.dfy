/** The pipe of src/pipe.h: one reader and one writer on a bounded queue, either of which may close its end. */
module Pipe {
  import opened Wrappers
  import Fueue

  /** What a read gives: a value, the end of the stream, or an exception. */
  datatype ReadResult<T> = Got(x: T) | Eof | ReadFailed

  /**
   buf is the queue, None in it being the mark of the end.  pending is the value of a write that waits.  written and
   delivered are the values accepted from the writer and handed to the reader; eof tells whether the reader was told the
   end.
   */
  datatype State<T> = State(
    buf: Fueue.State<Option<T>>, readOpen: bool, writeOpen: bool, pending: Option<T>, written: seq<T>, delivered: seq<T>,
    eof: bool)

  function Start<T>(size: nat): State<T> {
    State(Fueue.State([], size, false, Fueue.Idle, Fueue.Idle), true, true, None, [], [], false)
  }

  function Values<T>(q: seq<Option<T>>): (l: seq<T>)
    ensures |l| <= |q|
  {
    if q == [] then [] else (if q[0].Some? then [q[0].value] else []) + Values(q[1..])
  }

  lemma {:induction false} ValuesAppend<T>(q: seq<Option<T>>, x: Option<T>)
    ensures Values(q + [x]) == Values(q) + if x.Some? then [x.value] else []
  {
    if q != [] {
      ValuesAppend(q[1..], x);
      assert (q + [x])[1..] == q[1..] + [x] && (q + [x])[0] == q[0];
    } else {
      assert (q + [x])[1..] == [];
    }
  }

  function Pending<T>(s: State<T>): seq<T> {
    if s.pending.Some? then [s.pending.value] else []
  }

  /** What goes in comes out in order, the end is told last, and each side waits for good reason only. */
  ghost predicate Inv<T>(s: State<T>) {
    var f := s.buf;
    && Fueue.Inv(f) && |f.q| <= f.max
    && (f.writer.Idle? <==> s.pending.None?) && !f.writer.Failed?
    && (f.reader.Failed? ==> f.max == 0 && f.ex)
    && (f.writer.Woken? ==> |f.q| < f.max)
    && (f.reader.Woken? ==> f.max > 0 && (f.q != [] || f.ex))
    && (s.pending.Some? ==> s.writeOpen) && (f.writer.Waits? ==> s.readOpen)
    && (None in f.q ==> f.q == [None] && !s.writeOpen)
    && s.delivered <= s.written
    && (f.ex ==> !s.readOpen && s.pending.None?)
    && (!f.ex ==> s.delivered + Values(f.q) + Pending(s) == s.written)
    && (s.eof ==> s.delivered == s.written && !s.writeOpen)
    && (f.max > 0 && f.reader.Waits? ==> s.writeOpen)
  }

  // ----- the operations as functions -----

  /** A value or the mark leaves the queue for the reader. */
  function Delivered<T>(s: State<T>): (State<T>, ReadResult<T>)
    requires s.buf.q != []
  {
    var s' := s.(buf := Fueue.AfterPop(s.buf));
    if s.buf.q[0].Some? then (s'.(delivered := s.delivered + [s.buf.q[0].value]), Got(s.buf.q[0].value))
    else (s'.(eof := true), Eof)
  }

  /** pipe_reader::read; None if the reader has to wait. */
  function AfterRead<T>(s: State<T>): (State<T>, Option<ReadResult<T>>) {
    if !s.writeOpen && s.buf.q == [] then (s.(eof := true), Some(Eof))
    else if s.buf.q == [] then (s.(buf := Fueue.AfterPopEventually(s.buf)), None)
    else var (s', r) := Delivered(s); (s', Some(r))
  }

  /** The continuation of a read that waited; it is passed by if the promise has failed. */
  function AfterReaderRuns<T>(s: State<T>): (State<T>, ReadResult<T>)
    requires s.buf.reader.Failed? || s.buf.ex || s.buf.q != []
  {
    var s1 := s.(buf := s.buf.(reader := Fueue.Idle));
    if s.buf.reader.Failed? || s.buf.ex then (s1, ReadFailed) else Delivered(s1)
  }

  /** pipe_writer::write; false for the broken pipe exception. */
  function AfterWrite<T>(s: State<T>, x: T): (State<T>, bool) {
    if !s.readOpen then (s, false)
    else
      (s.(buf := Fueue.AfterPushEventually(s.buf, Some(x)), written := s.written + [x],
          pending := if Fueue.Full(s.buf) then Some(x) else None), true)
  }

  /** The continuation of a write that waited. */
  function AfterWriterRuns<T>(s: State<T>): State<T>
    requires s.pending.Some?
  {
    s.(buf := Fueue.Pushed(s.buf.(writer := Fueue.Idle), s.pending), pending := None)
  }

  /** ~pipe_reader: a full queue is aborted, and a write that waits fails. */
  function AfterCloseRead<T>(s: State<T>): State<T> {
    if Fueue.Full(s.buf) then
      var f := Fueue.AfterAbort(s.buf);
      s.(buf := if f.writer.Failed? then f.(writer := Fueue.Idle) else f, readOpen := false,
         pending := if f.writer.Failed? then None else s.pending)
    else s.(readOpen := false)
  }

  /** ~pipe_writer: the mark is queued if the queue is empty, to wake a reader. */
  function AfterCloseWrite<T>(s: State<T>): State<T> {
    s.(buf := if s.buf.q == [] then Fueue.AfterPush(s.buf, None) else s.buf, writeOpen := false)
  }

  /** Both ends are gone, and the second of them has deleted the buffer. */
  predicate Deleted<T>(s: State<T>) {
    !s.readOpen && !s.writeOpen
  }

  /** A continuation that is about to run would use the buffer, which is deleted. */
  predicate Dangling<T>(s: State<T>) {
    Deleted(s) && s.buf.reader.Woken?
  }

  datatype Step<T> = Read | ReaderRuns | Write(x: T) | WriterRuns | CloseRead | CloseWrite

  /**
   Each end is used by one fiber, which waits for its last operation before the next, and the writer also before it
   closes; the reader may go at any time.  Nothing is done with a buffer that is deleted: a failed promise only takes its
   exception along.
   */
  ghost predicate Legal<T>(s: State<T>, t: Step<T>) {
    match t
    case Read => s.readOpen && s.buf.reader.Idle?
    case ReaderRuns =>
      s.buf.reader.Failed? || (s.buf.reader.Woken? && !Deleted(s) && (s.buf.ex || s.buf.q != []))
    case Write(_) => s.writeOpen && s.pending.None?
    case WriterRuns => s.buf.writer.Woken? && s.pending.Some?
    case CloseRead => s.readOpen
    case CloseWrite => s.writeOpen && s.pending.None?
  }

  ghost function Next<T>(s: State<T>, t: Step<T>): State<T>
    requires Legal(s, t)
  {
    match t
    case Read => AfterRead(s).0
    case ReaderRuns => AfterReaderRuns(s).0
    case Write(x) => AfterWrite(s, x).0
    case WriterRuns => AfterWriterRuns(s)
    case CloseRead => AfterCloseRead(s)
    case CloseWrite => AfterCloseWrite(s)
  }

  lemma DeliveredKeeps<T>(s: State<T>)
    requires Inv(s) && s.buf.q != [] && s.buf.reader.Idle? && !s.buf.ex
    ensures Inv(Delivered(s).0)
  {
    if s.buf.q[0].Some? {
      ValueTaken(s);
    } else {
      assert s.buf.q == [None] && s.delivered + [] + [] == s.delivered;
    }
  }

  lemma ValueTaken<T>(s: State<T>)
    requires Inv(s) && s.buf.q != [] && s.buf.reader.Idle? && !s.buf.ex && s.buf.q[0].Some?
    ensures Inv(Delivered(s).0)
  {
    var x, v := s.buf.q[0].value, Values(s.buf.q[1..]);
    assert Values(s.buf.q) == [x] + v;
    assert s.delivered + ([x] + v) + Pending(s) == (s.delivered + [x]) + v + Pending(s);
  }

  lemma ReadKeeps<T>(s: State<T>)
    requires Inv(s) && Legal(s, Step<T>.Read)
    ensures Inv(AfterRead(s).0)
  {
    if s.buf.q != [] {
      DeliveredKeeps(s);
    } else if !s.writeOpen {
      assert s.delivered + [] + [] == s.delivered;
    }
  }

  lemma ReaderRunsKeeps<T>(s: State<T>)
    requires Inv(s) && Legal(s, Step<T>.ReaderRuns)
    ensures Inv(AfterReaderRuns(s).0)
  {
    if !s.buf.ex {
      DeliveredKeeps(s.(buf := s.buf.(reader := Fueue.Idle)));
    }
  }

  lemma WriteKeeps<T>(s: State<T>, x: T)
    requires Inv(s) && Legal(s, Write(x))
    ensures Inv(AfterWrite(s, x).0)
  {
    ValuesAppend(s.buf.q, Some(x));
    var v := Values(s.buf.q);
    assert s.readOpen ==> s.delivered + v + Pending(s) == s.delivered + v == s.written;
    assert s.readOpen ==> (s.delivered + v) + [x] == s.delivered + (v + [x]);
  }

  lemma WriterRunsKeeps<T>(s: State<T>)
    requires Inv(s) && Legal(s, Step<T>.WriterRuns)
    ensures Inv(AfterWriterRuns(s))
  {
    ValuesAppend(s.buf.q, s.pending);
    var v := Values(s.buf.q);
    assert (s.delivered + v) + Pending(s) == s.delivered + (v + Pending(s));
  }

  lemma CloseWriteKeeps<T>(s: State<T>)
    requires Inv(s) && Legal(s, Step<T>.CloseWrite)
    ensures Inv(AfterCloseWrite(s))
  {
    ValuesAppend(s.buf.q, None);
  }

  lemma StepKeeps<T>(s: State<T>, t: Step<T>)
    requires Inv(s) && Legal(s, t)
    ensures Inv(Next(s, t)) && Next(s, t).buf.max == s.buf.max && s.delivered <= Next(s, t).delivered
  {
    match t
    case Read => ReadKeeps(s);
    case ReaderRuns => ReaderRunsKeeps(s);
    case Write(x) => WriteKeeps(s, x);
    case WriterRuns => WriterRunsKeeps(s);
    case CloseRead =>
    case CloseWrite => CloseWriteKeeps(s);
  }

  ghost predicate LegalRun<T>(s: State<T>, ts: seq<Step<T>>)
    decreases ts
  {
    ts == [] || (Legal(s, ts[0]) && LegalRun(Next(s, ts[0]), ts[1..]))
  }

  ghost function Run<T>(s: State<T>, ts: seq<Step<T>>): State<T>
    requires LegalRun(s, ts)
    decreases ts
  {
    if ts == [] then s else Run(Next(s, ts[0]), ts[1..])
  }

  lemma {:induction false} RunKeeps<T>(s: State<T>, ts: seq<Step<T>>)
    requires Inv(s) && LegalRun(s, ts)
    ensures Inv(Run(s, ts)) && Run(s, ts).buf.max == s.buf.max && s.delivered <= Run(s, ts).delivered
    decreases ts
  {
    if ts != [] {
      StepKeeps(s, ts[0]);
      RunKeeps(Next(s, ts[0]), ts[1..]);
    }
  }

  /** Over any run: reads get a prefix of the writes, the end comes after all of them, and the buffer stays in bounds. */
  lemma InOrder<T>(size: nat, ts: seq<Step<T>>)
    requires LegalRun(Start<T>(size), ts)
    ensures var s := Run(Start<T>(size), ts);
            && s.delivered <= s.written && |s.buf.q| <= size
            && (s.eof ==> s.delivered == s.written && !s.writeOpen)
            && (!s.buf.ex ==> s.delivered + Values(s.buf.q) + Pending(s) == s.written)
            && (s.buf.ex ==> !s.readOpen)
  {
    RunKeeps(Start<T>(size), ts);
  }

  /** Who waits has something to wait for: the reader an open but empty pipe, the writer a full one that is still read. */
  lemma NobodyForgotten<T>(size: nat, ts: seq<Step<T>>)
    requires LegalRun(Start<T>(size), ts) && size > 0
    ensures var s := Run(Start<T>(size), ts);
            && (s.buf.reader.Waits? ==> s.buf.q == [] && s.writeOpen)
            && (s.buf.writer.Waits? ==> |s.buf.q| == size && s.readOpen && s.writeOpen)
  {
    RunKeeps(Start<T>(size), ts);
  }

  /** A pipe of size 0 has no room for the mark of the end, so its reader is left waiting. */
  lemma SizeZeroForgets<T>()
    ensures var ts := [Step<T>.Read, Step<T>.CloseWrite];
            && LegalRun(Start<T>(0), ts)
            && Run(Start<T>(0), ts).buf.reader.Waits? && !Run(Start<T>(0), ts).writeOpen
  {
    var ts := [Step<T>.Read, Step<T>.CloseWrite];
    var s1 := Next(Start<T>(0), ts[0]);
    assert ts[1..] == [Step<T>.CloseWrite] && ts[1..][1..] == [];
    assert LegalRun(s1, ts[1..]);
  }

  /** Exactly the pipes with room for something never leave a reader waiting for a writer that has gone. */
  lemma ForgetsIffNoRoom<T(!new)>(size: nat)
    ensures size > 0 <==>
            forall ts: seq<Step<T>> | LegalRun(Start<T>(size), ts) ::
              Run(Start<T>(size), ts).buf.reader.Waits? ==> Run(Start<T>(size), ts).writeOpen
  {
    if size > 0 {
      forall ts: seq<Step<T>> | LegalRun(Start<T>(size), ts)
        ensures Run(Start<T>(size), ts).buf.reader.Waits? ==> Run(Start<T>(size), ts).writeOpen
      {
        NobodyForgotten(size, ts);
      }
    } else {
      SizeZeroForgets<T>();
    }
  }

  // ----- when the buffer goes -----

  /** The close that deletes the buffer does so under a continuation exactly if a read is still outstanding then. */
  lemma DanglesIff<T>(s: State<T>, t: Step<T>)
    requires Inv(s) && Legal(s, t) && !Deleted(s)
    ensures Dangling(Next(s, t)) <==> s.buf.max > 0 && Deleted(Next(s, t)) && !s.buf.reader.Idle?
  {
    StepKeeps(s, t);
  }

  /** A read of an empty pipe, the end of the reader, and that of the writer. */
  lemma LeftReading<T>(size: nat)
    requires size > 0
    ensures var ts := [Step<T>.Read, Step<T>.CloseRead, Step<T>.CloseWrite];
            LegalRun(Start<T>(size), ts) && Dangling(Run(Start<T>(size), ts))
  {
    var ts := [Step<T>.Read, Step<T>.CloseRead, Step<T>.CloseWrite];
    var s1 := Next(Start<T>(size), Step<T>.Read);
    var s2 := Next(s1, Step<T>.CloseRead);
    assert ts[1..] == [Step<T>.CloseRead, Step<T>.CloseWrite] && ts[1..][1..] == [Step<T>.CloseWrite];
    assert [Step<T>.CloseWrite][1..] == [] && LegalRun(Next(s2, Step<T>.CloseWrite), []);
    assert LegalRun(s2, ts[1..][1..]) && Dangling(Run(s2, ts[1..][1..]));
    assert LegalRun(s1, ts[1..]) && Run(s1, ts[1..]) == Run(s2, ts[1..][1..]);
  }

  /** The reader is never destroyed while a read of its own is outstanding. */
  ghost predicate Patient<T>(s: State<T>, ts: seq<Step<T>>)
    requires LegalRun(s, ts)
    decreases ts
  {
    ts != [] ==> (ts[0].CloseRead? ==> s.buf.reader.Idle?) && Patient(Next(s, ts[0]), ts[1..])
  }

  lemma {:induction false} PatientKeeps<T>(s: State<T>, ts: seq<Step<T>>)
    requires Inv(s) && LegalRun(s, ts) && Patient(s, ts) && (!s.readOpen ==> s.buf.reader.Idle?)
    ensures !Run(s, ts).readOpen ==> Run(s, ts).buf.reader.Idle?
    decreases ts
  {
    if ts != [] {
      StepKeeps(s, ts[0]);
      PatientKeeps(Next(s, ts[0]), ts[1..]);
    }
  }

  /** A reader that waits for its reads before it goes never leaves a continuation behind to use the deleted buffer. */
  lemma PatientNeverDangles<T>(size: nat, ts: seq<Step<T>>)
    requires LegalRun(Start<T>(size), ts) && Patient(Start<T>(size), ts)
    ensures !Dangling(Run(Start<T>(size), ts))
  {
    PatientKeeps(Start<T>(size), ts);
  }

  /** Some continuation of the run comes to use the deleted buffer. */
  ghost predicate MayDangle<T(!new)>(s: State<T>) {
    exists ts: seq<Step<T>> :: LegalRun(s, ts) && Dangling(Run(s, ts))
  }

  /** Once the reader is gone: the deleted buffer may come to be used exactly if a read is still outstanding. */
  lemma MayDangleIff<T(!new)>(s: State<T>)
    requires Inv(s) && !s.readOpen
    ensures MayDangle(s) <==> s.buf.max > 0 && !s.buf.reader.Idle?
  {
    if s.buf.max > 0 && !s.buf.reader.Idle? {
      var ts := LeaveAtOnce(s);
      assert LegalRun(s, ts) && Dangling(Run(s, ts));
    } else {
      forall ts: seq<Step<T>> | LegalRun(s, ts) ensures !Dangling(Run(s, ts)) {
        RunKeeps(s, ts);
        if s.buf.reader.Idle? {
          StaysIdle(s, ts);
        }
      }
    }
  }

  /** The writer finishes what it has under way, and goes. */
  lemma LeaveAtOnce<T>(s: State<T>) returns (ts: seq<Step<T>>)
    requires Inv(s) && !s.readOpen && s.buf.max > 0 && !s.buf.reader.Idle?
    ensures LegalRun(s, ts) && Dangling(Run(s, ts))
  {
    if !s.writeOpen {
      ts := [];
    } else if s.pending.None? {
      ts := [CloseWrite];
      StepKeeps(s, Step<T>.CloseWrite);
      assert LegalRun(Next(s, ts[0]), ts[1..]);
    } else {
      StepKeeps(s, Step<T>.WriterRuns);
      var s1 := Next(s, Step<T>.WriterRuns);
      StepKeeps(s1, Step<T>.CloseWrite);
      ts := [WriterRuns, CloseWrite];
      assert ts[1..] == [Step<T>.CloseWrite] && ts[1..][1..] == [];
      assert LegalRun(Next(s1, ts[1]), ts[1..][1..]);
      assert LegalRun(s1, ts[1..]);
    }
  }

  lemma {:induction false} StaysIdle<T>(s: State<T>, ts: seq<Step<T>>)
    requires LegalRun(s, ts) && !s.readOpen && s.buf.reader.Idle?
    ensures Run(s, ts).buf.reader.Idle?
    decreases ts
  {
    if ts != [] {
      StaysIdle(Next(s, ts[0]), ts[1..]);
    }
  }

  // ----- the buffer the two ends share -----

  class PipeBuffer<T> {
    const buf: Fueue.Queue<Option<T>>
    var readOpen: bool
    var writeOpen: bool
    var pending: Option<T> // held by the continuation of push_eventually
    ghost var written: seq<T>
    ghost var delivered: seq<T>
    ghost var eof: bool

    ghost function Now(): State<T>
      reads this, buf
    {
      State(buf.Now(), readOpen, writeOpen, pending, written, delivered, eof)
    }

    ghost predicate Valid()
      reads this, buf
    {
      Inv(Now())
    }

    constructor (size: nat)
      ensures Valid() && fresh(buf) && Now() == Start(size)
    {
      buf := new Fueue.Queue<Option<T>>(size);
      readOpen, writeOpen, pending := true, true, None;
      written, delivered, eof := [], [], false;
    }

    method Note(x: Option<T>) returns (r: ReadResult<T>)
      modifies this`delivered, this`eof
      ensures delivered == if x.Some? then old(delivered) + [x.value] else old(delivered)
      ensures eof == (old(eof) || x.None?)
      ensures r == if x.Some? then Got(x.value) else Eof
    {
      if x.Some? {
        delivered := delivered + [x.value];
        r := Got(x.value);
      } else {
        eof := true;
        r := Eof;
      }
    }

    method Read() returns (r: Option<ReadResult<T>>)
      requires Valid() && Legal(Now(), Step<T>.Read)
      modifies this`delivered, this`eof, buf
      ensures Valid() && (Now(), r) == AfterRead(old(Now()))
    {
      ReadKeeps(Now());
      if !writeOpen && buf.q == [] {
        eof := true;
        return Some(Eof);
      }
      var x := buf.PopEventually();
      if x.None? {
        return None;
      }
      var y := Note(x.value);
      r := Some(y);
    }

    method RunReader() returns (r: ReadResult<T>)
      requires Valid() && Legal(Now(), Step<T>.ReaderRuns)
      modifies this`delivered, this`eof, buf
      ensures Valid() && (Now(), r) == AfterReaderRuns(old(Now()))
    {
      ReaderRunsKeeps(Now());
      var failed := buf.reader == Fueue.Failed;
      buf.reader := Fueue.Idle;
      if failed || buf.ex {
        return ReadFailed;
      }
      var x := buf.Pop();
      r := Note(x);
    }

    method Write(x: T) returns (ok: bool)
      requires Valid() && Legal(Now(), Step.Write(x))
      modifies this, buf
      ensures Valid() && (Now(), ok) == AfterWrite(old(Now()), x)
    {
      WriteKeeps(Now(), x);
      if !readOpen {
        return false;
      }
      var done := buf.PushEventually(Some(x));
      if !done {
        pending := Some(x);
      }
      written := written + [x];
      ok := true;
    }

    method RunWriter()
      requires Valid() && Legal(Now(), Step<T>.WriterRuns)
      modifies this`pending, buf
      ensures Valid() && Now() == AfterWriterRuns(old(Now()))
    {
      WriterRunsKeeps(Now());
      buf.writer := Fueue.Idle;
      buf.ForcePush(pending);
      pending := None;
    }

    /** True if the buffer is to be deleted. */
    method CloseRead() returns (last: bool)
      requires Valid() && Legal(Now(), Step<T>.CloseRead)
      modifies this, buf
      ensures Valid() && Now() == AfterCloseRead(old(Now())) && last == Deleted(Now())
      ensures last ==> (Dangling(Now()) <==> buf.max > 0 && old(buf.reader) != Fueue.Idle)
    {
      StepKeeps(Now(), Step<T>.CloseRead);
      if !writeOpen {
        DanglesIff(Now(), Step<T>.CloseRead);
      }
      if |buf.q| >= buf.max {
        buf.Abort();
        if buf.writer == Fueue.Failed {
          buf.writer := Fueue.Idle;
          pending := None;
        }
      }
      readOpen := false;
      last := !writeOpen;
    }

    method CloseWrite() returns (last: bool)
      requires Valid() && Legal(Now(), Step<T>.CloseWrite)
      modifies this, buf
      ensures Valid() && Now() == AfterCloseWrite(old(Now())) && last == Deleted(Now())
      ensures last ==> (Dangling(Now()) <==> buf.max > 0 && old(buf.reader) != Fueue.Idle)
    {
      CloseWriteKeeps(Now());
      DanglesIff(Now(), Step<T>.CloseWrite);
      if buf.q == [] {
        var _ := buf.Push(None);
      }
      writeOpen := false;
      last := !readOpen;
    }
  }
}
