/** The self-growing ring deque of src/rueue.h. */
module Rueue {
  import opened Bits
  import opened Wrappers

  const M: nat := 0x1_0000_0000_0000_0000

  /** Addition on size_t. */
  function U64(x: nat): (r: nat)
    ensures r < M
  {
    Wrap(x, M)
  }

  /** Subtraction on size_t. */
  function Sub(x: nat, y: nat): (r: nat)
    requires y <= M
    ensures r < M
  {
    U64(x + (M - y))
  }

  /** The largest power of two a size_t can hold. */
  const HALF: nat := 0x8000_0000_0000_0000

  lemma WordSize()
    ensures Pow2(64) == M && Pow2(63) == HALF
  {
    assert Pow2(8) == 256;
    Pow2Add(8, 8);
    Pow2Add(16, 16);
    Pow2Add(32, 32);
  }

  /** Masking a wrapped index finds the slot of the true one in a ring of 2^k slots. */
  lemma MaskedIndex(x: nat, k: nat)
    requires k <= 64
    ensures And(U64(x), Pow2(k) - 1) == Wrap(x, Pow2(k))
  {
    MaskIsMod(U64(x), k);
    WrapIsMod(x, M);
    WrapIsMod(x, Pow2(k));
    WordSize();
    Pow2Add(k, 64 - k);
    ModOfMod(x, Pow2(k), Pow2(64 - k));
  }

  /** Reducing an index modulo 2^64 does not change its slot. */
  lemma SlotOfWrapped(x: nat, y: nat, k: nat)
    requires k <= 64 && U64(x) == U64(y)
    ensures Wrap(x, Pow2(k)) == Wrap(y, Pow2(k))
  {
    MaskedIndex(x, k);
    MaskedIndex(y, k);
  }

  lemma DistinctSlots(base: nat, i: nat, j: nat, cap: nat)
    requires i < cap && j < cap && i != j
    ensures Wrap(base + i, cap) != Wrap(base + j, cap)
  {
    WrapIsMod(base + i, cap);
    WrapIsMod(base + j, cap);
    if Wrap(base + i, cap) == Wrap(base + j, cap) {
      ModInjective(base + i, base + j, cap);
    }
  }

  lemma U64Step(x: nat, y: nat)
    ensures U64(U64(x) + y) == U64(x + y)
  {
    WrapIsMod(x, M);
    WrapIsMod(x % M + y, M);
    WrapIsMod(x + y, M);
    ModShift(x % M + y, M, x / M);
  }

  /** The distance between two wrapped indices less than 2^64 apart is the true one. */
  lemma WrappedGap(base: nat, j: nat, n: nat)
    requires j <= n < j + M
    ensures Sub(U64(base + n), U64(base + j)) == n - j
  {
    var x, y := base + n, base + j;
    WrapIsMod(x, M);
    WrapIsMod(y, M);
    var z := x % M + (M - y % M);
    WrapIsMod(z, M);
    assert x == M * (x / M) + x % M && y == M * (y / M) + y % M;
    assert z == M * (y / M - x / M + 1) + (x - y);
    ModUnique(z, M, y / M - x / M + 1, n - j);
  }

  /** Iterators compare as the positions they stand for, wherever beg has wrapped to. */
  lemma IteratorOrder(beg: nat, i: nat, j: nat)
    requires beg < M && i < M && j < M
    ensures Sub(U64(beg + i), beg) < Sub(U64(beg + j), beg) <==> i < j
  {
    U64Step(beg, 0);
    WrapIsMod(beg, M);
    WrappedGap(beg, 0, i);
    WrappedGap(beg, 0, j);
  }

  lemma StepBack(base: nat, n: nat, m: nat)
    requires m <= n && m <= M
    ensures Sub(U64(base + n), m) == U64(base + (n - m))
  {
    U64Step(base + n, M - m);
    WrapIsMod(base + n + (M - m), M);
    WrapIsMod(base + (n - m), M);
    ModShift(base + (n - m), M, 1);
  }

  /** The index n places in front of beg. */
  lemma FrontIndex(beg: nat, n: nat)
    requires beg < M && n <= M
    ensures U64(Sub(beg, n) + n) == beg
  {
    U64Step(beg + (M - n), n);
    WrapIsMod(beg + M, M);
    ModShift(beg, M, 1);
  }

  /** The index of element i of the old queue, when n slots have joined before oldBeg. */
  lemma FrontPositions(beg: nat, n: nat, oldBeg: nat, i: nat)
    requires beg < M && n <= M && U64(beg + n) == oldBeg
    ensures U64(oldBeg + i) == U64(beg + (n + i))
    ensures Sub(U64(oldBeg + i), n) == U64(beg + i)
  {
    U64Step(beg + n, i);
    StepBack(beg, n + i, n);
  }

  /** Wrapped indices less than 2^64 apart are equal only if the true ones are. */
  lemma U64Injective(base: nat, i: nat, j: nat)
    requires i < M && j < M && U64(base + i) == U64(base + j)
    ensures i == j
  {
    WrapIsMod(base + i, M);
    WrapIsMod(base + j, M);
    ModInjective(base + i, base + j, M);
  }

  /** Once beg has moved on by one, position i has another index. */
  lemma ShiftedBy(beg: nat, i: nat)
    requires i < HALF
    ensures U64(beg + (i + 1)) != U64(beg + i)
  {
    if U64(beg + (i + 1)) == U64(beg + i) {
      U64Injective(beg, i + 1, i);
    }
  }

  /** operator++ of an iterator that is n steps from base. */
  method Inc(idx: nat, ghost base: nat, ghost n: nat) returns (next: nat)
    requires idx == U64(base + n)
    ensures next == U64(base + (n + 1))
  {
    U64Step(base + n, 1);
    next := U64(idx + 1);
  }

  /** operator-- */
  method Dec(idx: nat, ghost base: nat, ghost n: nat) returns (next: nat)
    requires n > 0 && idx == U64(base + n)
    ensures next == U64(base + (n - 1))
  {
    StepBack(base, n, 1);
    next := Sub(idx, 1);
  }

  /** count_leading_zero, which counts the bits of num. */
  method CountBits(num: nat) returns (c: nat)
    ensures c == BitLength(num)
  {
    var n := num;
    c := 0;
    while n != 0
      invariant c + BitLength(n) == BitLength(num)
    {
      c := c + 1;
      n := n / 2;
    }
  }

  /** The least power of two that is at least num. */
  method CountCeilPower(num: nat) returns (p: nat, ghost k: nat)
    requires 1 <= num <= HALF
    ensures p == Pow2(k) && num <= p && k <= 63
    ensures forall j: nat :: num <= Pow2(j) ==> p <= Pow2(j)
  {
    var c := CountBits(num - 1);
    k := c;
    p := U64(Pow2(c));
    BitLengthBounds(num - 1);
    WordSize();
    BitLengthAtMost(num - 1, 63);
    Pow2Monotone(c, 63);
    forall j: nat | num <= Pow2(j) ensures p <= Pow2(j) {
      BitLengthAtMost(num - 1, j);
      Pow2Monotone(c, j);
    }
  }

  method SizePolicy(count: nat) returns (p: nat, ghost k: nat)
    requires count <= HALF
    ensures p == Pow2(k) && 5 <= k <= 63 && count <= p && 32 <= p
    ensures forall j: nat :: count <= Pow2(j) && 32 <= Pow2(j) ==> p <= Pow2(j)
  {
    assert Pow2(5) == 32;
    if count < 32 {
      p, k := 32, 5;
    } else {
      p, k := CountCeilPower(count);
      if k < 5 {
        Pow2Monotone(k, 4);
      }
    }
  }

  class Rueue<T(0)> {
    const maxSize: nat // (2^64 - 1) / sizeof(T)
    var data: array<T>
    var beg: nat
    var end: nat
    var cap: nat
    ghost var log: nat         // cap == 2^log unless 0
    ghost var contents: seq<T> // the queue
    ghost var pushes: nat      // elements pushed so far
    ghost var moved: nat       // elements moved by Realloc so far

    ghost predicate Valid()
      reads this, data
    {
      && data.Length == cap && beg < M && maxSize <= HALF
      && (cap > 0 ==> 5 <= log <= 63 && cap == Pow2(log))
      && |contents| <= cap && end == U64(beg + |contents|)
      && Holds(data[..], beg, contents)
    }

    ghost function Counts(): Ledger
      reads this
    {
      Ledger(|contents|, cap, pushes, moved)
    }

    constructor (maxSize: nat)
      requires maxSize <= HALF
      ensures Valid() && fresh(data) && contents == [] && cap == 0
      ensures Counts() == Ledger(0, 0, 0, 0) && this.maxSize == maxSize
    {
      this.maxSize := maxSize;
      data := new T[0];
      beg, end, cap, log := 0, 0, 0, 0;
      contents := [];
      pushes, moved := 0, 0;
    }

    lemma SizeIs()
      requires Valid()
      ensures Sub(end, beg) == |contents| <= cap <= HALF
    {
      WordSize();
      if cap > 0 {
        Pow2Monotone(log, 63);
      }
      WrappedGap(beg, 0, |contents|);
    }

    function Mask(idx: nat): nat
      reads this
      requires cap > 0
    {
      And(idx, cap - 1)
    }

    /** The slot of queue position i, for any wrapped way of writing its index. */
    lemma SlotIs(i: nat)
      requires Valid() && cap > 0
      ensures Mask(U64(beg + i)) == Wrap(beg + i, cap) < cap
    {
      MaskedIndex(beg + i, log);
    }

    method Size() returns (n: nat)
      requires Valid()
      ensures n == |contents|
    {
      SizeIs();
      n := Sub(end, beg);
    }

    /** The element an index designates; `i` is its position. */
    function Deref(idx: nat, ghost i: nat): (x: T)
      requires Valid() && i < |contents| && idx == U64(beg + i)
      reads this, data
      ensures x == contents[i]
    {
      SlotIs(i);
      HoldsEach(data[..], beg, contents);
      data[Mask(idx)]
    }

    /** The copy loop of realloc. */
    method CopyOut(newData: array<T>) returns (d: nat)
      requires Valid() && newData.Length >= |contents| && newData != data
      modifies newData
      ensures d == |contents| && newData[..d] == contents
    {
      var s := beg;
      d := 0;
      SizeIs();
      while s != end
        invariant 0 <= d <= |contents| && s == U64(beg + d)
        invariant newData[..d] == contents[..d]
        decreases |contents| - d
      {
        newData[d] := Deref(s, d);
        s := Inc(s, beg, d);
        d := d + 1;
      }
      U64Injective(beg, d, |contents|);
    }

    /** None of the old storage is reused; false stands for the exception on an oversized request. */
    method Realloc(count: nat) returns (ok: bool)
      requires Valid() && |contents| <= count
      modifies this
      ensures Valid() && ok == (count <= maxSize)
      ensures contents == old(contents) && pushes == old(pushes)
      ensures !ok ==> unchanged(this)
      ensures ok ==> fresh(data) && cap >= count && cap >= 32 && beg == 0 && moved == old(moved) + |contents|
      ensures ok ==> forall j: nat :: count <= Pow2(j) && 32 <= Pow2(j) ==> cap <= Pow2(j)
    {
      if maxSize < count {
        return false;
      }
      var n, k := SizePolicy(count);
      var newData := new T[n];
      var d := CopyOut(newData);
      data, cap, log := newData, n, k;
      beg, end := 0, d;
      moved := moved + d;
      HoldsFromZero(data[..], contents);
      SizeIs();
      ok := true;
    }

    /** reserve: an oversized request fails before anything changes. */
    method Reserve(count: nat) returns (ok: bool)
      requires Valid()
      modifies this
      ensures Valid() && ok == (count <= old(cap) || count <= maxSize)
      ensures contents == old(contents) && pushes == old(pushes)
      ensures !ok || count <= old(cap) ==> unchanged(this)
      ensures ok && count > old(cap) ==> fresh(data) && moved == old(moved) + |contents| && cap >= 32
      ensures ok ==> cap >= count
      ensures ok && count > old(cap) ==> forall j: nat :: count <= Pow2(j) && 32 <= Pow2(j) ==> cap <= Pow2(j)
    {
      if cap >= count {
        return true;
      }
      ok := Realloc(count);
    }

    /** May fail only when full; room for one more element otherwise, in a ring of twice the size. */
    method MayRealloc() returns (ok: bool)
      requires Valid()
      modifies this
      ensures Valid() && contents == old(contents) && pushes == old(pushes)
      ensures ok == (|contents| < old(cap) || |contents| < maxSize)
      ensures !ok || |contents| < old(cap) ==> unchanged(this)
      ensures ok ==> |contents| < cap && (data == old(data) || fresh(data))
      ensures ok && |contents| == old(cap) ==> cap == Doubled(old(cap)) && moved == old(moved) + |contents|
    {
      var n := Size();
      if n + 1 > cap {
        ghost var was := log;
        ok := Reserve(n + 1);
        if ok {
          Growth(old(cap), was, cap, log);
        }
      } else {
        ok := true;
      }
    }

    method PushBack(val: T) returns (ok: bool)
      requires Valid()
      modifies this, data
      ensures Valid() && ok == (old(|contents| < cap || |contents| < maxSize))
      ensures contents == if ok then old(contents) + [val] else old(contents)
      ensures Counts() == AfterPush(old(Counts()), maxSize)
      ensures data == old(data) || fresh(data)
    {
      ok := MayRealloc();
      if ok {
        StoreBack(val);
        pushes := pushes + 1;
      }
    }

    method StoreBack(val: T)
      requires Valid() && |contents| < cap
      modifies data, this`end, this`contents
      ensures Valid() && contents == old(contents) + [val]
    {
      var b := ExtendBack(1);
      Store(b, |contents| - 1, val);
    }

    /** The n slots behind the last element join the queue with whatever they hold; the old end is returned. */
    method ExtendBack(n: nat) returns (b: nat)
      requires Valid() && n > 0 && |contents| + n <= cap
      modifies this`end, this`contents
      ensures Valid() && |contents| == |old(contents)| + n && contents[..|old(contents)|] == old(contents)
      ensures b == U64(beg + |old(contents)|)
    {
      b := end;
      Widen(data[..], beg, contents, n, log);
      U64Step(beg + |contents|, n);
      end := U64(end + n);
      contents := contents + Window(data[..], beg + |contents|, n);
    }

    method PushFront(val: T) returns (ok: bool)
      requires Valid()
      modifies this, data
      ensures Valid() && ok == (old(|contents| < cap || |contents| < maxSize))
      ensures contents == if ok then [val] + old(contents) else old(contents)
      ensures Counts() == AfterPush(old(Counts()), maxSize)
      ensures data == old(data) || fresh(data)
    {
      ok := MayRealloc();
      if ok {
        StoreFront(val);
        pushes := pushes + 1;
      }
    }

    method StoreFront(val: T)
      requires Valid() && |contents| < cap
      modifies data, this`beg, this`contents
      ensures Valid() && contents == [val] + old(contents)
    {
      ExtendFront(1);
      U64Step(beg, 0);
      assert contents == [contents[0]] + contents[1..];
      Store(beg, 0, val);
    }

    /** The n slots before the first element join the queue with whatever they hold. */
    method ExtendFront(n: nat)
      requires Valid() && n > 0 && |contents| + n <= cap && n < M
      modifies this`beg, this`contents
      ensures Valid() && |contents| == n + |old(contents)| && contents[n..] == old(contents)
      ensures beg == Sub(old(beg), n) && U64(beg + n) == old(beg)
    {
      var f := Sub(beg, n);
      FrontIndex(beg, n);
      U64Step(beg, 0);
      WindowHolds(data[..], f, n);
      HoldsConcat(data[..], f, n, beg, Window(data[..], f, n), contents, log);
      U64Step(f + n, |contents|);
      beg := f;
      contents := Window(data[..], f, n) + contents;
    }

    method PopBack()
      requires Valid()
      modifies this
      ensures Valid() && data == old(data)
      ensures contents == if old(contents) == [] then [] else old(contents)[..|old(contents)| - 1]
      ensures Counts() == AfterPop(old(Counts()))
    {
      SizeIs();
      if beg != end {
        StepBack(beg, |contents|, 1);
        end := Sub(end, 1);
        contents := contents[..|contents| - 1];
      }
    }

    method PopFront()
      requires Valid()
      modifies this
      ensures Valid() && data == old(data)
      ensures contents == if old(contents) == [] then [] else old(contents)[1..]
      ensures Counts() == AfterPop(old(Counts()))
    {
      SizeIs();
      if beg != end {
        DropFront(U64(beg + 1), 1);
      }
    }

    /** beg moves to index b, n places on. */
    method DropFront(b: nat, ghost n: nat)
      requires Valid() && 0 < n <= |contents| && b == U64(beg + n)
      modifies this`beg, this`contents
      ensures Valid() && contents == old(contents)[n..] && beg == b
    {
      U64Step(b, 0);
      U64Step(beg + n, 0);
      Rebase(data[..], beg, b, n, contents, log);
      U64Step(beg + n, |contents| - n);
      beg := b;
      contents := contents[n..];
    }

    /** operator[]: None stands for the out_of_range exception. */
    method At(idx: nat) returns (x: Option<T>)
      requires Valid() && idx < M
      ensures x == if idx < |contents| then Some(contents[idx]) else None
    {
      var n := Size();
      if idx >= n {
        return None;
      }
      x := Some(Deref(U64(beg + idx), idx));
    }

    /** Assignment through an iterator: `*it = x` for the iterator at position q. */
    method Store(idx: nat, ghost q: nat, x: T)
      requires Valid() && q < |contents| && idx == U64(beg + q)
      modifies data, this`contents
      ensures Valid() && contents == old(contents)[q := x]
    {
      SlotIs(q);
      WriteAt(data[..], beg, contents, q, x);
      data[Mask(idx)] := x;
      contents := contents[q := x];
    }

    /** `*--to = *--from` */
    method MoveDown(from: nat, ghost p: nat, to: nat, ghost q: nat) returns (f: nat, t: nat)
      requires Valid() && 0 < p <= q <= |contents| && from == U64(beg + p) && to == U64(beg + q)
      modifies data, this`contents
      ensures Valid() && contents == old(contents)[q - 1 := old(contents)[p - 1]]
      ensures f == U64(beg + (p - 1)) && t == U64(beg + (q - 1))
    {
      f := Dec(from, beg, p);
      t := Dec(to, beg, q);
      Store(t, q - 1, Deref(f, p - 1));
    }

    /** `*to++ = *from++` */
    method MoveUp(from: nat, ghost p: nat, to: nat, ghost q: nat) returns (f: nat, t: nat)
      requires Valid() && q <= p < |contents| && from == U64(beg + p) && to == U64(beg + q)
      modifies data, this`contents
      ensures Valid() && contents == old(contents)[q := old(contents)[p]]
      ensures f == U64(beg + (p + 1)) && t == U64(beg + (q + 1))
    {
      Store(to, q, Deref(from, p));
      f := Inc(from, beg, p);
      t := Inc(to, beg, q);
    }

    /** std::move_backward(begin(), first, last). */
    method MoveBackward(first: nat, ghost i: nat, last: nat, ghost j: nat) returns (d: nat)
      requires Valid() && i <= j <= |contents| && first == U64(beg + i) && last == U64(beg + j)
      modifies data, this`contents
      ensures Valid() && contents == MovedDown(old(contents), i, j, 0) && d == U64(beg + (j - i))
    {
      var s := first;
      ghost var p: nat, e: nat := i, j;
      d := last;
      SizeIs();
      while s != beg
        invariant p <= i && e == p + (j - i) && s == U64(beg + p) && d == U64(beg + e)
        invariant Valid() && contents == MovedDown(old(contents), i, j, p)
        decreases p
      {
        s, d := MoveDown(s, p, d, e);
        p, e := p - 1, e - 1;
      }
      U64Injective(beg, p, 0);
    }

    /** std::move(first, last, to), for to at or before first. */
    method MoveForward(to: nat, ghost i: nat, first: nat, ghost j: nat, last: nat, ghost n: nat) returns (d: nat)
      requires Valid() && i <= j <= n <= |contents|
      requires to == U64(beg + i) && first == U64(beg + j) && last == U64(beg + n)
      modifies data, this`contents
      ensures Valid() && contents == MovedUp(old(contents), i, j, n)
      ensures d == U64(beg + (n - (j - i)))
    {
      var s := first;
      ghost var q: nat, e: nat := j, i;
      d := to;
      SizeIs();
      while s != last
        invariant j <= q <= n && e + (j - i) == q && s == U64(beg + q) && d == U64(beg + e)
        invariant Valid() && contents == MovedUp(old(contents), i, j, q)
        decreases n - q
      {
        s, d := MoveUp(s, q, d, e);
        q, e := q + 1, e + 1;
      }
      U64Injective(beg, q, n);
    }

    method EraseFront(first: nat, ghost i: nat, last: nat, ghost j: nat)
      requires Valid() && i < j <= |contents| && first == U64(beg + i) && last == U64(beg + j)
      modifies data, this`beg, this`contents
      ensures Valid() && contents == old(contents)[..i] + old(contents)[j..]
      ensures last == U64(beg + i)
    {
      var b := MoveBackward(first, i, last, j);
      MovedDownIs(old(contents), i, j, 0);
      U64Step(beg + (j - i), i);
      DropFront(b, j - i);
    }

    method EraseBack(first: nat, ghost i: nat, last: nat, ghost j: nat)
      requires Valid() && i < j <= |contents| && first == U64(beg + i) && last == U64(beg + j)
      modifies data, this`end, this`contents
      ensures Valid() && contents == old(contents)[..i] + old(contents)[j..]
    {
      var e := MoveForward(first, i, last, j, end, |contents|);
      MovedUpIs(old(contents), i, j, |contents|);
      HoldsPrefix(data[..], beg, contents, |contents| - (j - i));
      end := e;
      contents := contents[..|contents| - (j - i)];
    }

    /**
     erase(first, last): the shorter side is shifted over the gap.  None stands for the out_of_range exception; the
     iterator returned is again at position i.
     */
    method Erase(first: nat, ghost i: nat, last: nat, ghost j: nat) returns (r: Option<nat>)
      requires Valid() && i <= j < M && first == U64(beg + i) && last == U64(beg + j)
      modifies this, data
      ensures Valid() && data == old(data)
      ensures r.None? <==> i != j && j > |old(contents)|
      ensures contents == if r.None? || i == j then old(contents) else old(contents)[..i] + old(contents)[j..]
      ensures r.Some? ==> r.value == U64(beg + i)
    {
      if first == last {
        U64Injective(beg, i, j);
        return Some(last);
      }
      var k := FromBegin(last, j);
      var n := Size();
      if k > n {
        return None;
      }
      var before := FromBegin(first, i);
      var after := ToEnd(last, j);
      if before < after {
        EraseFront(first, i, last, j);
        r := Some(last);
      } else {
        EraseBack(first, i, last, j);
        r := Some(first);
      }
    }

    /**
     erase(where).  The contents are right in both branches; the iterator handed back designates position i again only
     when the back was shifted, since the front branch advances beg and leaves the iterator's index alone.
     */
    method EraseAt(where: nat, ghost i: nat) returns (r: Option<nat>)
      requires Valid() && i < M && where == U64(beg + i)
      modifies this, data
      ensures Valid() && data == old(data)
      ensures r.None? <==> i >= |old(contents)|
      ensures contents == if r.None? then old(contents) else old(contents)[..i] + old(contents)[i + 1..]
      ensures r.Some? ==> (r.value == U64(beg + i) <==> i >= |old(contents)| - i)
    {
      var before := FromBegin(where, i);
      var n := Size();
      if before >= n {
        return None;
      }
      var after := ToEnd(where, i);
      r := Some(where);
      var next := Inc(where, beg, i);
      if before < after {
        SizeIs();
        ShiftedBy(beg, i);
        EraseFront(where, i, next, i + 1);
      } else {
        EraseBack(where, i, next, i + 1);
      }
    }

    /** std::distance(begin(), idx) */
    method FromBegin(idx: nat, ghost i: nat) returns (k: nat)
      requires Valid() && i < M && idx == U64(beg + i)
      ensures k == i
    {
      WrappedGap(beg, 0, i);
      SizeIs();
      WrappedGap(beg, 0, |contents|);
      k := Sub(idx, beg);
    }

    /** std::distance(idx, end()) */
    method ToEnd(idx: nat, ghost i: nat) returns (k: nat)
      requires Valid() && i <= |contents| && idx == U64(beg + i)
      ensures k == |contents| - i
    {
      SizeIs();
      WrappedGap(beg, i, |contents|);
      k := Sub(end, idx);
    }

    /** std::copy and std::uninitialized_copy into the positions from q on. */
    method Fill(idx: nat, ghost q: nat, xs: seq<T>)
      requires Valid() && q + |xs| <= |contents| && idx == U64(beg + q)
      modifies data, this`contents
      ensures Valid() && contents == Overwritten(old(contents), q, xs)
    {
      var t, k := idx, 0;
      assert contents == Overwritten(contents, q, xs[..0]);
      while k < |xs|
        invariant k <= |xs| && t == U64(beg + (q + k))
        invariant Valid() && contents == Overwritten(old(contents), q, xs[..k])
      {
        OverwrittenStep(old(contents), q, xs, k);
        Store(t, q + k, xs[k]);
        t := Inc(t, beg, q + k);
        k := k + 1;
      }
      assert xs[..k] == xs;
    }

    method Read(first: nat, ghost i: nat, last: nat, ghost j: nat) returns (xs: seq<T>)
      requires Valid() && i <= j <= |contents| && first == U64(beg + i) && last == U64(beg + j)
      ensures xs == contents[i..j]
    {
      var s := first;
      ghost var p: nat := i;
      xs := [];
      SizeIs();
      while s != last
        invariant i <= p <= j && s == U64(beg + p) && xs == contents[i..p]
        decreases j - p
      {
        xs := xs + [Deref(s, p)];
        s := Inc(s, beg, p);
        p := p + 1;
      }
      U64Injective(beg, p, j);
    }

    /** std::rotate, by way of a buffer for the first part. */
    method Rotate(first: nat, ghost i: nat, middle: nat, ghost j: nat, last: nat, ghost n: nat)
      requires Valid() && i <= j <= n <= |contents|
      requires first == U64(beg + i) && middle == U64(beg + j) && last == U64(beg + n)
      modifies data, this`contents
      ensures Valid() && contents == Rotated(old(contents), i, j, n)
    {
      ghost var o := contents;
      var xs := Read(first, i, middle, j);
      var d := ShiftUp(first, i, middle, j, last, n);
      ghost var c := contents;
      RotatedIs(o, c, i, j, n);
      Fill(d, n - (j - i), xs);
      assert contents == Overwritten(c, n - (j - i), xs);
    }

    /** The second part moved up over the first. */
    method ShiftUp(first: nat, ghost i: nat, middle: nat, ghost j: nat, last: nat, ghost n: nat) returns (d: nat)
      requires Valid() && i <= j <= n <= |contents|
      requires first == U64(beg + i) && middle == U64(beg + j) && last == U64(beg + n)
      modifies data, this`contents
      ensures Valid() && |contents| == |old(contents)| && d == U64(beg + (n - (j - i)))
      ensures contents[..n - (j - i)] == old(contents)[..i] + old(contents)[j..n] && contents[n..] == old(contents)[n..]
    {
      d := MoveForward(first, i, middle, j, last, n);
      MovedUpIs(old(contents), i, j, n);
    }

    /** The new elements, written before the old front, are rotated into place. */
    method FillFront(oldBeg: nat, pos: nat, ghost i: nat, xs: seq<T>)
      requires Valid() && |xs| + i <= |contents| && oldBeg == U64(beg + |xs|) && pos == U64(beg + (|xs| + i))
      modifies data, this`contents
      ensures Valid() && contents == Rotated(Overwritten(old(contents), 0, xs), 0, |xs|, |xs| + i)
    {
      var first := beg;
      WrapIsMod(beg, M);
      assert first == U64(beg + 0);
      Fill(first, 0, xs);
      Rotate(first, 0, oldBeg, |xs|, pos, |xs| + i);
    }

    method InsertFront(pos: nat, ghost i: nat, xs: seq<T>) returns (r: nat)
      requires Valid() && i <= |contents| && pos == U64(beg + i) && 0 < |xs| && |contents| + |xs| <= cap
      modifies data, this`beg, this`contents
      ensures Valid() && contents == Inserted(old(contents), i, xs) && r == U64(beg + i)
    {
      var oldBeg, n := beg, |xs|;
      SizeIs();
      ExtendFront(n);
      InsertedFront(old(contents), contents, i, xs);
      FrontPositions(beg, n, oldBeg, i);
      FillFront(oldBeg, pos, i, xs);
      r := Sub(pos, n);
    }

    method InsertBack(pos: nat, ghost i: nat, xs: seq<T>)
      requires Valid() && i <= |contents| && pos == U64(beg + i) && 0 < |xs| && |contents| + |xs| <= cap
      modifies data, this`end, this`contents
      ensures Valid() && contents == Inserted(old(contents), i, xs)
    {
      ghost var n := |contents|;
      var oldEnd := ExtendBack(|xs|);
      InsertedBack(old(contents), contents, i, xs);
      Fill(oldEnd, n, xs);
      Rotate(pos, i, oldEnd, n, end, |contents|);
    }

    /** The insertion proper, once there is room: the shorter side makes way. */
    method InsertReserved(pos: nat, ghost i: nat, xs: seq<T>) returns (r: nat)
      requires Valid() && i <= |contents| && pos == U64(beg + i) && 0 < |xs| && |contents| + |xs| <= cap
      modifies data, this`beg, this`end, this`contents
      ensures Valid() && contents == Inserted(old(contents), i, xs) && r == U64(beg + i)
    {
      SizeIs();
      var before := FromBegin(pos, i);
      var after := ToEnd(pos, i);
      if before < after {
        r := InsertFront(pos, i, xs);
      } else {
        InsertBack(pos, i, xs);
        r := pos;
      }
    }

    /**
     insert_n: None stands for the exception of an oversized request.  The iterator returned is at position i, whether
     or not the elements have moved to new storage and whichever side was shifted.
     */
    method InsertN(pos: nat, ghost i: nat, xs: seq<T>) returns (r: Option<nat>)
      requires Valid() && i <= |contents| && pos == U64(beg + i) && |contents| + |xs| < M
      modifies this, data
      ensures Valid()
      ensures r.None? <==> xs != [] && old(cap) < |old(contents)| + |xs| && maxSize < |old(contents)| + |xs|
      ensures contents == if r.None? then old(contents) else old(contents)[..i] + xs + old(contents)[i..]
      ensures r.Some? ==> r.value == U64(beg + i)
    {
      if xs == [] {
        return Some(pos);
      }
      SizeIs();
      var idx := FromBegin(pos, i);
      var n := Size();
      var ok := Reserve(n + |xs|);
      if !ok {
        return None;
      }
      var it := InsertReserved(U64(beg + idx), i, xs);
      r := Some(it);
    }
  }

  // ----- rings and the sequences they hold -----

  /** The ring slots from beg on hold s, element by element. */
  ghost predicate Each<T>(d: seq<T>, beg: nat, s: seq<T>) {
    |s| <= |d| && forall i | 0 <= i < |s| :: d[Wrap(beg + i, |d|)] == s[i]
  }

  /** The same as a recursion on s. */
  ghost predicate Holds<T>(d: seq<T>, beg: nat, s: seq<T>) {
    |s| <= |d| && (s == [] || (d[Wrap(beg + |s| - 1, |d|)] == s[|s| - 1] && Holds(d, beg, s[..|s| - 1])))
  }

  lemma {:induction false} HoldsEach<T>(d: seq<T>, beg: nat, s: seq<T>)
    ensures Holds(d, beg, s) <==> Each(d, beg, s)
  {
    if s != [] && |s| <= |d| {
      var n := |s| - 1;
      HoldsEach(d, beg, s[..n]);
      assert forall i | 0 <= i < n :: s[..n][i] == s[i];
      assert Each(d, beg, s) ==> d[Wrap(beg + n, |d|)] == s[n];
    }
  }

  lemma HoldsPrefix<T>(d: seq<T>, beg: nat, s: seq<T>, n: nat)
    requires Holds(d, beg, s) && n <= |s|
    ensures Holds(d, beg, s[..n])
  {
    HoldsEach(d, beg, s);
    HoldsEach(d, beg, s[..n]);
  }

  lemma HoldsFromZero<T>(d: seq<T>, s: seq<T>)
    requires |s| <= |d| && d[..|s|] == s
    ensures Holds(d, 0, s)
  {
    forall i | 0 <= i < |s| ensures d[Wrap(0 + i, |d|)] == s[i] {
      assert d[..|s|][i] == s[i];
    }
    HoldsEach(d, 0, s);
  }

  lemma EachWrite<T>(d: seq<T>, beg: nat, s: seq<T>, q: nat, x: T)
    requires q < |s| && Each(d, beg, s)
    ensures Each(d[Wrap(beg + q, |d|) := x], beg, s[q := x])
  {
    var slot, s' := Wrap(beg + q, |d|), s[q := x];
    forall i | 0 <= i < |s| ensures d[slot := x][Wrap(beg + i, |d|)] == s'[i] {
      if i != q {
        DistinctSlots(beg, i, q, |d|);
      }
    }
  }

  lemma WriteAt<T>(d: seq<T>, beg: nat, s: seq<T>, q: nat, x: T)
    requires q < |s| && Holds(d, beg, s)
    ensures Holds(d[Wrap(beg + q, |d|) := x], beg, s[q := x])
  {
    HoldsEach(d, beg, s);
    EachWrite(d, beg, s, q, x);
    HoldsEach(d[Wrap(beg + q, |d|) := x], beg, s[q := x]);
  }

  /** What n consecutive slots hold. */
  function Window<T>(d: seq<T>, b: nat, n: nat): (w: seq<T>)
    requires |d| > 0
    ensures |w| == n
  {
    if n == 0 then [] else Window(d, b, n - 1) + [d[Wrap(b + n - 1, |d|)]]
  }

  lemma {:induction false} WindowHolds<T>(d: seq<T>, b: nat, n: nat)
    requires 0 < |d| && n <= |d|
    ensures Holds(d, b, Window(d, b, n))
  {
    if n > 0 {
      WindowHolds(d, b, n - 1);
      var w := Window(d, b, n);
      assert w[..n - 1] == Window(d, b, n - 1);
    }
  }

  lemma EachConcat<T>(d: seq<T>, b: nat, n: nat, beg: nat, u: seq<T>, s: seq<T>, k: nat)
    requires |u| == n && n + |s| <= |d| == Pow2(k) && k <= 64 && U64(b + n) == U64(beg)
    requires Each(d, b, u) && Each(d, beg, s)
    ensures Each(d, b, u + s)
  {
    forall i | n <= i < n + |s| ensures d[Wrap(b + i, |d|)] == (u + s)[i] {
      ShiftSlot(b, n, beg, i - n, k);
    }
  }

  /** Two adjoining stretches make one. */
  lemma HoldsConcat<T>(d: seq<T>, b: nat, n: nat, beg: nat, u: seq<T>, s: seq<T>, k: nat)
    requires |u| == n && n + |s| <= |d| == Pow2(k) && k <= 64 && U64(b + n) == U64(beg)
    requires Holds(d, b, u) && Holds(d, beg, s)
    ensures Holds(d, b, u + s)
  {
    HoldsEach(d, b, u);
    HoldsEach(d, beg, s);
    EachConcat(d, b, n, beg, u, s, k);
    HoldsEach(d, b, u + s);
  }

  /** Dropping from the front moves the origin. */
  lemma EachDrop<T>(d: seq<T>, beg: nat, b: nat, j: nat, s: seq<T>, k: nat)
    requires |d| == Pow2(k) && k <= 64 && j <= |s| && U64(b) == U64(beg + j) && Each(d, beg, s)
    ensures Each(d, b, s[j..])
  {
    forall i | 0 <= i < |s| - j ensures d[Wrap(b + i, |d|)] == s[j..][i] {
      ShiftSlot(beg, j, b, i, k);
    }
  }

  lemma Rebase<T>(d: seq<T>, beg: nat, b: nat, j: nat, s: seq<T>, k: nat)
    requires |d| == Pow2(k) && k <= 64 && j <= |s| && U64(b) == U64(beg + j) && Holds(d, beg, s)
    ensures Holds(d, b, s[j..])
  {
    HoldsEach(d, beg, s);
    EachDrop(d, beg, b, j, s, k);
    HoldsEach(d, b, s[j..]);
  }

  /** Taking in the n slots behind, whatever they hold. */
  lemma Widen<T>(d: seq<T>, beg: nat, s: seq<T>, n: nat, k: nat)
    requires 0 < |s| + n <= |d| == Pow2(k) && k <= 64 && Holds(d, beg, s)
    ensures Holds(d, beg, s + Window(d, beg + |s|, n))
  {
    WindowHolds(d, beg + |s|, n);
    HoldsConcat(d, beg, |s|, beg + |s|, s, Window(d, beg + |s|, n), k);
  }

  // ----- what the two moves of erase do to a sequence -----

  /** Elements p .. i-1 of o moved, from the last one on, to just below position j. */
  function MovedDown<T>(o: seq<T>, i: nat, j: nat, p: nat): (c: seq<T>)
    requires p <= i <= j <= |o|
    ensures |c| == |o|
    decreases i - p
  {
    if p == i then o else var c := MovedDown(o, i, j, p + 1); c[p + (j - i) := c[p]]
  }

  lemma Regroup<T>(whole: seq<T>, head: seq<T>, a: seq<T>, b: seq<T>, c: seq<T>)
    requires whole == a + (b + c) && head == a + b
    ensures whole == head + c
  {
  }

  /** Elements p .. i-1 of o stand directly before those from j on, and those before p where they were. */
  ghost predicate AreDown<T>(c: seq<T>, o: seq<T>, i: nat, j: nat, p: nat)
    requires p <= i <= j <= |o| == |c|
  {
    c[..p] == o[..p] && c[p + (j - i)..] == o[p..i] + o[j..]
  }

  /** One element moved down by w places. */
  lemma OneDown<T>(b: seq<T>, o: seq<T>, p: nat, i: nat, j: nat)
    requires p < i <= j <= |o| == |b| && AreDown(b, o, i, j, p + 1)
    ensures AreDown(b[p + (j - i) := b[p]], o, i, j, p)
  {
    var w := j - i;
    var c := b[p + w := b[p]];
    assert b[p] == b[..p + 1][p] == o[p];
    assert c[..p] == b[..p + 1][..p];
    assert c[p + w..] == [b[p]] + b[p + 1 + w..];
    Regroup(c[p + w..], o[p..i], [o[p]], o[p + 1..i], o[j..]);
  }

  lemma {:induction false} MovedDownIs<T>(o: seq<T>, i: nat, j: nat, p: nat)
    requires p <= i <= j <= |o|
    ensures AreDown(MovedDown(o, i, j, p), o, i, j, p)
    decreases i - p
  {
    if p < i {
      var b := MovedDown(o, i, j, p + 1);
      MovedDownIs(o, i, j, p + 1);
      OneDown(b, o, p, i, j);
      assert MovedDown(o, i, j, p) == b[p + (j - i) := b[p]];
    } else {
      assert o[p..i] + o[j..] == o[j..];
    }
  }

  /** Elements j .. q-1 of o moved, from the first one on, to position i on. */
  function MovedUp<T>(o: seq<T>, i: nat, j: nat, q: nat): (c: seq<T>)
    requires i <= j <= q <= |o|
    ensures |c| == |o|
    decreases q
  {
    if q == j then o else var c := MovedUp(o, i, j, q - 1); c[q - 1 - (j - i) := c[q - 1]]
  }

  lemma LastOf<T>(o: seq<T>, j: nat, q: nat)
    requires j < q <= |o|
    ensures o[j..q] == o[j..q - 1] + [o[q - 1]]
  {
  }

  /** One element moved up by w places. */
  lemma OneUp<T>(b: seq<T>, o: seq<T>, i: nat, j: nat, q: nat)
    requires i <= j < q <= |o| == |b| && b[..q - 1 - (j - i)] == o[..i] + o[j..q - 1] && b[q - 1..] == o[q - 1..]
    ensures var c := b[q - 1 - (j - i) := b[q - 1]]; c[..q - (j - i)] == o[..i] + o[j..q] && c[q..] == o[q..]
  {
    var w := j - i;
    var c := b[q - 1 - w := b[q - 1]];
    assert b[q - 1] == b[q - 1..][0] == o[q - 1..][0];
    assert c[..q - w] == b[..q - 1 - w] + [o[q - 1]];
    assert c[q..] == b[q - 1..][1..];
    LastOf(o, j, q);
  }

  lemma {:induction false} MovedUpIs<T>(o: seq<T>, i: nat, j: nat, q: nat)
    requires i <= j <= q <= |o|
    ensures var c := MovedUp(o, i, j, q);
            c[..q - (j - i)] == o[..i] + o[j..q] && c[q..] == o[q..]
    decreases q
  {
    if j < q {
      MovedUpIs(o, i, j, q - 1);
      OneUp(MovedUp(o, i, j, q - 1), o, i, j, q);
    }
  }

  /** The two adjoining parts i .. j-1 and j .. n-1 exchanged. */
  function Rotated<T>(o: seq<T>, i: nat, j: nat, n: nat): (c: seq<T>)
    requires i <= j <= n <= |o|
  {
    o[..i] + o[j..n] + o[i..j] + o[n..]
  }

  function Overwritten<T>(o: seq<T>, q: nat, xs: seq<T>): (c: seq<T>)
    requires q + |xs| <= |o|
    ensures |c| == |o|
  {
    o[..q] + xs + o[q + |xs|..]
  }
  /** Once the second part is moved up, writing the first behind it exchanges the two. */
  lemma RotatedIs<T>(o: seq<T>, c: seq<T>, i: nat, j: nat, n: nat)
    requires i <= j <= n <= |o| == |c| && c[..n - (j - i)] == o[..i] + o[j..n] && c[n..] == o[n..]
    ensures Overwritten(c, n - (j - i), o[i..j]) == Rotated(o, i, j, n)
  {
  }

  lemma OverwrittenStep<T>(o: seq<T>, q: nat, xs: seq<T>, k: nat)
    requires k < |xs| && q + |xs| <= |o|
    ensures Overwritten(o, q, xs[..k])[q + k := xs[k]] == Overwritten(o, q, xs[..k + 1])
  {
  }

  function Inserted<T>(o: seq<T>, i: nat, xs: seq<T>): (c: seq<T>)
    requires i <= |o|
    ensures |c| == |o| + |xs|
  {
    o[..i] + xs + o[i..]
  }

  lemma CutAt<T>(xs: seq<T>, o: seq<T>, i: nat)
    requires i <= |o|
    ensures var c, n := xs + o, |xs|;
            c[..0] + c[n..n + i] == o[..i] && c[0..n] == xs && c[n + i..] == o[i..]
  {
  }

  /** Inserting before the front and rotating the new elements into place. */
  lemma InsertedFront<T>(o: seq<T>, w: seq<T>, i: nat, xs: seq<T>)
    requires i <= |o| && |w| == |xs| + |o| && w[|xs|..] == o
    ensures Rotated(Overwritten(w, 0, xs), 0, |xs|, |xs| + i) == Inserted(o, i, xs)
  {
    assert Overwritten(w, 0, xs) == xs + o;
    CutAt(xs, o, i);
  }

  lemma InsertedBack<T>(o: seq<T>, w: seq<T>, i: nat, xs: seq<T>)
    requires i <= |o| && |w| == |o| + |xs| && w[..|o|] == o
    ensures Rotated(Overwritten(w, |o|, xs), i, |o|, |w|) == Inserted(o, i, xs)
  {
    var c := o + xs;
    assert Overwritten(w, |o|, xs) == c;
    assert c[..i] == o[..i] && c[|o|..|w|] == xs && c[i..|o|] + c[|w|..] == o[i..];
  }

  /** Equal wrapped origins give equal slots. */
  lemma ShiftSlot(b: nat, n: nat, beg: nat, i: nat, k: nat)
    requires k <= 64 && U64(b + n) == U64(beg)
    ensures Wrap(b + (n + i), Pow2(k)) == Wrap(beg + i, Pow2(k))
  {
    U64Step(b + n, i);
    U64Step(beg, i);
    SlotOfWrapped(b + n + i, beg + i, k);
  }

  // ----- what growth costs -----

  /** Size and capacity, and how many elements have been pushed, and moved by growth, so far. */
  datatype Ledger = Ledger(size: nat, cap: nat, pushes: nat, moved: nat)

  function Doubled(cap: nat): nat {
    if cap == 0 then 32 else 2 * cap
  }

  function AfterPush(l: Ledger, maxSize: nat): Ledger {
    if l.size < l.cap then l.(size := l.size + 1, pushes := l.pushes + 1)
    else if l.size < maxSize then Ledger(l.size + 1, Doubled(l.cap), l.pushes + 1, l.moved + l.size)
    else l
  }

  function AfterPop(l: Ledger): Ledger {
    if l.size == 0 then l else l.(size := l.size - 1)
  }

  /** The moves are paid for by the pushes that filled the ring. */
  ghost predicate Paid(l: Ledger) {
    && l.size <= l.pushes && l.size <= l.cap
    && (l.cap <= 32 ==> l.moved == 0 && (l.cap == 0 || l.cap == 32))
    && (l.cap > 32 ==> l.moved + 32 == l.cap < 2 * l.pushes)
  }

  datatype End = Push | Pop

  /** A run of pushes and pops, at either end. */
  function Ledgers(l: Ledger, ops: seq<End>, maxSize: nat): Ledger
    decreases ops
  {
    if ops == [] then l
    else Ledgers(if ops[0].Push? then AfterPush(l, maxSize) else AfterPop(l), ops[1..], maxSize)
  }

  function Pushes(ops: seq<End>): nat {
    if ops == [] then 0 else (if ops[0].Push? then 1 else 0) + Pushes(ops[1..])
  }

  lemma {:induction false} PaidRun(l: Ledger, ops: seq<End>, maxSize: nat)
    requires Paid(l)
    ensures Paid(Ledgers(l, ops, maxSize)) && Ledgers(l, ops, maxSize).pushes <= l.pushes + Pushes(ops)
    decreases ops
  {
    if ops != [] {
      PaidRun(if ops[0].Push? then AfterPush(l, maxSize) else AfterPop(l), ops[1..], maxSize);
    }
  }

  /** Over any run of pushes and pops from an empty queue, growth moves at most two elements for each one pushed. */
  lemma MovesBound(ops: seq<End>, maxSize: nat)
    ensures var l := Ledgers(Ledger(0, 0, 0, 0), ops, maxSize);
            l.moved <= 2 * l.pushes && l.pushes <= Pushes(ops)
  {
    PaidRun(Ledger(0, 0, 0, 0), ops, maxSize);
  }

  /** Growing a full ring by one element doubles it, from a first capacity of 32. */
  lemma Growth(c: nat, k: nat, c': nat, j: nat)
    requires c > 0 ==> 5 <= k && c == Pow2(k)
    requires c + 1 <= c' == Pow2(j) && 32 <= c'
    requires forall i: nat :: c + 1 <= Pow2(i) && 32 <= Pow2(i) ==> c' <= Pow2(i)
    ensures c' == Doubled(c)
    ensures c > 0 ==> 32 <= c
  {
    assert Pow2(5) == 32;
    if c > 0 {
      Pow2Monotone(5, k);
      if j <= k {
        Pow2Monotone(j, k);
      } else {
        Pow2Monotone(k + 1, j);
      }
      assert c + 1 <= Pow2(k + 1);
    }
  }
}
