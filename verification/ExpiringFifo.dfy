/** The queue of src/expiring_fifo.h, whose entries may expire in place. */
module ExpiringFifo {
  import opened Wrappers

  /** An entry without payload has expired; only a timed one can. */
  datatype Entry<T> = Entry(payload: Option<T>, timed: bool)

  /** The queue that clients see: the payloads that are left, in order. */
  function Live<T>(list: seq<Entry<T>>): (l: seq<T>)
    ensures |l| <= |list|
  {
    if list == [] then []
    else (if list[0].payload.Some? then [list[0].payload.value] else []) + Live(list[1..])
  }

  lemma Regroup<T>(a: seq<T>, b: seq<T>, c: seq<T>)
    ensures a + (b + c) == (a + b) + c
  {
  }

  lemma {:induction false} LiveConcat<T>(a: seq<Entry<T>>, b: seq<Entry<T>>)
    ensures Live(a + b) == Live(a) + Live(b)
  {
    if a == [] {
      assert a + b == b;
    } else {
      LiveConcat(a[1..], b);
      assert (a + b)[0] == a[0] && (a + b)[1..] == a[1..] + b;
      Regroup(if a[0].payload.Some? then [a[0].payload.value] else [], Live(a[1..]), Live(b));
    }
  }

  /** The place in the visible queue of the entry at index i. */
  function Rank<T>(list: seq<Entry<T>>, i: nat): nat
    requires i <= |list|
  {
    |Live(list[..i])|
  }

  function Without<T>(s: seq<T>, k: nat): (r: seq<T>)
    requires k < |s|
    ensures |r| == |s| - 1
  {
    s[..k] + s[k + 1..]
  }

  /** Expiry of one entry takes just its payload out of the visible queue. */
  lemma LiveExpired<T>(list: seq<Entry<T>>, i: nat)
    requires i < |list| && list[i].payload.Some?
    ensures Rank(list, i) < |Live(list)| && Live(list)[Rank(list, i)] == list[i].payload.value
    ensures Live(list[i := list[i].(payload := None)]) == Without(Live(list), Rank(list, i))
  {
    var e := list[i].(payload := None);
    LiveAround(list, i);
    LiveAround(list[i := e], i);
  }

  lemma LiveAround<T>(list: seq<Entry<T>>, i: nat)
    requires i < |list|
    ensures Live(list) == Live(list[..i]) + ((if list[i].payload.Some? then [list[i].payload.value] else [])
                          + Live(list[i + 1..]))
  {
    assert list == list[..i] + list[i..] && list[i..][0] == list[i] && list[i..][1..] == list[i + 1..];
    LiveConcat(list[..i], list[i..]);
  }

  class Fifo<T> {
    var list: seq<Entry<T>>
    var size: nat

    /** The front has not expired. */
    ghost predicate Valid()
      reads this
    {
      size == |Live(list)| && (list != [] ==> list[0].payload.Some?)
    }

    constructor ()
      ensures Valid() && Live(list) == []
    {
      list, size := [], 0;
    }

    method Empty() returns (b: bool)
      requires Valid()
      ensures b <==> Live(list) == []
    {
      b := size == 0;
    }

    method Front() returns (x: T)
      requires Valid() && Live(list) != []
      ensures x == Live(list)[0]
    {
      x := list[0].payload.value;
    }

    method PushBack(x: T, timed: bool)
      requires Valid()
      modifies this
      ensures Valid() && Live(list) == old(Live(list)) + [x]
      ensures list == old(list) + [Entry(Some(x), timed)]
    {
      LiveConcat(list, [Entry(Some(x), timed)]);
      list := list + [Entry(Some(x), timed)];
      size := size + 1;
    }

    method PopFront()
      requires Valid() && Live(list) != []
      modifies this
      ensures Valid() && Live(list) == old(Live(list))[1..]
    {
      list := list[1..];
      size := size - 1;
      DropExpiredFront();
    }

    /** Expired entries leave the list once they come to its front. */
    method DropExpiredFront()
      requires size == |Live(list)|
      modifies this
      ensures Valid() && Live(list) == old(Live(list)) && size == old(size)
    {
      while list != [] && list[0].payload.None?
        invariant Live(list) == old(Live(list)) && size == old(size)
        decreases |list|
      {
        list := list[1..];
      }
    }

    /** The timer of the entry at index i goes off; x is handed to the expiry handler. */
    method Expire(i: nat) returns (x: T)
      requires Valid() && i < |list| && list[i].timed && list[i].payload.Some?
      modifies this
      ensures Valid() && old(Rank(list, i)) < |old(Live(list))| && x == old(Live(list))[old(Rank(list, i))]
      ensures Live(list) == Without(old(Live(list)), old(Rank(list, i)))
    {
      LiveExpired(list, i);
      x := list[i].payload.value;
      list := list[i := list[i].(payload := None)];
      size := size - 1;
      DropExpiredFront();
    }
  }
}
