/**
 What the operations of src/cleaner.h do to all the cleaners of a program, as functions on a value.

 C and I stand for the addresses of cleaner and impl objects.  A cleaner is either held by the program or is the `next`
 member of an impl.  Actions are numbered in the order in which they are made.
 */
module CleanerGraph {
  /** A cleaner's pointer: null, the tagged address of memory that action a frees, or an impl. */
  datatype Target<I> = Empty | Raw(a: nat) | To(i: I)

  datatype Impl<!C> = Impl(refs: int, next: C, act: nat, owners: set<C>, born: nat)

  /** Where an action is: done, in an impl, or in a tagged pointer. */
  datatype Place<C, I> = Ran | InImpl(i: I) | InRaw(c: C)

  datatype World<!C, !I> = World(
    cells: map<C, Target<I>>, impls: map<I, Impl<C>>, place: map<nat, Place<C, I>>, ran: seq<nat>, clock: nat)

  /** Held by the program. */
  ghost predicate Outer<C, I>(w: World<C, I>, c: C) {
    c in w.cells && forall i | i in w.impls :: w.impls[i].next != c
  }

  ghost predicate Owned<C, I>(w: World<C, I>) {
    && (forall c | c in w.cells && w.cells[c].To? :: w.cells[c].i in w.impls && c in w.impls[w.cells[c].i].owners)
    && (forall i | i in w.impls ::
          && w.impls[i].refs == |w.impls[i].owners| > 0
          && forall c | c in w.impls[i].owners :: c in w.cells && w.cells[c] == To(i))
  }

  /** Impls follow each other from younger to older. */
  ghost predicate Acyclic<C, I>(w: World<C, I>) {
    && (forall i | i in w.impls ::
          && w.impls[i].born < w.clock && w.impls[i].next in w.cells
          && (w.cells[w.impls[i].next].To? ==>
                w.cells[w.impls[i].next].i in w.impls && w.impls[w.cells[w.impls[i].next].i].born < w.impls[i].born))
    && (forall i, j | i in w.impls && j in w.impls && i != j :: w.impls[i].next != w.impls[j].next)
  }

  /** Every action made is in one place, and done at most once. */
  ghost predicate Placed<C, I>(w: World<C, I>) {
    && (forall a | a in w.place ::
          match w.place[a]
          case Ran => a in w.ran
          case InImpl(i) => i in w.impls && w.impls[i].act == a
          case InRaw(c) => c in w.cells && w.cells[c] == Raw(a))
    && (forall i | i in w.impls :: w.impls[i].act in w.place && w.place[w.impls[i].act] == InImpl(i))
    && (forall c | c in w.cells && w.cells[c].Raw? :: w.cells[c].a in w.place && w.place[w.cells[c].a] == InRaw(c))
    && (forall k | 0 <= k < |w.ran| :: w.ran[k] in w.place && w.place[w.ran[k]] == Ran)
    && (forall j, k | 0 <= j < k < |w.ran| :: w.ran[j] != w.ran[k])
  }

  ghost predicate Inv<C, I>(w: World<C, I>) {
    Owned(w) && Acyclic(w) && Placed(w)
  }

  // ----- operations -----

  ghost function NewEmpty<C, I>(w: World<C, I>, c: C): World<C, I> {
    w.(cells := w.cells[c := Empty])
  }

  /** make_free_cleaner: the action `a` is the freeing of the memory pointed at. */
  ghost function NewRaw<C, I>(w: World<C, I>, c: C, a: nat): World<C, I> {
    w.(cells := w.cells[c := Raw(a)], place := w.place[a := InRaw(c)])
  }

  lemma NewEmptyKeeps<C, I>(w: World<C, I>, c: C)
    requires Inv(w) && c !in w.cells
    ensures Inv(NewEmpty(w, c))
  {
  }

  lemma NewRawOwned<C, I>(w: World<C, I>, c: C, a: nat)
    requires Inv(w) && c !in w.cells && a !in w.place
    ensures Owned(NewRaw(w, c, a))
  {
  }

  lemma NewRawAcyclic<C, I>(w: World<C, I>, c: C, a: nat)
    requires Inv(w) && c !in w.cells && a !in w.place
    ensures Acyclic(NewRaw(w, c, a))
  {
  }

  lemma NewRawPlaced<C, I>(w: World<C, I>, c: C, a: nat)
    requires Inv(w) && c !in w.cells && a !in w.place
    ensures Placed(NewRaw(w, c, a))
  {
  }

  lemma NewRawKeeps<C, I>(w: World<C, I>, c: C, a: nat)
    requires Inv(w) && c !in w.cells && a !in w.place
    ensures Inv(NewRaw(w, c, a))
  {
    NewRawOwned(w, c, a);
    NewRawAcyclic(w, c, a);
    NewRawPlaced(w, c, a);
  }

  /** The move constructor. */
  ghost function Move<C, I>(w: World<C, I>, d: C, c: C): World<C, I>
    requires c in w.cells
  {
    var t := w.cells[c];
    w.(cells := w.cells[c := Empty][d := t],
       impls := if t.To? && t.i in w.impls then
                  w.impls[t.i := w.impls[t.i].(owners := w.impls[t.i].owners - {c} + {d})]
                else w.impls,
       place := if t.Raw? then w.place[t.a := InRaw(d)] else w.place)
  }

  lemma Swapped<C>(x: set<C>, c: C, d: C)
    requires c in x && d !in x
    ensures |x - {c} + {d}| == |x|
  {
  }

  lemma MoveOwned<C, I>(w: World<C, I>, d: C, c: C)
    requires Inv(w) && c in w.cells && d !in w.cells && Outer(w, c)
    ensures Owned(Move(w, d, c))
  {
    var t, w' := w.cells[c], Move(w, d, c);
    if t.To? {
      Swapped(w.impls[t.i].owners, c, d);
    }
    forall b | b in w'.cells && w'.cells[b].To? ensures w'.cells[b].i in w'.impls
        && b in w'.impls[w'.cells[b].i].owners {
    }
    forall i, b | i in w'.impls && b in w'.impls[i].owners ensures b in w'.cells && w'.cells[b] == To(i) {
      if b != d {
        assert b in w.impls[i].owners;
      }
    }
  }

  /** A move changes the owners of an impl at most. */
  lemma MovedImpl<C, I>(w: World<C, I>, d: C, c: C, i: I)
    requires Inv(w) && d !in w.cells && Outer(w, c) && i in w.impls
    ensures var w' := Move(w, d, c);
            && i in w'.impls && w'.impls[i] == w.impls[i].(owners := w'.impls[i].owners)
            && w.impls[i].next in w.cells && w.impls[i].next != d
            && w'.cells[w.impls[i].next] == w.cells[w.impls[i].next]
  {
  }

  lemma MoveAcyclic<C, I>(w: World<C, I>, d: C, c: C)
    requires Inv(w) && c in w.cells && d !in w.cells && Outer(w, c)
    ensures Acyclic(Move(w, d, c))
  {
    var w' := Move(w, d, c);
    forall i | i in w'.impls ensures w'.impls[i].born < w'.clock && w'.impls[i].next in w'.cells
        && (w'.cells[w'.impls[i].next].To? ==>
              w'.cells[w'.impls[i].next].i in w'.impls
              && w'.impls[w'.cells[w'.impls[i].next].i].born < w'.impls[i].born) {
      MovedImpl(w, d, c, i);
      var t := w.cells[w.impls[i].next];
      if t.To? {
        MovedImpl(w, d, c, t.i);
      }
    }
    forall i, j | i in w'.impls && j in w'.impls && i != j ensures w'.impls[i].next != w'.impls[j].next {
      MovedImpl(w, d, c, i);
      MovedImpl(w, d, c, j);
    }
  }

  lemma MoveHolds<C, I>(w: World<C, I>, d: C, c: C)
    requires Inv(w) && d !in w.cells && Outer(w, c)
    ensures Outer(Move(w, d, c), d)
  {
    var w' := Move(w, d, c);
    forall i | i in w'.impls ensures w'.impls[i].next != d {
      MovedImpl(w, d, c, i);
    }
  }

  lemma MovePlaced<C, I>(w: World<C, I>, d: C, c: C)
    requires Inv(w) && c in w.cells && d !in w.cells && Outer(w, c)
    ensures Placed(Move(w, d, c))
  {
  }

  lemma MoveKeeps<C, I>(w: World<C, I>, d: C, c: C)
    requires Inv(w) && c in w.cells && d !in w.cells && Outer(w, c)
    ensures Inv(Move(w, d, c))
  {
    MoveOwned(w, d, c);
    MoveAcyclic(w, d, c);
    MovePlaced(w, d, c);
  }

  /** A new impl around action a, with n for its next, held by c. */
  ghost function Wrap<C, I>(w: World<C, I>, c: C, i: I, n: C, a: nat): World<C, I> {
    w.(cells := w.cells[c := To(i)], impls := w.impls[i := Impl(1, n, a, {c}, w.clock)],
       place := w.place[a := InImpl(i)], clock := w.clock + 1)
  }

  lemma WrapOwned<C, I>(w: World<C, I>, c: C, i: I, n: C, a: nat)
    requires Inv(w) && c !in w.cells && i !in w.impls && Outer(w, n) && a !in w.place
    ensures Owned(Wrap(w, c, i, n, a))
  {
  }

  lemma WrapAcyclic<C, I>(w: World<C, I>, c: C, i: I, n: C, a: nat)
    requires Inv(w) && c !in w.cells && i !in w.impls && Outer(w, n) && a !in w.place
    ensures Acyclic(Wrap(w, c, i, n, a))
  {
  }

  lemma WrapPlaced<C, I>(w: World<C, I>, c: C, i: I, n: C, a: nat)
    requires Inv(w) && c !in w.cells && i !in w.impls && Outer(w, n) && a !in w.place
    ensures Placed(Wrap(w, c, i, n, a))
  {
  }

  lemma WrapKeeps<C, I>(w: World<C, I>, c: C, i: I, n: C, a: nat)
    requires Inv(w) && c !in w.cells && i !in w.impls && Outer(w, n) && a !in w.place
    ensures Inv(Wrap(w, c, i, n, a))
  {
    WrapOwned(w, c, i, n, a);
    WrapAcyclic(w, c, i, n, a);
    WrapPlaced(w, c, i, n, a);
  }

  /** share: a tagged pointer first becomes an impl of its own, whose next is the empty cleaner n. */
  ghost function Promote<C, I>(w: World<C, I>, c: C, i: I, n: C): World<C, I>
    requires c in w.cells && w.cells[c].Raw?
  {
    var a := w.cells[c].a;
    w.(cells := w.cells[n := Empty][c := To(i)], impls := w.impls[i := Impl(1, n, a, {c}, w.clock)],
       place := w.place[a := InImpl(i)], clock := w.clock + 1)
  }

  lemma PromoteOwned<C, I>(w: World<C, I>, c: C, i: I, n: C)
    requires Inv(w) && c in w.cells && w.cells[c].Raw? && Outer(w, c) && i !in w.impls && n !in w.cells
    ensures Owned(Promote(w, c, i, n))
  {
  }

  lemma PromoteAcyclic<C, I>(w: World<C, I>, c: C, i: I, n: C)
    requires Inv(w) && c in w.cells && w.cells[c].Raw? && Outer(w, c) && i !in w.impls && n !in w.cells
    ensures Acyclic(Promote(w, c, i, n))
  {
  }

  lemma PromotePlaced<C, I>(w: World<C, I>, c: C, i: I, n: C)
    requires Inv(w) && c in w.cells && w.cells[c].Raw? && Outer(w, c) && i !in w.impls && n !in w.cells
    ensures Placed(Promote(w, c, i, n))
  {
  }

  lemma PromoteKeeps<C, I>(w: World<C, I>, c: C, i: I, n: C)
    requires Inv(w) && c in w.cells && w.cells[c].Raw? && Outer(w, c) && i !in w.impls && n !in w.cells
    ensures Inv(Promote(w, c, i, n))
  {
    PromoteOwned(w, c, i, n);
    PromoteAcyclic(w, c, i, n);
    PromotePlaced(w, c, i, n);
  }

  ghost function AddRef<C, I>(w: World<C, I>, d: C, c: C): World<C, I>
    requires c in w.cells
  {
    var t := w.cells[c];
    w.(cells := w.cells[d := t],
       impls := if t.To? && t.i in w.impls then
                  w.impls[t.i := w.impls[t.i].(refs := w.impls[t.i].refs + 1, owners := w.impls[t.i].owners + {d})]
                else w.impls)
  }

  lemma AddRefOwned<C, I>(w: World<C, I>, d: C, c: C)
    requires Inv(w) && c in w.cells && !w.cells[c].Raw? && d !in w.cells
    ensures Owned(AddRef(w, d, c))
  {
    var t, w' := w.cells[c], AddRef(w, d, c);
    if t.To? {
      assert d !in w.impls[t.i].owners;
    }
    forall i, b | i in w'.impls && b in w'.impls[i].owners ensures b in w'.cells && w'.cells[b] == To(i) {
      if b != d {
        assert b in w.impls[i].owners;
      }
    }
  }

  lemma AddRefAcyclic<C, I>(w: World<C, I>, d: C, c: C)
    requires Inv(w) && c in w.cells && !w.cells[c].Raw? && d !in w.cells
    ensures Acyclic(AddRef(w, d, c))
  {
  }

  lemma AddRefPlaced<C, I>(w: World<C, I>, d: C, c: C)
    requires Inv(w) && c in w.cells && !w.cells[c].Raw? && d !in w.cells
    ensures Placed(AddRef(w, d, c))
  {
  }

  lemma AddRefKeeps<C, I>(w: World<C, I>, d: C, c: C)
    requires Inv(w) && c in w.cells && !w.cells[c].Raw? && d !in w.cells
    ensures Inv(AddRef(w, d, c))
  {
    AddRefOwned(w, d, c);
    AddRefAcyclic(w, d, c);
    AddRefPlaced(w, d, c);
  }

  /** What the destructor of c does to c alone; an impl that loses its last owner goes, its action done. */
  ghost function Let<C, I>(w: World<C, I>, c: C): World<C, I>
    requires c in w.cells
  {
    match w.cells[c]
    case Empty => w.(cells := w.cells - {c})
    case Raw(a) => w.(cells := w.cells - {c}, place := w.place[a := Ran], ran := w.ran + [a])
    case To(i) =>
      if i !in w.impls then w
      else if w.impls[i].refs == 1 then
        var a := w.impls[i].act;
        w.(cells := w.cells - {c}, impls := w.impls - {i}, place := w.place[a := Ran], ran := w.ran + [a])
      else
        w.(cells := w.cells - {c},
           impls := w.impls[i := w.impls[i].(refs := w.impls[i].refs - 1, owners := w.impls[i].owners - {c})])
  }

  /** The destructor of c takes the last reference to an impl with it. */
  ghost predicate Last<C, I>(w: World<C, I>, c: C) {
    c in w.cells && w.cells[c].To? && w.cells[c].i in w.impls && w.impls[w.cells[c].i].refs == 1
  }

  lemma OnlyOwner<C, I>(w: World<C, I>, c: C)
    requires Owned(w) && c in w.cells
    ensures w.cells[c].To? && w.impls[w.cells[c].i].refs == 1
        ==> forall d | d in w.cells :: w.cells[d] == w.cells[c] ==> d == c
  {
    if w.cells[c].To? {
      var x := w.impls[w.cells[c].i].owners;
      assert |x - {c}| == |x| - 1;
      if |x| == 1 {
        assert x - {c} == {};
      }
    }
  }

  lemma LetOwned<C, I>(w: World<C, I>, c: C)
    requires Inv(w) && Outer(w, c)
    ensures Owned(Let(w, c))
  {
    var t := w.cells[c];
    if t.To? {
      var x := w.impls[t.i].owners;
      assert |x - {c}| == |x| - 1;
      if |x| == 1 {
        assert x - {c} == {};
      }
    }
  }

  lemma LetAcyclic<C, I>(w: World<C, I>, c: C)
    requires Inv(w) && Outer(w, c)
    ensures Acyclic(Let(w, c))
  {
    OnlyOwner(w, c);
  }

  lemma LetPlaced<C, I>(w: World<C, I>, c: C)
    requires Inv(w) && Outer(w, c)
    ensures Placed(Let(w, c))
  {
    if Last(w, c) {
      OnlyOwner(w, c);
      LetPlacedLast(w, c);
    }
  }

  lemma LetPlacedLast<C, I>(w: World<C, I>, c: C)
    requires Inv(w) && Outer(w, c) && Last(w, c)
    requires forall d | d in w.cells :: w.cells[d] == w.cells[c] ==> d == c
    ensures Placed(Let(w, c))
  {
    assert w.impls[w.cells[c].i].act !in w.ran;
  }

  lemma LetKeeps<C, I>(w: World<C, I>, c: C)
    requires Inv(w) && Outer(w, c)
    ensures Inv(Let(w, c))
  {
    LetOwned(w, c);
    LetAcyclic(w, c);
    LetPlaced(w, c);
  }

  /** The cleaners that point where c points. */
  ghost function Sharers<C, I>(w: World<C, I>, c: C): set<C>
    requires c in w.cells
  {
    set d | d in w.cells && w.cells[d] == w.cells[c]
  }

  /** A tagged pointer has the one cleaner; an impl counts its cleaners. */
  lemma SharersCounted<C, I>(w: World<C, I>, c: C)
    requires Inv(w) && c in w.cells
    ensures w.cells[c].Raw? ==> Sharers(w, c) == {c}
    ensures w.cells[c].To? ==> w.impls[w.cells[c].i].refs == |Sharers(w, c)|
  {
    if w.cells[c].To? {
      assert Sharers(w, c) == w.impls[w.cells[c].i].owners;
    }
  }

  // ----- the cascade -----

  /** The next of an impl that goes is held by nothing else, and is destroyed like any other cleaner. */
  lemma NextFreed<C, I>(w: World<C, I>, c: C)
    requires Inv(w) && Outer(w, c) && Last(w, c)
    ensures var i := w.cells[c].i;
            Inv(Let(w, c)) && Outer(Let(w, c), w.impls[i].next) && w.impls[i].next != c && |Let(w, c).impls| < |w.impls|
  {
    LetKeeps(w, c);
    var i, w' := w.cells[c].i, Let(w, c);
    assert w'.impls.Keys == w.impls.Keys - {i};
  }

  /** ~cleaner, all the way down. */
  ghost function Release<C, I>(w: World<C, I>, c: C): (w': World<C, I>)
    requires Inv(w) && Outer(w, c)
    ensures Inv(w')
    decreases |w.impls|
  {
    if Last(w, c) then NextFreed(w, c); Release(Let(w, c), w.impls[w.cells[c].i].next)
    else LetKeeps(w, c); Let(w, c)
  }

  /** The actions to be done when c goes: along the chain as long as each impl has this one owner. */
  ghost function Doom<C, I>(w: World<C, I>, c: C): seq<nat>
    requires Inv(w) && c in w.cells
    decreases if w.cells[c].To? && w.cells[c].i in w.impls then w.impls[w.cells[c].i].born + 1 else 0
  {
    match w.cells[c]
    case Empty => []
    case Raw(a) => [a]
    case To(i) => if w.impls[i].refs == 1 then [w.impls[i].act] + Doom(w, w.impls[i].next) else []
  }

  /** What lies below an impl does not change when the impl goes. */
  lemma {:induction false} DoomBelow<C, I>(w: World<C, I>, c: C, b: C)
    requires Inv(w) && Outer(w, c) && Last(w, c) && b in w.cells && b != c
    requires w.cells[b].To? ==> w.impls[w.cells[b].i].born < w.impls[w.cells[c].i].born
    ensures Inv(Let(w, c)) && b in Let(w, c).cells && Doom(Let(w, c), b) == Doom(w, b)
    decreases if w.cells[b].To? && w.cells[b].i in w.impls then w.impls[w.cells[b].i].born + 1 else 0
  {
    LetKeeps(w, c);
    if w.cells[b].To? && w.impls[w.cells[b].i].refs == 1 {
      DoomBelow(w, c, w.impls[w.cells[b].i].next);
    }
  }

  /** The action that goes with c itself. */
  ghost function Own<C, I>(w: World<C, I>, c: C): seq<nat>
    requires c in w.cells
  {
    match w.cells[c]
    case Empty => []
    case Raw(a) => [a]
    case To(i) => if i in w.impls && w.impls[i].refs == 1 then [w.impls[i].act] else []
  }

  lemma LetDoes<C, I>(w: World<C, I>, c: C)
    requires c in w.cells
    ensures Let(w, c).ran == w.ran + Own(w, c)
  {
  }

  lemma LetPlaces<C, I>(w: World<C, I>, c: C)
    requires Placed(w) && c in w.cells
    ensures Let(w, c).place.Keys == w.place.Keys
  {
  }

  lemma DoomUnfolds<C, I>(w: World<C, I>, c: C)
    requires Inv(w) && c in w.cells
    ensures if Last(w, c) then
              w.impls[w.cells[c].i].next in w.cells && Doom(w, c) == Own(w, c) + Doom(w, w.impls[w.cells[c].i].next)
            else Doom(w, c) == Own(w, c)
  {
  }

  lemma DoomIs<C, I>(w: World<C, I>, c: C)
    requires Inv(w) && Outer(w, c)
    ensures if Last(w, c) then
              && w.impls[w.cells[c].i].next in w.cells && Inv(Let(w, c))
              && Outer(Let(w, c), w.impls[w.cells[c].i].next) && |Let(w, c).impls| < |w.impls|
              && Doom(w, c) == Own(w, c) + Doom(Let(w, c), w.impls[w.cells[c].i].next)
            else Doom(w, c) == Own(w, c)
  {
    if Last(w, c) {
      NextFreed(w, c);
      DoomBelow(w, c, w.impls[w.cells[c].i].next);
    }
  }

  lemma ReleaseIs<C, I>(w: World<C, I>, c: C)
    requires Inv(w) && Outer(w, c)
    ensures if Last(w, c) then
              && w.impls[w.cells[c].i].next in w.cells && Inv(Let(w, c))
              && Outer(Let(w, c), w.impls[w.cells[c].i].next) && |Let(w, c).impls| < |w.impls|
              && Release(w, c) == Release(Let(w, c), w.impls[w.cells[c].i].next)
            else Release(w, c) == Let(w, c)
  {
    if Last(w, c) {
      NextFreed(w, c);
    }
  }

  lemma Regroup<T>(whole: seq<T>, tail: seq<T>, a: seq<T>, b: seq<T>, c: seq<T>)
    requires whole == (a + b) + c && tail == b + c
    ensures whole == a + tail
  {
  }

  /** Destroying a cleaner does just the actions whose last owner goes, an impl's own before those of its next. */
  lemma {:induction false} ReleaseDoes<C, I>(w: World<C, I>, c: C)
    requires Inv(w) && Outer(w, c)
    ensures Release(w, c).ran == w.ran + Doom(w, c)
    decreases |w.impls|
  {
    ReleaseIs(w, c);
    DoomIs(w, c);
    LetDoes(w, c);
    if Last(w, c) {
      var w1, n := Let(w, c), w.impls[w.cells[c].i].next;
      ReleaseDoes(w1, n);
      Regroup(Release(w, c).ran, Doom(w, c), w.ran, Own(w, c), Doom(w1, n));
    }
  }

  lemma {:induction false} ReleasePlaces<C, I>(w: World<C, I>, c: C)
    requires Inv(w) && Outer(w, c)
    ensures Release(w, c).place.Keys == w.place.Keys
    decreases |w.impls|
  {
    ReleaseIs(w, c);
    LetPlaces(w, c);
    if Last(w, c) {
      ReleasePlaces(Let(w, c), w.impls[w.cells[c].i].next);
    }
  }

  lemma LetSpares<C, I>(w: World<C, I>, c: C, d: C)
    requires Inv(w) && Outer(w, c) && Outer(w, d) && d != c
    ensures Outer(Let(w, c), d) && Let(w, c).cells[d] == w.cells[d]
    ensures Last(w, c) ==> w.impls[w.cells[c].i].next != d
  {
  }

  /** The other cleaners of the program are left alone. */
  lemma {:induction false} ReleaseSpares<C, I>(w: World<C, I>, c: C, d: C)
    requires Inv(w) && Outer(w, c) && Outer(w, d) && d != c
    ensures Outer(Release(w, c), d) && Release(w, c).cells[d] == w.cells[d]
    decreases |w.impls|
  {
    LetSpares(w, c, d);
    if Last(w, c) {
      NextFreed(w, c);
      ReleaseSpares(Let(w, c), w.impls[w.cells[c].i].next, d);
    }
  }

  lemma ReleaseEnds<C, I>(w: World<C, I>, c: C)
    requires Inv(w) && Outer(w, c)
    ensures c !in Release(w, c).cells
  {
    if Last(w, c) {
      NextFreed(w, c);
      NoRevival(Let(w, c), w.impls[w.cells[c].i].next, c);
    }
  }

  lemma {:induction false} NoRevival<C, I>(w: World<C, I>, n: C, c: C)
    requires Inv(w) && Outer(w, n) && c !in w.cells
    ensures c !in Release(w, n).cells
    decreases |w.impls|
  {
    if Last(w, n) {
      NextFreed(w, n);
      NoRevival(Let(w, n), w.impls[w.cells[n].i].next, c);
    }
  }

  lemma {:induction false} DoomMoved<C, I>(w: World<C, I>, d: C, c: C, b: C)
    requires Inv(w) && Outer(w, c) && d !in w.cells && b in w.cells && b != c
    ensures Inv(Move(w, d, c)) && b in Move(w, d, c).cells && Doom(Move(w, d, c), b) == Doom(w, b)
    decreases if w.cells[b].To? && w.cells[b].i in w.impls then w.impls[w.cells[b].i].born + 1 else 0
  {
    MoveKeeps(w, d, c);
    if w.cells[b].To? {
      MovedImpl(w, d, c, w.cells[b].i);
    }
    DoomUnfolds(w, b);
    DoomUnfolds(Move(w, d, c), b);
    if Last(w, b) {
      DoomMoved(w, d, c, w.impls[w.cells[b].i].next);
    }
  }

  /** A cleaner moved to does what the one moved from would have done. */
  lemma MoveCarries<C, I>(w: World<C, I>, d: C, c: C)
    requires Inv(w) && Outer(w, c) && d !in w.cells
    ensures Inv(Move(w, d, c)) && Move(w, d, c).cells[c] == Empty && Doom(Move(w, d, c), d) == Doom(w, c)
  {
    MoveKeeps(w, d, c);
    if Last(w, c) {
      DoomMoved(w, d, c, w.impls[w.cells[c].i].next);
    }
  }

  // ----- what is alive -----

  /** i can be reached from a cleaner the program holds, in at most n steps. */
  ghost predicate Reachable<C, I>(w: World<C, I>, i: I, n: nat)
    decreases n
  {
    exists c | c in w.cells ::
      w.cells[c] == To(i)
      && (Outer(w, c) || (n > 0 && exists j | j in w.impls :: w.impls[j].next == c && Reachable(w, j, n - 1)))
  }

  /** A cleaner that points at i is held by the program, or is the next of a younger impl. */
  ghost predicate Held<C, I>(w: World<C, I>, i: I)
    requires i in w.impls
  {
    exists c | c in w.cells :: w.cells[c] == To(i) && (Outer(w, c) || exists j | j in w.impls ::
      w.impls[j].next == c && w.impls[i].born < w.impls[j].born < w.clock)
  }

  lemma AllHeld<C, I>(w: World<C, I>, i: I)
    requires Inv(w) && i in w.impls
    ensures Held(w, i)
  {
    assert w.impls[i].owners != {};
    var c :| c in w.impls[i].owners;
    if !Outer(w, c) {
      var j :| j in w.impls && w.impls[j].next == c;
      assert w.impls[i].born < w.impls[j].born < w.clock;
    }
  }

  /** No impl outlives the last cleaner by which the program could reach it. */
  lemma LiveIsReachable<C, I>(w: World<C, I>, i: I)
    requires Inv(w) && i in w.impls
    ensures Reachable(w, i, w.clock - w.impls[i].born)
  {
    forall j | j in w.impls ensures Held(w, j) {
      AllHeld(w, j);
    }
    HeldIsReachable(w, i, w.clock - w.impls[i].born);
  }

  lemma {:induction false} HeldIsReachable<C, I>(w: World<C, I>, i: I, n: nat)
    requires i in w.impls && n == w.clock - w.impls[i].born
    requires forall j {:trigger Held(w, j)} | j in w.impls :: Held(w, j)
    ensures Reachable(w, i, n)
    decreases n
  {
    assert Held(w, i);
    var c :| c in w.cells && w.cells[c] == To(i) && (Outer(w, c) || exists j | j in w.impls ::
      w.impls[j].next == c && w.impls[i].born < w.impls[j].born < w.clock);
    if !Outer(w, c) {
      var j :| j in w.impls && w.impls[j].next == c && w.impls[i].born < w.impls[j].born < w.clock;
      HeldIsReachable(w, j, w.clock - w.impls[j].born);
      Farther(w, j, w.clock - w.impls[j].born, n - 1);
    }
  }

  lemma {:induction false} Farther<C, I>(w: World<C, I>, i: I, n: nat, m: nat)
    requires Reachable(w, i, n) && n <= m
    ensures Reachable(w, i, m)
    decreases n
  {
    var c :| c in w.cells && w.cells[c] == To(i)
             && (Outer(w, c) || (n > 0 && exists j | j in w.impls :: w.impls[j].next == c && Reachable(w, j, n - 1)));
    if !Outer(w, c) {
      var j :| j in w.impls && w.impls[j].next == c && Reachable(w, j, n - 1);
      Farther(w, j, n - 1, m - 1);
    }
  }

  ghost predicate HoldsNothing<C, I>(w: World<C, I>) {
    forall c | c in w.cells && Outer(w, c) :: w.cells[c].Empty?
  }

  lemma NoImpls<C, I>(w: World<C, I>)
    requires Inv(w) && HoldsNothing(w)
    ensures w.impls == map[]
  {
    if i :| i in w.impls {
      LiveIsReachable(w, i);
      NoneReachable(w, i, w.clock - w.impls[i].born);
    }
  }

  /** Once the program holds only empty cleaners, there are no impls and every action made has been done. */
  lemma NothingLeaks<C, I>(w: World<C, I>)
    requires Inv(w) && HoldsNothing(w)
    ensures w.impls == map[]
    ensures forall a | a in w.place :: a in w.ran
  {
    NoImpls(w);
    forall a | a in w.place ensures a in w.ran {
      if w.place[a].InRaw? {
        assert Outer(w, w.place[a].c);
      }
    }
  }

  lemma {:induction false} NoneReachable<C, I>(w: World<C, I>, i: I, n: nat)
    requires HoldsNothing(w)
    ensures !Reachable(w, i, n)
    decreases n
  {
    if n > 0 {
      forall j | j in w.impls ensures !Reachable(w, j, n - 1) {
        NoneReachable(w, j, n - 1);
      }
    }
  }

  // ----- whole runs -----

  datatype Op<C, I> =
    | Null(c: C) | Free(c: C, a: nat) | Make(c: C, i: I, n: C, src: C, a: nat) | MoveTo(d: C, c: C)
    | Share(d: C, c: C, i: I, n: C)
    | Destroy(c: C)

  ghost predicate Legal<C, I>(w: World<C, I>, op: Op<C, I>) {
    match op
    case Null(c) => c !in w.cells
    case Free(c, a) => c !in w.cells && a !in w.place
    case Make(c, i, n, src, a) => c !in w.cells && n !in w.cells && c != n && i !in w.impls && Outer(w, src)
        && a !in w.place
    case MoveTo(d, c) => d !in w.cells && Outer(w, c)
    case Share(d, c, i, n) => d !in w.cells && n !in w.cells && d != n && i !in w.impls && Outer(w, c)
    case Destroy(c) => Outer(w, c)
  }

  ghost function ShareOf<C, I>(w: World<C, I>, d: C, c: C, i: I, n: C): World<C, I>
    requires c in w.cells
  {
    match w.cells[c]
    case Empty => NewEmpty(w, d)
    case Raw(_) => AddRef(Promote(w, c, i, n), d, c)
    case To(_) => AddRef(w, d, c)
  }

  lemma ShareKeeps<C, I>(w: World<C, I>, d: C, c: C, i: I, n: C)
    requires Inv(w) && Legal(w, Share(d, c, i, n))
    ensures Inv(ShareOf(w, d, c, i, n)) && ShareOf(w, d, c, i, n).ran == w.ran
    ensures ShareOf(w, d, c, i, n).cells[d] == ShareOf(w, d, c, i, n).cells[c]
    ensures ShareOf(w, d, c, i, n).cells[c].Empty? <==> w.cells[c].Empty?
  {
    match w.cells[c]
    case Empty => NewEmptyKeeps(w, d);
    case Raw(_) =>
      PromoteKeeps(w, c, i, n);
      AddRefKeeps(Promote(w, c, i, n), d, c);
    case To(_) => AddRefKeeps(w, d, c);
  }

  lemma MakeKeeps<C, I>(w: World<C, I>, c: C, i: I, n: C, src: C, a: nat)
    requires Inv(w) && Legal(w, Op.Make(c, i, n, src, a))
    ensures Inv(Wrap(Move(w, n, src), c, i, n, a))
  {
    MoveKeeps(w, n, src);
    var w1 := Move(w, n, src);
    assert Outer(w1, n);
    WrapKeeps(w1, c, i, n, a);
  }

  lemma AddRefCounts<C, I>(w: World<C, I>, d: C, c: C)
    requires Inv(w) && c in w.cells && !w.cells[c].Raw? && d !in w.cells && Outer(w, c)
    ensures var w' := AddRef(w, d, c);
            && Outer(w', d) && Outer(w', c)
            && (w.cells[c].To? ==> w.cells[c].i in w'.impls && w'.impls[w.cells[c].i].refs > 1)
  {
    if w.cells[c].To? {
      assert c in w.impls[w.cells[c].i].owners;
    }
  }

  /** What is shared outlives one of its cleaners: destroying either does nothing. */
  lemma SharedOuter<C, I>(w: World<C, I>, d: C, c: C, i: I, n: C)
    requires Inv(w) && Legal(w, Op.Share(d, c, i, n))
    ensures Outer(ShareOf(w, d, c, i, n), d) && Outer(ShareOf(w, d, c, i, n), c)
    ensures Inv(ShareOf(w, d, c, i, n)) && Doom(ShareOf(w, d, c, i, n), d) == Doom(ShareOf(w, d, c, i, n), c) == []
  {
    ShareKeeps(w, d, c, i, n);
    if w.cells[c].Empty? {
      assert NewEmpty(w, d) == AddRef(w, d, c);
      AddRefCounts(w, d, c);
    } else if w.cells[c].Raw? {
      PromoteKeeps(w, c, i, n);
      AddRefCounts(Promote(w, c, i, n), d, c);
    } else {
      AddRefCounts(w, d, c);
    }
    DoomUnfolds(ShareOf(w, d, c, i, n), d);
    DoomUnfolds(ShareOf(w, d, c, i, n), c);
  }

  lemma AddRefThenLet<C, I>(w: World<C, I>, d: C, c: C)
    requires c in w.cells && d !in w.cells && !w.cells[c].Raw?
    requires w.cells[c].To? ==>
               w.cells[c].i in w.impls && d !in w.impls[w.cells[c].i].owners && w.impls[w.cells[c].i].refs > 0
    ensures Let(AddRef(w, d, c), d) == w && !Last(AddRef(w, d, c), d)
  {
    var w' := AddRef(w, d, c);
    if w.cells[c].To? {
      var j := w.cells[c].i;
      assert w'.impls[j].owners - {d} == w.impls[j].owners;
      assert w'.impls[j := w.impls[j]] == w.impls;
    }
    assert w'.cells - {d} == w.cells;
  }

  /** Sharing and destroying the copy leaves things as they were. */
  lemma ShareThenDestroy<C, I>(w: World<C, I>, d: C, c: C, i: I, n: C)
    requires Inv(w) && Legal(w, Op.Share(d, c, i, n)) && !w.cells[c].Raw?
    ensures var w' := ShareOf(w, d, c, i, n);
            Inv(w') && Outer(w', d) && Release(w', d) == w
  {
    SharedOuter(w, d, c, i, n);
    AddRefThenLet(w, d, c);
  }

  ghost function Step<C, I>(w: World<C, I>, op: Op<C, I>): World<C, I>
    requires Inv(w) && Legal(w, op)
  {
    match op
    case Null(c) => NewEmpty(w, c)
    case Free(c, a) => NewRaw(w, c, a)
    case Make(c, i, n, src, a) => Wrap(Move(w, n, src), c, i, n, a)
    case MoveTo(d, c) => Move(w, d, c)
    case Share(d, c, i, n) => ShareOf(w, d, c, i, n)
    case Destroy(c) => Release(w, c)
  }

  lemma StepKeeps<C, I>(w: World<C, I>, op: Op<C, I>)
    requires Inv(w) && Legal(w, op)
    ensures Inv(Step(w, op)) && w.ran <= Step(w, op).ran && w.place.Keys <= Step(w, op).place.Keys
  {
    match op
    case Null(c) => NewEmptyKeeps(w, c);
    case Free(c, a) => NewRawKeeps(w, c, a);
    case Make(c, i, n, src, a) => MakeKeeps(w, c, i, n, src, a);
    case MoveTo(d, c) => MoveKeeps(w, d, c);
    case Share(d, c, i, n) => ShareKeeps(w, d, c, i, n);
    case Destroy(c) => ReleaseDoes(w, c); ReleasePlaces(w, c);
  }

  ghost function Nothing<C, I>(): (w: World<C, I>)
    ensures Inv(w)
  {
    World(map[], map[], map[], [], 0)
  }

  ghost predicate Run<C, I>(w: World<C, I>, ops: seq<Op<C, I>>, w': World<C, I>)
    requires Inv(w)
    decreases ops
  {
    if ops == [] then w == w' else Legal(w, ops[0]) && (StepKeeps(w, ops[0]); Run(Step(w, ops[0]), ops[1..], w'))
  }

  lemma {:induction false} RunKeeps<C, I>(w: World<C, I>, ops: seq<Op<C, I>>, w': World<C, I>)
    requires Inv(w) && Run(w, ops, w')
    ensures Inv(w') && w.ran <= w'.ran && w.place.Keys <= w'.place.Keys
    decreases ops
  {
    if ops != [] {
      StepKeeps(w, ops[0]);
      RunKeeps(Step(w, ops[0]), ops[1..], w');
    }
  }

  /** In any program: the count of an impl is the number of cleaners that point at it, no action is done twice, and one
      that is done when the program holds nothing more is every one there was. */
  lemma EveryActionOnce<C, I>(ops: seq<Op<C, I>>, w: World<C, I>)
    requires Run(Nothing<C, I>(), ops, w)
    ensures forall c | c in w.cells && w.cells[c].To? ::
              w.cells[c].i in w.impls && w.impls[w.cells[c].i].refs == |Sharers(w, c)|
    ensures forall j, k | 0 <= j < k < |w.ran| :: w.ran[j] != w.ran[k]
    ensures HoldsNothing(w) ==> forall a | a in w.place :: a in w.ran
  {
    RunKeeps(Nothing<C, I>(), ops, w);
    forall c | c in w.cells && w.cells[c].To?
      ensures w.cells[c].i in w.impls && w.impls[w.cells[c].i].refs == |Sharers(w, c)|
    {
      SharersCounted(w, c);
    }
    if HoldsNothing(w) {
      NothingLeaks(w);
    }
  }
}
