/** The reference-counted cleaner handles of src/cleaner.h. */
module Cleaner {
  import opened Wrappers
  import opened CleanerGraph

  ghost predicate HandlesAre(cells: map<Handle, Target<Node>>)
    reads cells.Keys
  {
    forall c | c in cells :: c.impl == cells[c]
  }

  ghost predicate NodesAre(impls: map<Node, Impl<Handle>>)
    reads impls.Keys
  {
    forall i | i in impls :: i.refs == impls[i].refs && i.next == impls[i].next && i.act == impls[i].act
  }

  /** Impls that differ in the bookkeeping only. */
  ghost predicate SameNodes(a: map<Node, Impl<Handle>>, b: map<Node, Impl<Handle>>) {
    a.Keys == b.Keys && forall i | i in a :: a[i].refs == b[i].refs && a[i].next == b[i].next && a[i].act == b[i].act
  }

  lemma NodesFollow(a: map<Node, Impl<Handle>>, b: map<Node, Impl<Handle>>)
    requires NodesAre(a) && SameNodes(a, b)
    ensures NodesAre(b)
  {
  }

  lemma MoveParts(w: World<Handle, Node>, d: Handle, c: Handle)
    requires c in w.cells
    ensures SameNodes(w.impls, CleanerGraph.Move(w, d, c).impls)
  {
  }

  /** The actions done so far, and what there is of cleaners and impls. */
  class Memory {
    var done: seq<nat>
    ghost var now: World<Handle, Node>

    ghost predicate Faithful()
      reads this, now.cells.Keys, now.impls.Keys
    {
      done == now.ran && HandlesAre(now.cells) && NodesAre(now.impls)
    }

    ghost predicate Valid()
      reads this, now.cells.Keys, now.impls.Keys
    {
      Inv(now) && Faithful()
    }

    /** The bookkeeping follows the objects. */
    ghost method Note(w: World<Handle, Node>)
      requires done == w.ran && HandlesAre(w.cells) && NodesAre(w.impls)
      modifies this`now
      ensures Faithful() && now == w
    {
      now := w;
    }

    constructor ()
      ensures Valid() && now == Nothing() && done == []
    {
      done, now := [], Nothing();
    }
  }

  /** cleaner::impl; the action stands for the body of the derived destructor. */
  class Node {
    var refs: int
    const next: Handle
    const act: nat

    constructor (next: Handle, act: nat)
      ensures refs == 1 && this.next == next && this.act == act
    {
      refs, this.next, this.act := 1, next, act;
    }
  }

  class Handle {
    var impl: Target<Node>

    constructor Null(m: Memory)
      requires m.Valid()
      modifies m`now
      ensures m.Valid() && m.now == NewEmpty(old(m.now), this)
    {
      impl := Empty;
      new;
      NewEmptyKeeps(m.now, this);
      m.Note(NewEmpty(m.now, this));
    }

    /** make_free_cleaner: no impl, only the tagged address. */
    constructor Free(m: Memory, a: nat)
      requires m.Valid() && a !in m.now.place
      modifies m`now
      ensures m.Valid() && m.now == NewRaw(old(m.now), this, a)
    {
      impl := Raw(a);
      new;
      NewRawKeeps(m.now, this, a);
      m.Note(NewRaw(m.now, this, a));
    }

    /** The move constructor. */
    constructor Move(m: Memory, other: Handle)
      requires m.Valid() && Outer(m.now, other)
      modifies m`now, other
      ensures m.Valid() && m.now == CleanerGraph.Move(old(m.now), this, other) && Outer(m.now, this)
    {
      impl := Empty;
      new;
      MoveKeeps(m.now, this, other);
      MoveHolds(m.now, this, other);
      TakeFrom(m, other);
    }

    method TakeFrom(m: Memory, other: Handle)
      requires m.Faithful() && other in m.now.cells && this !in m.now.cells
      modifies m`now, this, other
      ensures m.Faithful() && m.now == CleanerGraph.Move(old(m.now), this, other)
    {
      MoveParts(m.now, this, other);
      impl := other.impl;
      other.impl := Empty;
      NodesFollow(m.now.impls, CleanerGraph.Move(m.now, this, other).impls);
      m.Note(CleanerGraph.Move(m.now, this, other));
    }

    constructor Pointer(t: Target<Node>)
      ensures impl == t
    {
      impl := t;
    }

    /** `cleaner(new impl(...))`: a new handle on a new impl around n. */
    static method Of(m: Memory, n: Handle, a: nat) returns (c: Handle)
      requires m.Valid() && Outer(m.now, n) && a !in m.now.place
      modifies m`now
      ensures m.Valid() && fresh(c) && c.impl.To? && fresh(c.impl.i) && c.impl.i.next == n
      ensures m.now == Wrap(old(m.now), c, c.impl.i, n, a)
    {
      var i := new Node(n, a);
      c := new Handle.Pointer(To(i));
      WrapKeeps(m.now, c, i, n, a);
      c.Hold(m, i);
    }

    method Hold(m: Memory, i: Node)
      requires m.Faithful() && this !in m.now.cells && i !in m.now.impls && i.refs == 1 && impl == To(i)
      modifies m`now
      ensures m.Faithful() && m.now == Wrap(old(m.now), this, i, i.next, i.act)
    {
      m.Note(Wrap(m.now, this, i, i.next, i.act));
    }

    /** make_lambda_cleaner and make_object_cleaner: `next` moves into the impl. */
    static method Make(m: Memory, next: Handle, a: nat) returns (c: Handle)
      requires m.Valid() && Outer(m.now, next) && a !in m.now.place
      modifies m`now, next
      ensures m.Valid() && fresh(c) && c.impl.To? && fresh(c.impl.i) && fresh(c.impl.i.next)
      ensures m.now == Wrap(CleanerGraph.Move(old(m.now), c.impl.i.next, next), c, c.impl.i, c.impl.i.next, a)
    {
      var n := new Handle.Move(m, next);
      c := Of(m, n, a);
    }

    /** share */
    method Share(m: Memory) returns (c: Handle)
      requires m.Valid() && Outer(m.now, this)
      modifies m`now, this, m.now.impls.Keys
      ensures m.Valid() && fresh(c) && c.impl == impl
      ensures impl.Empty? <==> old(impl.Empty?)
      ensures impl.To? ==> m.now == ShareOf(old(m.now), c, this, impl.i, impl.i.next)
      ensures impl.Empty? ==> m.now == NewEmpty(old(m.now), c)
      ensures old(impl).To? ==> impl == old(impl)
      ensures old(impl).Raw? ==> impl.To? && fresh(impl.i)
    {
      if impl.Empty? {
        c := new Handle.Null(m);
        return;
      }
      if impl.Raw? {
        ToImpl(m);
      }
      c := Another(m);
    }

    /** `_impl = new free_cleaner_impl(to_raw_point())` */
    method ToImpl(m: Memory)
      requires m.Valid() && Outer(m.now, this) && impl.Raw?
      modifies m`now, this
      ensures m.Valid() && impl.To? && fresh(impl.i) && fresh(impl.i.next)
      ensures m.now == Promote(old(m.now), this, impl.i, impl.i.next)
    {
      var n := new Handle.Blank();
      var i := new Node(n, impl.a);
      PromoteKeeps(m.now, this, i, n);
      Replace(m, i);
    }

    method Replace(m: Memory, i: Node)
      requires m.Faithful() && this in m.now.cells && impl == Raw(i.act)
      requires i !in m.now.impls && i.refs == 1 && i.next != this && i.next.impl == Empty
      modifies m`now, this
      ensures m.Faithful() && impl == To(i) && m.now == Promote(old(m.now), this, i, i.next)
    {
      impl := To(i);
      m.Note(Promote(m.now, this, i, i.next));
    }

    constructor Blank()
      ensures impl == Empty
    {
      impl := Empty;
    }

    /** `++_impl->refs; return cleaner(_impl);` */
    method Another(m: Memory) returns (c: Handle)
      requires m.Valid() && this in m.now.cells && impl.To?
      modifies m`now, m.now.impls.Keys
      ensures m.Valid() && fresh(c) && c.impl == impl && m.now == AddRef(old(m.now), c, this)
    {
      c := new Handle.Pointer(impl);
      AddRefKeeps(m.now, c, this);
      c.Ref(m, this, impl.i);
    }

    method Ref(m: Memory, ghost other: Handle, i: Node)
      requires m.Faithful() && other in m.now.cells && this !in m.now.cells && m.now.cells[other] == To(i) == impl
          && i in m.now.impls
      modifies m`now, i
      ensures m.Faithful() && m.now == AddRef(old(m.now), this, other)
    {
      ghost var impls := m.now.impls;
      Count(i, 1, impls);
      NodesFollow(impls[i := impls[i].(refs := impls[i].refs + 1)], AddRef(m.now, this, other).impls);
      m.Note(AddRef(m.now, this, other));
    }

    static method Count(i: Node, delta: int, ghost impls: map<Node, Impl<Handle>>)
      requires NodesAre(impls) && i in impls
      modifies i
      ensures NodesAre(impls[i := impls[i].(refs := impls[i].refs + delta)])
    {
      i.refs := i.refs + delta;
    }

    /** ~cleaner: the last one deletes the impl, which does its action and then destroys its next. */
    method Destroy(m: Memory)
      requires m.Valid() && Outer(m.now, this)
      modifies m, m.now.impls.Keys
      ensures m.Valid() && m.now == Release(old(m.now), this) && this !in m.now.cells
      decreases |m.now.impls|
    {
      ghost var w := m.now;
      LetKeeps(w, this);
      ReleaseEnds(w, this);
      var n := LetGo(m);
      if n.Some? {
        NextFreed(w, this);
        n.value.Destroy(m);
      }
    }

    /** All but the destruction of next, which is handed back if it is due. */
    method LetGo(m: Memory) returns (n: Option<Handle>)
      requires m.Faithful() && this in m.now.cells && (impl.To? ==> impl.i in m.now.impls)
      modifies m, m.now.impls.Keys
      ensures m.Faithful() && m.now == Let(old(m.now), this)
      ensures n == if Last(old(m.now), this) then Some(old(m.now).impls[impl.i].next) else None
      ensures m.now.impls.Keys <= old(m.now.impls.Keys)
    {
      n := None;
      if impl.To? {
        n := Unref(m, impl.i);
      } else {
        if impl.Raw? {
          m.done := m.done + [impl.a];
        }
        m.Note(Let(m.now, this));
      }
    }

    method Unref(m: Memory, i: Node) returns (n: Option<Handle>)
      requires m.Faithful() && this in m.now.cells && m.now.cells[this] == To(i) && i in m.now.impls
      modifies m, i
      ensures m.Faithful() && m.now == Let(old(m.now), this)
      ensures n == if Last(old(m.now), this) then Some(old(m.now).impls[i].next) else None
    {
      ghost var impls := m.now.impls;
      Count(i, -1, impls);
      n := None;
      if i.refs == 0 {
        m.done := m.done + [i.act];
        n := Some(i.next);
      } else {
        NodesFollow(impls[i := impls[i].(refs := impls[i].refs - 1)], Let(m.now, this).impls);
      }
      m.Note(Let(m.now, this));
    }

    /** refs: the number of cleaners that share what this one holds. */
    method Refs(ghost m: Memory) returns (n: int)
      requires m.Valid() && this in m.now.cells
      ensures n == if impl.Empty? then 0 else |Sharers(m.now, this)|
    {
      SharersCounted(m.now, this);
      n := if impl.Empty? then 0 else if impl.Raw? then 1 else impl.i.refs;
    }
  }
}
