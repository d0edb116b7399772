/** The distribution of memory from NUMA nodes to cpus in src/resource_hwloc.cpp. */
module Resource {
  import opened Wrappers

  /** Memory given to a cpu: how much, from which node. */
  datatype Mem = Mem(node: nat, bytes: nat)

  function Sum(s: seq<nat>): nat {
    if s == [] then 0 else Sum(s[..|s| - 1]) + s[|s| - 1]
  }

  lemma {:induction false} SumUpdate(s: seq<nat>, i: nat, x: nat)
    requires i < |s|
    ensures Sum(s[i := x]) == Sum(s) - s[i] + x
  {
    var n := |s| - 1;
    if i < n {
      SumUpdate(s[..n], i, x);
      assert s[i := x][..n] == s[..n][i := x];
    } else {
      assert s[i := x][..n] == s[..n];
    }
  }

  lemma {:induction false} SumAtMost(s: seq<nat>, t: seq<nat>)
    requires |s| == |t| && forall i | 0 <= i < |s| :: s[i] <= t[i]
    ensures Sum(s) <= Sum(t)
    ensures Sum(s) == Sum(t) <==> s == t
  {
    if s != [] {
      SumAtMost(s[..|s| - 1], t[..|t| - 1]);
      assert s == s[..|s| - 1] + [s[|s| - 1]] && t == t[..|t| - 1] + [t[|t| - 1]];
    }
  }

  /** n shares of x. */
  function Even(n: nat, x: nat): (s: seq<nat>)
    ensures |s| == n && forall i | 0 <= i < n :: s[i] == x
  {
    if n == 0 then [] else Even(n - 1, x) + [x]
  }

  lemma {:induction false} EvenSum(n: nat, x: nat)
    ensures Sum(Even(n, x)) == n * x
  {
    if n > 0 {
      EvenSum(n - 1, x);
      assert Even(n, x)[..n - 1] == Even(n - 1, x);
      assert n * x == (n - 1) * x + x;
    }
  }

  /** What a cpu was given in all. */
  function Total(ms: seq<Mem>): nat {
    if ms == [] then 0 else Total(ms[..|ms| - 1]) + ms[|ms| - 1].bytes
  }

  /** What a cpu was given from one node. */
  function From(ms: seq<Mem>, node: nat): nat {
    if ms == [] then 0 else From(ms[..|ms| - 1], node) + if ms[|ms| - 1].node == node then ms[|ms| - 1].bytes else 0
  }

  lemma Given(ms: seq<Mem>, m: Mem, node: nat)
    ensures Total(ms + [m]) == Total(ms) + m.bytes
    ensures From(ms + [m], node) == From(ms, node) + if m.node == node then m.bytes else 0
  {
    assert (ms + [m])[..|ms|] == ms;
  }

  function Totals(cpus: seq<seq<Mem>>): (s: seq<nat>)
    ensures |s| == |cpus| && forall i | 0 <= i < |cpus| :: s[i] == Total(cpus[i])
  {
    seq(|cpus|, i requires 0 <= i < |cpus| => Total(cpus[i]))
  }

  function Taken(cpus: seq<seq<Mem>>, node: nat): (s: seq<nat>)
    ensures |s| == |cpus| && forall i | 0 <= i < |cpus| :: s[i] == From(cpus[i], node)
  {
    seq(|cpus|, i requires 0 <= i < |cpus| => From(cpus[i], node))
  }

  /** Node n gives no more than it has, and used says what it has given. */
  ghost predicate NodeOk(cap: seq<nat>, used: seq<nat>, cpus: seq<seq<Mem>>, n: nat)
    requires |used| == |cap| && n < |cap|
  {
    used[n] <= cap[n] && Sum(Taken(cpus, n)) == used[n]
  }

  /** So it is for every node, and no byte is counted twice. */
  ghost predicate Accounted(cap: seq<nat>, used: seq<nat>, cpus: seq<seq<Mem>>) {
    && |used| == |cap| && (forall n | 0 <= n < |cap| :: NodeOk(cap, used, cpus, n))
    && Sum(used) == Sum(Totals(cpus))
  }

  lemma TakenUpdate(cpus: seq<seq<Mem>>, k: nat, m: Mem, n: nat)
    requires k < |cpus|
    ensures Sum(Taken(cpus[k := cpus[k] + [m]], n)) == Sum(Taken(cpus, n)) + if m.node == n then m.bytes else 0
  {
    var cpus' := cpus[k := cpus[k] + [m]];
    Given(cpus[k], m, n);
    assert Taken(cpus', n) == Taken(cpus, n)[k := From(cpus'[k], n)];
    SumUpdate(Taken(cpus, n), k, From(cpus'[k], n));
  }

  lemma TotalsUpdate(cpus: seq<seq<Mem>>, k: nat, m: Mem)
    requires k < |cpus|
    ensures Sum(Totals(cpus[k := cpus[k] + [m]])) == Sum(Totals(cpus)) + m.bytes
  {
    var cpus' := cpus[k := cpus[k] + [m]];
    Given(cpus[k], m, 0);
    assert Totals(cpus') == Totals(cpus)[k := Total(cpus'[k])];
    SumUpdate(Totals(cpus), k, Total(cpus'[k]));
  }

  lemma NodePasses(cap: seq<nat>, used: seq<nat>, cpus: seq<seq<Mem>>, k: nat, m: Mem, n: nat)
    requires |used| == |cap| && n < |cap| && NodeOk(cap, used, cpus, n)
    requires k < |cpus| && m.node < |cap| && used[m.node] + m.bytes <= cap[m.node]
    ensures NodeOk(cap, used[m.node := used[m.node] + m.bytes], cpus[k := cpus[k] + [m]], n)
  {
    TakenUpdate(cpus, k, m, n);
  }

  lemma NodesPass(cap: seq<nat>, used: seq<nat>, cpus: seq<seq<Mem>>, k: nat, m: Mem, used': seq<nat>,
          cpus': seq<seq<Mem>>)
    requires |used| == |cap| && forall n | 0 <= n < |cap| :: NodeOk(cap, used, cpus, n)
    requires k < |cpus| && m.node < |cap| && used[m.node] + m.bytes <= cap[m.node]
    requires used' == used[m.node := used[m.node] + m.bytes] && cpus' == cpus[k := cpus[k] + [m]]
    ensures forall n | 0 <= n < |cap| :: NodeOk(cap, used', cpus', n)
  {
    forall n | 0 <= n < |cap| ensures NodeOk(cap, used', cpus', n) {
      NodePasses(cap, used, cpus, k, m, n);
    }
  }

  lemma SumsPass(used: seq<nat>, cpus: seq<seq<Mem>>, k: nat, m: Mem, used': seq<nat>, cpus': seq<seq<Mem>>)
    requires Sum(used) == Sum(Totals(cpus)) && k < |cpus| && m.node < |used|
    requires used' == used[m.node := used[m.node] + m.bytes] && cpus' == cpus[k := cpus[k] + [m]]
    ensures Sum(used') == Sum(Totals(cpus'))
  {
    TotalsUpdate(cpus, k, m);
    SumUpdate(used, m.node, used[m.node] + m.bytes);
  }

  /** Bytes pass from a node to a cpu. */
  lemma Passes(cap: seq<nat>, used: seq<nat>, cpus: seq<seq<Mem>>, k: nat, m: Mem, used': seq<nat>,
          cpus': seq<seq<Mem>>)
    requires Accounted(cap, used, cpus) && k < |cpus| && m.node < |cap| && used[m.node] + m.bytes <= cap[m.node]
    requires used' == used[m.node := used[m.node] + m.bytes] && cpus' == cpus[k := cpus[k] + [m]]
    ensures Accounted(cap, used', cpus')
  {
    NodesPass(cap, used, cpus, k, m, used', cpus');
    SumsPass(used, cpus, k, m, used', cpus');
  }

  lemma WithinCapacity(cap: seq<nat>, used: seq<nat>, cpus: seq<seq<Mem>>)
    requires Accounted(cap, used, cpus)
    ensures Sum(Totals(cpus)) == Sum(used) <= Sum(cap)
  {
    forall n | 0 <= n < |cap| ensures used[n] <= cap[n] {
      assert NodeOk(cap, used, cpus, n);
    }
    SumAtMost(used, cap);
  }

  lemma NewCpu(cap: seq<nat>, used: seq<nat>, cpus: seq<seq<Mem>>)
    requires Accounted(cap, used, cpus)
    ensures Accounted(cap, used, cpus + [[]])
  {
    assert (cpus + [[]])[..|cpus|] == cpus;
    forall n | 0 <= n < |cap| ensures NodeOk(cap, used, cpus + [[]], n) {
      assert NodeOk(cap, used, cpus, n);
      assert Taken(cpus + [[]], n)[..|cpus|] == Taken(cpus, n);
    }
    assert Totals(cpus + [[]])[..|cpus|] == Totals(cpus);
  }

  // ----- the ring of nodes -----

  /** The node that is `seen` places on from home. */
  function At(home: nat, seen: nat, n: nat): (obj: nat)
    requires home < n && seen <= n
    ensures obj < n
  {
    if home + seen < n then home + seen else home + seen - n
  }

  /** The nodes seen, from home on and around, have nothing left. */
  ghost predicate Spent(cap: seq<nat>, used: seq<nat>, home: nat, seen: nat) {
    && |used| == |cap|
    && forall n | 0 <= n < |cap| :: home <= n < home + seen || n + |cap| < home + seen ==> used[n] == cap[n]
  }

  lemma AllSpent(cap: seq<nat>, used: seq<nat>, home: nat, remain: nat)
    requires home < |cap| && (remain > 0 ==> Spent(cap, used, home, |cap|))
    ensures remain > 0 ==> used == cap
  {
    if remain > 0 {
      forall n | 0 <= n < |cap| ensures used[n] == cap[n] {
      }
    }
  }

  /** The first i cpus have their share, the others lack what remains says. */
  ghost predicate Served(cpus: seq<seq<Mem>>, remains: seq<nat>, i: nat, share: nat) {
    && |cpus| == |remains| && i <= |cpus|
    && (forall j | 0 <= j < i :: Total(cpus[j]) == share)
    && (forall j | i <= j < |cpus| :: Total(cpus[j]) + remains[j] == share)
  }

  lemma ServedNext(cpus: seq<seq<Mem>>, cpus': seq<seq<Mem>>, remains: seq<nat>, i: nat, share: nat, remain: nat)
    requires Served(cpus, remains, i, share) && i < |cpus| == |cpus'| && cpus' == cpus[i := cpus'[i]]
    requires remain <= remains[i] && Total(cpus'[i]) == Total(cpus[i]) + (remains[i] - remain)
    ensures Total(cpus'[i]) + remain == share && forall j | 0 <= j < |cpus'| :: Total(cpus'[j]) <= share
    ensures remain == 0 ==> Served(cpus', remains, i + 1, share)
  {
  }

  class Allocator {
    const cap: seq<nat>        // local memory of each node
    var used: seq<nat>
    var cpus: seq<seq<Mem>>

    ghost predicate Valid()
      reads this
    {
      Accounted(cap, used, cpus)
    }

    constructor (cap: seq<nat>)
      ensures Valid() && this.cap == cap && cpus == []
    {
      this.cap, used, cpus := cap, seq(|cap|, _ => 0), [];
      new;
      Unused(cap);
    }

    static lemma Unused(cap: seq<nat>)
      ensures Accounted(cap, seq(|cap|, _ => 0), [])
    {
      var z: seq<nat> := seq(|cap|, _ => 0);
      ZeroSum(z);
    }

    static lemma {:induction false} ZeroSum(z: seq<nat>)
      requires forall i | 0 <= i < |z| :: z[i] == 0
      ensures Sum(z) == 0
    {
      if z != [] {
        ZeroSum(z[..|z| - 1]);
      }
    }

    /** alloc_from_node: as much of size as the node has left goes to cpu k. */
    method AllocFromNode(k: nat, node: nat, size: nat) returns (need: nat)
      requires Valid() && k < |cpus| && node < |cap|
      modifies this
      ensures Valid() && need == (if cap[node] - old(used)[node] < size then cap[node] - old(used)[node] else size)
      ensures used == old(used)[node := old(used)[node] + need]
      ensures |cpus| == |old(cpus)| && cpus == old(cpus)[k := cpus[k]]
      ensures Total(cpus[k]) == Total(old(cpus)[k]) + need
    {
      assert NodeOk(cap, used, cpus, node);
      need := if cap[node] - used[node] < size then cap[node] - used[node] else size;
      if need != 0 {
        Give(k, Mem(node, need));
      }
    }

    method Give(k: nat, m: Mem)
      requires Valid() && k < |cpus| && m.node < |cap| && used[m.node] + m.bytes <= cap[m.node]
      modifies this
      ensures Valid() && used == old(used)[m.node := old(used)[m.node] + m.bytes]
          && cpus == old(cpus)[k := old(cpus)[k] + [m]]
      ensures Total(cpus[k]) == Total(old(cpus)[k]) + m.bytes
    {
      Passes(cap, used, cpus, k, m, used[m.node := used[m.node] + m.bytes], cpus[k := cpus[k] + [m]]);
      Given(cpus[k], m, 0);
      used := used[m.node := used[m.node] + m.bytes];
      cpus := cpus[k := cpus[k] + [m]];
    }

    /** hwloc_get_next_obj_by_depth, again if it has come to the end. */
    method NextNode(node: nat) returns (next: nat)
      requires node < |cap|
      ensures next == if node + 1 < |cap| then node + 1 else 0
    {
      var obj := if node + 1 < |cap| then Some(node + 1) else None;
      while obj.None?
        invariant obj == None || obj == Some(if node + 1 < |cap| then node + 1 else 0)
        invariant obj.None? ==> node + 1 == |cap|
        decreases if obj.None? then 1 else 0
      {
        obj := Some(0);
      }
      next := obj.value;
    }

    /** The second phase for cpu k: around the ring of nodes, from its own. */
    method WalkRing(k: nat, home: nat, short: nat) returns (remain: nat)
      requires Valid() && k < |cpus| && home < |cap|
      modifies this
      ensures Valid() && |cpus| == |old(cpus)| && cpus == old(cpus)[k := cpus[k]]
      ensures remain <= short && Total(cpus[k]) == Total(old(cpus)[k]) + (short - remain)
      ensures remain > 0 ==> used == cap
    {
      remain := short;
      var obj := home;
      ghost var seen: nat := 0;
      while remain != 0
        invariant Valid() && |cpus| == |old(cpus)| && cpus == old(cpus)[k := cpus[k]]
        invariant remain <= short && Total(cpus[k]) == Total(old(cpus)[k]) + (short - remain)
        invariant seen < |cap| && obj == At(home, seen, |cap|) && (remain > 0 ==> Spent(cap, used, home, seen))
        decreases |cap| - seen
      {
        remain, obj := Visit(k, obj, remain, home, seen);
        seen := seen + 1;
        if obj == home {
          AllSpent(cap, used, home, remain);
          break;
        }
      }
    }

    /** One node of the ring; if it does not suffice, it is used up. */
    method Visit(k: nat, obj: nat, remain: nat, ghost home: nat, ghost seen: nat) returns (remain': nat, next: nat)
      requires Valid() && k < |cpus| && home < |cap| && seen < |cap| && obj == At(home, seen, |cap|)
      requires Spent(cap, used, home, seen)
      modifies this
      ensures Valid() && |cpus| == |old(cpus)| && cpus == old(cpus)[k := cpus[k]]
      ensures remain' <= remain && Total(cpus[k]) == Total(old(cpus)[k]) + (remain - remain')
      ensures next == At(home, seen + 1, |cap|) && (remain' > 0 ==> Spent(cap, used, home, seen + 1))
    {
      var need := AllocFromNode(k, obj, remain);
      remain' := remain - need;
      next := NextNode(obj);
    }

    /** The first phase: each cpu takes what it can from its own node. */
    method TakeLocal(homes: seq<nat>, share: nat) returns (remains: seq<nat>)
      requires Valid() && cpus == [] && forall i | 0 <= i < |homes| :: homes[i] < |cap|
      modifies this
      ensures Valid() && |cpus| == |remains| == |homes|
      ensures forall i | 0 <= i < |homes| :: Total(cpus[i]) + remains[i] == share
    {
      remains := [];
      var i := 0;
      while i < |homes|
        invariant Valid() && |cpus| == |remains| == i <= |homes|
        invariant forall j | 0 <= j < i :: Total(cpus[j]) + remains[j] == share
      {
        NewCpu(cap, used, cpus);
        cpus := cpus + [[]];
        var got := AllocFromNode(i, homes[i], share);
        remains := remains + [share - got];
        i := i + 1;
      }
    }

    /**
     The memory of allocate_resource.  ok is false if `assert(!remain)` would fail, which is so exactly if the nodes have
     less than all the cpus are to get; otherwise every cpu gets just its share and no node gives more than it has.
     */
    method Distribute(homes: seq<nat>, share: nat) returns (ok: bool)
      requires Valid() && cpus == [] && forall i | 0 <= i < |homes| :: homes[i] < |cap|
      modifies this
      ensures Valid() && |cpus| == |homes|
      ensures ok <==> Sum(cap) >= |homes| * share
      ensures ok ==> forall i | 0 <= i < |homes| :: Total(cpus[i]) == share
    {
      var remains := TakeLocal(homes, share);
      var i := 0;
      while i < |homes|
        invariant Valid() && |cpus| == |remains| == |homes| && i <= |homes|
        invariant Served(cpus, remains, i, share)
      {
        ghost var was := cpus;
        var remain := WalkRing(i, homes[i], remains[i]);
        ServedNext(was, cpus, remains, i, share, remain);
        if remain != 0 {
          TooLittle(share, i);
          return false;
        }
        i := i + 1;
      }
      assert forall j | 0 <= j < |homes| :: Total(cpus[j]) == share;
      Enough(share);
      ok := true;
    }

    lemma Enough(share: nat)
      requires Valid() && forall i | 0 <= i < |cpus| :: Total(cpus[i]) == share
      ensures Sum(cap) >= |cpus| * share
    {
      assert Totals(cpus) == Even(|cpus|, share);
      WithinCapacity(cap, used, cpus);
      EvenSum(|cpus|, share);
    }

    /** With every node used up and some cpu short of its share, there is less than all were to get. */
    lemma TooLittle(share: nat, k: nat)
      requires Valid() && used == cap && k < |cpus| && Total(cpus[k]) < share
      requires forall i | 0 <= i < |cpus| :: Total(cpus[i]) <= share
      ensures Sum(cap) < |cpus| * share
    {
      SumAtMost(Totals(cpus), Even(|cpus|, share));
      assert Totals(cpus)[k] != Even(|cpus|, share)[k];
      EvenSum(|cpus|, share);
    }
  }
}
