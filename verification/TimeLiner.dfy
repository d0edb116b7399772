/** The timer index of src/time_liner.h: W+1 lists of timers bucketed by the leading zeros of `timeout ^ last`. */
module TimeLine {
  import opened Bits
  import opened Wrappers

  datatype Timer = Timer(id: nat, timeout: nat)

  function MaxTs(w: nat): nat {
    Pow2(w) - 1
  }

  /** The list a timestamp belongs to while `last` is the time of the latest expiry. */
  function Index(w: nat, last: nat, ts: nat): (i: nat)
    requires last < Pow2(w) && ts < Pow2(w)
    ensures i <= w
    ensures i == w <==> ts <= last
  {
    DiffAtMost(ts, last, w);
    DiffUnfold(ts, last);
    if ts <= last then w else Clz(w, Xor(ts, last))
  }

  function Max(a: nat, b: nat): nat {
    if a < b then b else a
  }

  /** All timers of a sequence of lists. */
  function Union(ls: seq<seq<Timer>>): multiset<Timer> {
    if ls == [] then multiset{} else Union(ls[..|ls| - 1]) + multiset(ls[|ls| - 1])
  }

  /** n times w, added up. */
  function Budget(w: nat, n: nat): nat {
    if n == 0 then 0 else w + Budget(w, n - 1)
  }

  lemma {:induction false} BudgetIsProduct(w: nat, n: nat)
    ensures Budget(w, n) == w * n
  {
    if n > 0 {
      BudgetIsProduct(w, n - 1);
    }
  }

  /** Re-bucketings still possible: a timer in list i can move up at most w - i times. */
  function Potential(w: nat, ls: seq<seq<Timer>>): nat
    requires |ls| <= w + 1
  {
    if ls == [] then 0
    else Potential(w, ls[..|ls| - 1]) + Budget(w + 1 - |ls|, |ls[|ls| - 1]|)
  }

  /** Every timer is in the list its timeout selects, and none is due before `next`. */
  ghost predicate Bucketed(w: nat, last: nat, next: nat, ls: seq<seq<Timer>>)
    requires last < Pow2(w)
  {
    forall i, t | 0 <= i < |ls| && t in ls[i] ::
      t.timeout < Pow2(w) && Index(w, last, t.timeout) == i && next <= t.timeout
  }

  /** The bitset read as an integer: bit i has weight 2^i. */
  function ToUlong(b: seq<bool>): nat {
    if b == [] then 0 else (if b[0] then 1 else 0) + 2 * ToUlong(b[1..])
  }

  /** Larger index, strictly earlier timer. */
  lemma LaterListIsEarlier(w: nat, last: nat, x: nat, y: nat)
    requires last < Pow2(w) && x < Pow2(w) && y < Pow2(w)
    requires Index(w, last, x) < Index(w, last, y)
    ensures y < x
  {
    if last < y {
      DiffAtMost(x, last, w);
      DiffAtMost(y, last, w);
      LowerDiffIsSmaller(last, y, x);
    }
  }

  /** What advancing `last` to now does to a timer, by the list it is in relative to now's own list. */
  lemma AdvanceIndex(w: nat, last: nat, now: nat, ts: nat)
    requires last <= now < Pow2(w) && ts < Pow2(w)
    ensures Index(w, last, ts) < Index(w, last, now) ==> now < ts && Index(w, now, ts) == Index(w, last, ts)
    ensures Index(w, last, ts) > Index(w, last, now) ==> ts < now
    ensures Index(w, last, ts) == Index(w, last, now) && now < ts ==> Index(w, now, ts) > Index(w, last, ts)
  {
    DiffAtMost(ts, last, w);
    DiffAtMost(now, last, w);
    DiffAtMost(ts, now, w);
    if last < now && last < ts {
      if Diff(now, last) < Diff(ts, last) {
        HigherDiffIsKept(last, now, ts);
      } else if Diff(ts, last) < Diff(now, last) {
        LowerDiffIsSmaller(last, ts, now);
      } else if now < ts {
        SameDiffShrinks(last, now, ts);
      }
    }
  }

  /** ls and ks differ at most in list i. */
  ghost predicate SameBut(ls: seq<seq<Timer>>, ks: seq<seq<Timer>>, i: nat) {
    i < |ls| == |ks| && forall j :: 0 <= j < |ls| && j != i ==> ks[j] == ls[j]
  }

  lemma AddBoth(a: multiset<Timer>, b: multiset<Timer>, c: multiset<Timer>, d: multiset<Timer>, e: multiset<Timer>)
    requires a + b == c + d
    ensures (a + e) + b == (c + e) + d
  {
    assert forall t :: ((a + e) + b)[t] == (a + b)[t] + e[t];
    assert forall t :: ((c + e) + d)[t] == (c + d)[t] + e[t];
  }

  lemma CancelRight(a: multiset<Timer>, b: multiset<Timer>, c: multiset<Timer>)
    requires a + c == b + c
    ensures a == b
  {
    assert forall t :: (a + c)[t] == a[t] + c[t] && (b + c)[t] == b[t] + c[t];
  }

  lemma {:induction false} UnionUpdate(ls: seq<seq<Timer>>, ks: seq<seq<Timer>>, i: nat)
    requires SameBut(ls, ks, i)
    ensures Union(ks) + multiset(ls[i]) == Union(ls) + multiset(ks[i])
  {
    var n := |ls| - 1;
    if i < n {
      UnionUpdate(ls[..n], ks[..n], i);
      AddBoth(Union(ks[..n]), multiset(ls[i]), Union(ls[..n]), multiset(ks[i]), multiset(ls[n]));
    } else {
      assert ks[..n] == ls[..n];
    }
  }

  lemma {:induction false} UnionMember(ls: seq<seq<Timer>>, t: Timer)
    ensures t in Union(ls) <==> exists i :: 0 <= i < |ls| && t in ls[i]
  {
    if ls != [] {
      var n := |ls| - 1;
      UnionMember(ls[..n], t);
      assert forall i :: 0 <= i < n ==> ls[..n][i] == ls[i];
    }
  }

  lemma {:induction false} PotentialUpdate(w: nat, ls: seq<seq<Timer>>, ks: seq<seq<Timer>>, i: nat)
    requires SameBut(ls, ks, i) && |ls| <= w + 1
    ensures Potential(w, ks) == Potential(w, ls) + Budget(w - i, |ks[i]|) - Budget(w - i, |ls[i]|)
  {
    var n := |ls| - 1;
    if i < n {
      PotentialUpdate(w, ls[..n], ks[..n], i);
    } else {
      assert ks[..n] == ls[..n];
    }
  }

  lemma UnionAppend(ls: seq<seq<Timer>>, ks: seq<seq<Timer>>, i: nat, t: Timer)
    requires SameBut(ls, ks, i) && multiset(ks[i]) == multiset(ls[i]) + multiset{t}
    ensures Union(ks) == Union(ls) + multiset{t}
  {
    UnionUpdate(ls, ks, i);
    AddOne(Union(ls), Union(ks), multiset(ls[i]), t);
  }

  lemma AddOne(a: multiset<Timer>, b: multiset<Timer>, m: multiset<Timer>, t: Timer)
    requires b + m == a + (m + multiset{t})
    ensures b == a + multiset{t}
  {
    assert a + (m + multiset{t}) == (a + multiset{t}) + m;
    CancelRight(b, a + multiset{t}, m);
  }

  lemma AppendEffect(w: nat, ls: seq<seq<Timer>>, ks: seq<seq<Timer>>, i: nat, t: Timer)
    requires SameBut(ls, ks, i) && |ls| <= w + 1 && ks[i] == ls[i] + [t]
    ensures Union(ks) == Union(ls) + multiset{t}
    ensures Potential(w, ks) == Potential(w, ls) + (w - i)
  {
    UnionAppend(ls, ks, i, t);
    PotentialDrop(w, ks, ls, i);
  }

  /** Unlink one node. */
  function Erase(l: seq<Timer>, t: Timer): seq<Timer>
    requires t in l
  {
    if l[0] == t then l[1..] else [l[0]] + Erase(l[1..], t)
  }

  lemma {:induction false} EraseIsUnlink(l: seq<Timer>, t: Timer)
    requires t in l
    ensures multiset(l) == multiset(Erase(l, t)) + multiset{t} && |l| == |Erase(l, t)| + 1
    ensures forall u | u in Erase(l, t) :: u in l
  {
    assert l == [l[0]] + l[1..];
    if l[0] != t {
      EraseIsUnlink(l[1..], t);
    }
  }

  lemma PotentialDrop(w: nat, ls: seq<seq<Timer>>, ks: seq<seq<Timer>>, i: nat)
    requires SameBut(ls, ks, i) && |ls| <= w + 1 && |ls[i]| == |ks[i]| + 1
    ensures Potential(w, ls) == Potential(w, ks) + (w - i)
  {
    PotentialUpdate(w, ks, ls, i);
  }

  lemma UnlinkEffect(w: nat, ls: seq<seq<Timer>>, ks: seq<seq<Timer>>, i: nat, t: Timer)
    requires SameBut(ls, ks, i) && |ls| <= w + 1
    requires t in ls[i] && ks[i] == Erase(ls[i], t)
    ensures Union(ls) == Union(ks) + multiset{t}
    ensures Union(ks) == Union(ls) - multiset{t}
    ensures Potential(w, ks) == Potential(w, ls) - (w - i)
  {
    EraseIsUnlink(ls[i], t);
    UnionAppend(ks, ls, i, t);
    PotentialDrop(w, ls, ks, i);
  }

  /** Nothing is lost: the lists and the collected timers make up `total`. */
  ghost predicate Accounts(w: nat, total: multiset<Timer>, ls: seq<seq<Timer>>, ret: seq<Timer>) {
    |ls| == w + 1 && total == Union(ls) + multiset(ret)
  }

  lemma SpliceKeeps(w: nat, total: multiset<Timer>, ls: seq<seq<Timer>>, ks: seq<seq<Timer>>, i: nat, ret: seq<Timer>)
    requires Accounts(w, total, ls, ret) && SameBut(ls, ks, i) && ks[i] == []
    ensures Accounts(w, total, ks, ret + ls[i])
  {
    UnionUpdate(ls, ks, i);
    Reassociate(Union(ks), multiset(ls[i]), multiset(ret), total);
  }

  lemma Reassociate(a: multiset<Timer>, b: multiset<Timer>, c: multiset<Timer>, total: multiset<Timer>)
    requires total == (a + b) + c
    ensures total == a + (c + b)
  {
  }

  /** The front timer of list i is collected. */
  lemma TakeKeeps(w: nat, total: multiset<Timer>, ls: seq<seq<Timer>>, ks: seq<seq<Timer>>, i: nat, ret: seq<Timer>)
    requires Accounts(w, total, ls, ret)
    requires SameBut(ls, ks, i) && ls[i] != [] && ks[i] == ls[i][1..]
    ensures Accounts(w, total, ks, ret + [ls[i][0]])
  {
    UnlinkEffect(w, ls, ks, i, ls[i][0]);
    Reassociate(Union(ks), multiset{ls[i][0]}, multiset(ret), total);
  }

  /** The front timer of list i moves to a higher list j. */
  lemma MoveKeeps(w: nat, total: multiset<Timer>, ls: seq<seq<Timer>>, ks: seq<seq<Timer>>, js: seq<seq<Timer>>,
                  i: nat, j: nat, ret: seq<Timer>)
    requires Accounts(w, total, ls, ret)
    requires SameBut(ls, ks, i) && ls[i] != [] && ks[i] == ls[i][1..]
    requires i < j && SameBut(ks, js, j) && js[j] == ks[j] + [ls[i][0]]
    ensures Accounts(w, total, js, ret)
  {
    UnlinkEffect(w, ls, ks, i, ls[i][0]);
    AppendEffect(w, ks, js, j, ls[i][0]);
  }

  /** Expire between its two loops and during the second: list idx is being emptied, all others are final. */
  ghost predicate Draining(w: nat, was: nat, now: nat, idx: nat, next: nat, ls: seq<seq<Timer>>)
    requires was <= now < Pow2(w) && idx == Index(w, was, now) && |ls| == w + 1
  {
    && next < Pow2(w)
    && (forall t | t in ls[idx] :: t.timeout < Pow2(w) && Index(w, was, t.timeout) == idx)
    && (forall i, t | 0 <= i < w && i != idx && t in ls[i] ::
          t.timeout < Pow2(w) && Index(w, now, t.timeout) == i && now < t.timeout)
    && (idx < w ==> ls[w] == [])
    && (forall i, t | idx < i <= w && t in ls[i] :: next <= t.timeout)
    && (next < MaxTs(w) ==> exists i, t :: idx < i <= w && t in ls[i] && t.timeout == next)
  }

  /** One round of the second loop on a timer that is due. */
  lemma DrainTake(w: nat, was: nat, now: nat, idx: nat, next: nat, ls: seq<seq<Timer>>, ks: seq<seq<Timer>>)
    requires was <= now < Pow2(w) && idx == Index(w, was, now) && |ls| == w + 1
    requires Draining(w, was, now, idx, next, ls)
    requires SameBut(ls, ks, idx) && ls[idx] != [] && ks[idx] == ls[idx][1..]
    ensures Draining(w, was, now, idx, next, ks)
  {
  }

  /** One round of the second loop on a timer that is not due. */
  lemma DrainMove(w: nat, was: nat, now: nat, idx: nat, next: nat, ls: seq<seq<Timer>>, ks: seq<seq<Timer>>,
                  js: seq<seq<Timer>>, next': nat)
    requires was <= now < Pow2(w) && idx == Index(w, was, now) && |ls| == w + 1
    requires Draining(w, was, now, idx, next, ls)
    requires SameBut(ls, ks, idx) && ls[idx] != [] && ks[idx] == ls[idx][1..] && now < ls[idx][0].timeout
    requires var j := Index(w, now, ls[idx][0].timeout);
             SameBut(ks, js, j) && js[j] == ks[j] + [ls[idx][0]]
    requires next' == if ls[idx][0].timeout < next then ls[idx][0].timeout else next
    ensures idx < Index(w, now, ls[idx][0].timeout)
    ensures Draining(w, was, now, idx, next', js)
  {
    var t := ls[idx][0];
    AdvanceIndex(w, was, now, t.timeout);
    var j := Index(w, now, t.timeout);
    assert t in js[j];
    if next' == next && next < MaxTs(w) {
      var i, u :| idx < i <= w && u in ls[i] && u.timeout == next;
      assert u in js[i];
    }
  }

  /** A bit is set exactly when its list is non-empty. */
  ghost predicate BitsMatch(bits: seq<bool>, ls: seq<seq<Timer>>) {
    |bits| == |ls| && forall i :: 0 <= i < |ls| ==> (bits[i] <==> ls[i] != [])
  }

  /** `next` is the smallest pending timeout, or the largest timestamp when nothing is pending. */
  ghost predicate Earliest(w: nat, next: nat, ts: multiset<Timer>) {
    && (forall t | t in ts :: next <= t.timeout)
    && (if ts == multiset{} then next == MaxTs(w) else exists t :: t in ts && t.timeout == next)
  }

  /** The running minimum of a scan that starts at the largest timestamp. */
  ghost predicate SmallestOf(w: nat, next: nat, l: seq<Timer>) {
    && next < Pow2(w)
    && (forall t | t in l :: next <= t.timeout)
    && (next == MaxTs(w) || exists t :: t in l && t.timeout == next)
  }

  /** The earliest timer of the last non-empty list is the earliest of all. */
  lemma LastListHasEarliest(w: nat, last: nat, next: nat, ls: seq<seq<Timer>>, pos: nat)
    requires last < Pow2(w) && |ls| == w + 1 && Bucketed(w, last, 0, ls)
    requires pos <= w && ls[pos] != [] && forall i :: pos < i <= w ==> ls[i] == []
    requires SmallestOf(w, next, ls[pos])
    ensures Earliest(w, next, Union(ls))
  {
    forall t | t in Union(ls) ensures next <= t.timeout {
      UnionMember(ls, t);
      var i :| 0 <= i < |ls| && t in ls[i];
      if i < pos {
        LaterListIsEarlier(w, last, t.timeout, ls[pos][0].timeout);
      }
    }
    var t := if next == MaxTs(w) then ls[pos][0] else var u :| u in ls[pos] && u.timeout == next; u;
    UnionMember(ls, t);
    assert t in ls[pos];
  }

  /** After the first loop: what was taken is due, what stays is set for the second loop. */
  lemma CutKeepsOrder(w: nat, was: nat, next: nat, now: nat, ls: seq<seq<Timer>>, ks: seq<seq<Timer>>, ret: seq<Timer>)
    requires was <= now < Pow2(w) && |ls| == |ks| == w + 1 && Bucketed(w, was, next, ls)
    requires forall i | 0 <= i <= w :: ks[i] == if i <= Index(w, was, now) then ls[i] else []
    requires forall t | t in ret :: exists i :: Index(w, was, now) < i <= w && t in ls[i]
    ensures Draining(w, was, now, Index(w, was, now), MaxTs(w), ks)
    ensures forall t | t in ret :: t.timeout <= now
  {
    forall t | t in ret ensures t.timeout <= now {
      AdvanceIndex(w, was, now, t.timeout);
    }
    forall i, t | 0 <= i < Index(w, was, now) && t in ks[i] ensures now < t.timeout && Index(w, now, t.timeout) == i {
      AdvanceIndex(w, was, now, t.timeout);
    }
  }

  /** After the second loop every timer is in its list. */
  lemma DrainedIsBucketed(w: nat, was: nat, now: nat, idx: nat, next: nat, ls: seq<seq<Timer>>)
    requires was <= now < Pow2(w) && idx == Index(w, was, now) && |ls| == w + 1
    requires Draining(w, was, now, idx, next, ls) && ls[idx] == []
    ensures Bucketed(w, now, 0, ls) && ls[w] == []
    ensures forall t | t in Union(ls) :: now < t.timeout
  {
    assert ls[w] == [];
    forall i: nat, t | i < |ls| && t in ls[i]
      ensures t.timeout < Pow2(w) && Index(w, now, t.timeout) == i && now < t.timeout
    {
      assert i < w && i != idx;
    }
    forall t | t in Union(ls) ensures now < t.timeout {
      UnionMember(ls, t);
      var i :| 0 <= i < |ls| && t in ls[i];
    }
  }

  /** A deadline found by re-insertion is the earliest of all: re-inserted timers sit above every other list. */
  lemma DrainedIsExact(w: nat, was: nat, now: nat, idx: nat, next: nat, ls: seq<seq<Timer>>)
    requires was <= now < Pow2(w) && idx == Index(w, was, now) && |ls| == w + 1
    requires Draining(w, was, now, idx, next, ls) && ls[idx] == []
    ensures next < MaxTs(w) ==> Earliest(w, next, Union(ls))
  {
    if next < MaxTs(w) {
      var i, u :| idx < i <= w && u in ls[i] && u.timeout == next;
      UnionMember(ls, u);
      forall t | t in Union(ls) ensures next <= t.timeout {
        UnionMember(ls, t);
        var j :| 0 <= j < |ls| && t in ls[j];
        if j < idx {
          LaterListIsEarlier(w, now, t.timeout, next);
        }
      }
    }
  }

  lemma Drained(w: nat, was: nat, now: nat, idx: nat, next: nat, ls: seq<seq<Timer>>)
    requires was <= now < Pow2(w) && idx == Index(w, was, now) && |ls| == w + 1
    requires Draining(w, was, now, idx, next, ls) && ls[idx] == []
    ensures Bucketed(w, now, 0, ls) && ls[w] == []
    ensures forall t | t in Union(ls) :: now < t.timeout
    ensures next < MaxTs(w) ==> Earliest(w, next, Union(ls))
  {
    DrainedIsBucketed(w, was, now, idx, next, ls);
    DrainedIsExact(w, was, now, idx, next, ls);
  }

  lemma EarliestBuckets(w: nat, last: nat, next: nat, ls: seq<seq<Timer>>)
    requires last < Pow2(w) && Bucketed(w, last, 0, ls) && Earliest(w, next, Union(ls))
    ensures Bucketed(w, last, next, ls)
  {
    forall i, t | 0 <= i < |ls| && t in ls[i] ensures next <= t.timeout {
      UnionMember(ls, t);
    }
  }

  /** Before the deadline nothing is due. */
  lemma NothingDue(w: nat, last: nat, next: nat, now: nat, ls: seq<seq<Timer>>, rest: multiset<Timer>, ret: seq<Timer>)
    requires last < Pow2(w) && Bucketed(w, last, next, ls) && now < next
    requires Union(ls) == rest + multiset(ret) && forall t | t in ret :: t.timeout <= now
    ensures ret == []
  {
    if ret != [] {
      var t := ret[0];
      assert t in ret && t in rest + multiset(ret);
      UnionMember(ls, t);
    }
  }

  lemma UnlinkKeeps(w: nat, last: nat, next: nat, ls: seq<seq<Timer>>, ks: seq<seq<Timer>>, i: nat, t: Timer)
    requires last < Pow2(w) && Bucketed(w, last, next, ls)
    requires SameBut(ls, ks, i) && t in ls[i] && ks[i] == Erase(ls[i], t)
    ensures Bucketed(w, last, next, ks)
  {
    EraseIsUnlink(ls[i], t);
  }

  /** The length of the bitset's integer finds its highest set bit. */
  lemma {:induction false} HighestBit(b: seq<bool>)
    ensures var h := BitLength(ToUlong(b));
            h <= |b| && (h > 0 ==> b[h - 1]) && forall k :: h <= k < |b| ==> !b[k]
  {
    if b != [] {
      HighestBit(b[1..]);
      var h := BitLength(ToUlong(b[1..]));
      assert ToUlong(b) / 2 == ToUlong(b[1..]);
      assert ToUlong(b) == 0 ==> !b[0] && h == 0;
      forall k | BitLength(ToUlong(b)) <= k < |b| ensures !b[k] {
        if k > 0 {
          assert b[k] == b[1..][k - 1];
        }
      }
    }
  }

  /** How many timers of a list are not due yet. */
  function Later(l: seq<Timer>, now: nat): nat {
    if l == [] then 0 else (if now < l[0].timeout then 1 else 0) + Later(l[1..], now)
  }

  function Put(w: nat, last: nat, t: Timer, ls: seq<seq<Timer>>): seq<seq<Timer>>
    requires last < Pow2(w) && t.timeout < Pow2(w) && |ls| == w + 1
  {
    var i := Index(w, last, t.timeout);
    ls[i := ls[i] + [t]]
  }

  /** The timers of l that are not due, filed one after the other. */
  function Settle(w: nat, now: nat, l: seq<Timer>, ls: seq<seq<Timer>>): (r: seq<seq<Timer>>)
    requires now < Pow2(w) && |ls| == w + 1 && forall t | t in l :: t.timeout < Pow2(w)
    ensures |r| == w + 1
  {
    if l == [] then ls else Settle(w, now, l[1..], if now < l[0].timeout then Put(w, now, l[0], ls) else ls)
  }

  /** The lists before idx; the others are empty. */
  function Below(ls: seq<seq<Timer>>, idx: nat): seq<seq<Timer>> {
    seq(|ls|, i requires 0 <= i < |ls| => if i < idx then ls[i] else [])
  }

  /** The front timer of list idx has gone to a strictly higher list. */
  ghost predicate Raised(w: nat, now: nat, idx: nat, ls: seq<seq<Timer>>, js: seq<seq<Timer>>)
    requires now < Pow2(w) && idx < |ls| == |js| == w + 1 && ls[idx] != [] && ls[idx][0].timeout < Pow2(w)
  {
    var j := Index(w, now, ls[idx][0].timeout);
    && idx < j && js[idx] == ls[idx][1..] && js[j] == ls[j] + [ls[idx][0]]
    && (forall i :: 0 <= i <= w && i != idx && i != j ==> js[i] == ls[i])
  }

  lemma SettleTake(w: nat, now: nat, ls: seq<seq<Timer>>, ks: seq<seq<Timer>>, idx: nat)
    requires now < Pow2(w) && |ls| == w + 1 && SameBut(ls, ks, idx) && ls[idx] != [] && ks[idx] == ls[idx][1..]
    requires forall t | t in ls[idx] :: t.timeout < Pow2(w)
    requires ls[idx][0].timeout <= now
    ensures Settle(w, now, ks[idx], ks[idx := []]) == Settle(w, now, ls[idx], ls[idx := []])
  {
    assert ks[idx := []] == ls[idx := []];
  }

  /** One round of the second loop on a timer that is not due. */
  lemma Refiled(w: nat, was: nat, now: nat, idx: nat, next: nat, next': nat, ls: seq<seq<Timer>>, js: seq<seq<Timer>>,
                ret: seq<Timer>, total: multiset<Timer>)
    requires was <= now < Pow2(w) && idx == Index(w, was, now) && |ls| == |js| == w + 1
    requires Draining(w, was, now, idx, next, ls) && Accounts(w, total, ls, ret)
    requires ls[idx] != [] && now < ls[idx][0].timeout < Pow2(w)
    requires Raised(w, now, idx, ls, js)
    requires next' == if ls[idx][0].timeout < next then ls[idx][0].timeout else next
    ensures Draining(w, was, now, idx, next', js) && Accounts(w, total, js, ret)
    ensures Settle(w, now, js[idx], js[idx := []]) == Settle(w, now, ls[idx], ls[idx := []])
  {
    var t := ls[idx][0];
    var j := Index(w, now, t.timeout);
    var ks := ls[idx := ls[idx][1..]];
    DrainMove(w, was, now, idx, next, ls, ks, js, next');
    MoveKeeps(w, total, ls, ks, js, idx, j, ret);
    assert js[idx := []] == Put(w, now, t, ls[idx := []]);
  }

  /** The second loop of expire, begun with the lists `start`, while timers of list idx are left. */
  ghost predicate Midway(w: nat, was: nat, now: nat, idx: nat, total: multiset<Timer>, start: seq<seq<Timer>>,
          next: nat, bits: seq<bool>, ls: seq<seq<Timer>>, ret: seq<Timer>, moved: int)
    requires was <= now < Pow2(w) && idx == Index(w, was, now) && |start| == |ls| == |bits| == w + 1
    requires forall t | t in start[idx] :: t.timeout < Pow2(w)
  {
    && Draining(w, was, now, idx, next, ls)
    && BitsMatch(bits[idx := ls[idx] != []], ls)
    && Settle(w, now, ls[idx], ls[idx := []]) == Settle(w, now, start[idx], start[idx := []])
    && moved + Later(ls[idx], now) == Later(start[idx], now)
    && (forall t | t in ret :: t.timeout <= now)
    && Accounts(w, total, ls, ret)
  }

  lemma MidwayTakes(w: nat, was: nat, now: nat, idx: nat, total: multiset<Timer>, start: seq<seq<Timer>>, next: nat,
                    bits: seq<bool>, ls: seq<seq<Timer>>, ks: seq<seq<Timer>>, ret: seq<Timer>, moved: int)
    requires was <= now < Pow2(w) && idx == Index(w, was, now) && |start| == |ls| == |bits| == w + 1
    requires forall t | t in start[idx] :: t.timeout < Pow2(w)
    requires Midway(w, was, now, idx, total, start, next, bits, ls, ret, moved)
    requires ls[idx] != [] && ls[idx][0].timeout <= now && ks == ls[idx := ls[idx][1..]]
    ensures Midway(w, was, now, idx, total, start, next, bits, ks, ret + [ls[idx][0]], moved)
  {
    DrainTake(w, was, now, idx, next, ls, ks);
    TakeKeeps(w, total, ls, ks, idx, ret);
    SettleTake(w, now, ls, ks, idx);
  }

  lemma MidwayFiles(w: nat, was: nat, now: nat, idx: nat, total: multiset<Timer>, start: seq<seq<Timer>>, next: nat,
                    next': nat, bits: seq<bool>, ls: seq<seq<Timer>>, js: seq<seq<Timer>>, ret: seq<Timer>, moved: int)
    requires was <= now < Pow2(w) && idx == Index(w, was, now) && |start| == |ls| == |bits| == |js| == w + 1
    requires forall t | t in start[idx] :: t.timeout < Pow2(w)
    requires Midway(w, was, now, idx, total, start, next, bits, ls, ret, moved)
    requires ls[idx] != [] && now < ls[idx][0].timeout < Pow2(w)
    requires Raised(w, now, idx, ls, js)
    requires next' == if ls[idx][0].timeout < next then ls[idx][0].timeout else next
    ensures var j := Index(w, now, ls[idx][0].timeout);
            Midway(w, was, now, idx, total, start, next', bits[j := true], js, ret, moved + 1)
  {
    Refiled(w, was, now, idx, next, next', ls, js, ret, total);
  }

  datatype Call = Inserting(timer: Timer) | Removing(timer: Timer) | Expiring(now: nat)

  /** `moves` counts the timers filed again by expiries. */
  datatype State = State(last: nat, lists: seq<seq<Timer>>, inserts: nat, moves: nat)

  function Init(w: nat): State {
    State(0, seq(w + 1, _ => []), 0, 0)
  }

  ghost predicate Filed(w: nat, s: State) {
    s.last < Pow2(w) && |s.lists| == w + 1 && Bucketed(w, s.last, 0, s.lists)
  }

  predicate Legal(w: nat, s: State, c: Call) {
    match c
    case Inserting(t) => t.timeout < Pow2(w)
    case Removing(t) => t in Union(s.lists)
    case Expiring(now) => now < Pow2(w)
  }

  /** What a call does to the lists; an expiry for a time already passed is refused. */
  function After(w: nat, s: State, c: Call): State
    requires Filed(w, s) && Legal(w, s, c)
  {
    match c
    case Inserting(t) => s.(lists := Put(w, s.last, t, s.lists), inserts := s.inserts + 1)
    case Removing(t) =>
      UnionMember(s.lists, t);
      var i := Index(w, s.last, t.timeout);
      s.(lists := s.lists[i := Erase(s.lists[i], t)])
    case Expiring(now) =>
      if now < s.last then s
      else
        var own := s.lists[Index(w, s.last, now)];
        State(now, Settle(w, now, own, Below(s.lists, Index(w, s.last, now))), s.inserts, s.moves + Later(own, now))
  }

  /** Every insertion pays for w re-bucketings, of which `moves` are spent. */
  ghost predicate Paid(w: nat, s: State) {
    |s.lists| <= w + 1 && s.moves + Potential(w, s.lists) <= Budget(w, s.inserts)
  }

  lemma {:induction false} BelowPotential(w: nat, ls: seq<seq<Timer>>, idx: nat)
    requires |ls| <= w + 1
    ensures Potential(w, Below(ls, idx)) + (if idx < |ls| then Budget(w - idx, |ls[idx]|) else 0) <= Potential(w, ls)
  {
    if ls != [] {
      var n := |ls| - 1;
      BelowPotential(w, ls[..n], idx);
      assert Below(ls, idx)[..n] == Below(ls[..n], idx);
    }
  }

  /** Filing a timer keeps all lists in order, and uses up what it could still move. */
  lemma PutKeeps(w: nat, last: nat, t: Timer, ls: seq<seq<Timer>>)
    requires last < Pow2(w) && t.timeout < Pow2(w) && |ls| == w + 1 && Bucketed(w, last, 0, ls)
    ensures Bucketed(w, last, 0, Put(w, last, t, ls))
    ensures Potential(w, Put(w, last, t, ls)) == Potential(w, ls) + (w - Index(w, last, t.timeout))
  {
    AppendEffect(w, ls, Put(w, last, t, ls), Index(w, last, t.timeout), t);
  }

  /** Each timer of now's own list that is filed again costs one move and goes strictly higher. */
  lemma {:induction false} SettleKeeps(w: nat, last: nat, now: nat, l: seq<Timer>, ls: seq<seq<Timer>>)
    requires last <= now < Pow2(w) && |ls| == w + 1 && Bucketed(w, now, 0, ls)
    requires forall t | t in l :: t.timeout < Pow2(w) && Index(w, last, t.timeout) == Index(w, last, now)
    ensures Bucketed(w, now, 0, Settle(w, now, l, ls))
    ensures Later(l, now) + Potential(w, Settle(w, now, l, ls))
         <= Potential(w, ls) + Budget(w - Index(w, last, now), |l|)
  {
    if l != [] {
      if now < l[0].timeout {
        AdvanceIndex(w, last, now, l[0].timeout);
        PutKeeps(w, now, l[0], ls);
        SettleKeeps(w, last, now, l[1..], Put(w, now, l[0], ls));
      } else {
        SettleKeeps(w, last, now, l[1..], ls);
      }
    }
  }

  lemma ExpiryKeeps(w: nat, s: State, now: nat)
    requires Filed(w, s) && Paid(w, s) && s.last <= now < Pow2(w)
    ensures Filed(w, After(w, s, Expiring(now))) && Paid(w, After(w, s, Expiring(now)))
  {
    var idx := Index(w, s.last, now);
    var ls := Below(s.lists, idx);
    forall i, t: Timer | 0 <= i < |ls| && t in ls[i] ensures t.timeout < Pow2(w) && Index(w, now, t.timeout) == i {
      assert t in s.lists[i];
      AdvanceIndex(w, s.last, now, t.timeout);
    }
    BelowPotential(w, s.lists, idx);
    SettleKeeps(w, s.last, now, s.lists[idx], ls);
  }

  lemma InsertionKeeps(w: nat, s: State, t: Timer, next: nat)
    requires Filed(w, s) && Paid(w, s) && t.timeout < Pow2(w) && Bucketed(w, s.last, next, s.lists)
    ensures Filed(w, After(w, s, Inserting(t))) && Paid(w, After(w, s, Inserting(t)))
    ensures Union(After(w, s, Inserting(t)).lists) == Union(s.lists) + multiset{t}
    ensures Bucketed(w, s.last, if t.timeout < next then t.timeout else next, After(w, s, Inserting(t)).lists)
  {
    PutKeeps(w, s.last, t, s.lists);
    AppendEffect(w, s.lists, Put(w, s.last, t, s.lists), Index(w, s.last, t.timeout), t);
  }

  lemma RemovalKeeps(w: nat, s: State, t: Timer, next: nat)
    requires Filed(w, s) && Paid(w, s) && t in Union(s.lists) && Bucketed(w, s.last, next, s.lists)
    ensures Filed(w, After(w, s, Removing(t))) && Paid(w, After(w, s, Removing(t)))
    ensures Union(After(w, s, Removing(t)).lists) == Union(s.lists) - multiset{t}
    ensures Bucketed(w, s.last, next, After(w, s, Removing(t)).lists)
  {
    UnionMember(s.lists, t);
    var i := Index(w, s.last, t.timeout);
    UnlinkEffect(w, s.lists, After(w, s, Removing(t)).lists, i, t);
    UnlinkKeeps(w, s.last, next, s.lists, After(w, s, Removing(t)).lists, i, t);
  }

  /** Every call keeps each timer in its list, and never spends a move that was not paid for. */
  lemma StepKeeps(w: nat, s: State, c: Call)
    requires Filed(w, s) && Paid(w, s) && Legal(w, s, c)
    ensures Filed(w, After(w, s, c)) && Paid(w, After(w, s, c))
  {
    match c
    case Inserting(t) => InsertionKeeps(w, s, t, 0);
    case Removing(t) => RemovalKeeps(w, s, t, 0);
    case Expiring(now) =>
      if s.last <= now {
        ExpiryKeeps(w, s, now);
      }
  }

  ghost predicate LegalRun(w: nat, s: State, calls: seq<Call>)
    decreases |calls|
  {
    calls == [] || (Filed(w, s) && Legal(w, s, calls[0]) && LegalRun(w, After(w, s, calls[0]), calls[1..]))
  }

  ghost function Final(w: nat, s: State, calls: seq<Call>): State
    requires LegalRun(w, s, calls)
    decreases |calls|
  {
    if calls == [] then s else Final(w, After(w, s, calls[0]), calls[1..])
  }

  function Inserts(calls: seq<Call>): nat {
    if calls == [] then 0 else (if calls[0].Inserting? then 1 else 0) + Inserts(calls[1..])
  }

  lemma {:induction false} RunKeeps(w: nat, s: State, calls: seq<Call>)
    requires Filed(w, s) && Paid(w, s) && LegalRun(w, s, calls)
    ensures Filed(w, Final(w, s, calls)) && Paid(w, Final(w, s, calls))
    ensures Final(w, s, calls).inserts == s.inserts + Inserts(calls)
    decreases |calls|
  {
    if calls != [] {
      StepKeeps(w, s, calls[0]);
      RunKeeps(w, After(w, s, calls[0]), calls[1..]);
    }
  }

  lemma InitFiled(w: nat)
    ensures Filed(w, Init(w)) && Paid(w, Init(w))
  {
    EmptyLists(w, Init(w).lists);
  }

  /** Over any run the timers filed again are at most w times the insertions. */
  lemma MovesBound(w: nat, calls: seq<Call>)
    requires LegalRun(w, Init(w), calls)
    ensures Final(w, Init(w), calls).moves <= w * Inserts(calls)
  {
    InitFiled(w);
    RunKeeps(w, Init(w), calls);
    BudgetIsProduct(w, Inserts(calls));
  }

  /** How often a timer due at ts changes its list in a run, up to the expiry that hands it out. */
  ghost function Changes(w: nat, s: State, calls: seq<Call>, ts: nat): nat
    requires LegalRun(w, s, calls) && s.last < Pow2(w) && ts < Pow2(w)
    decreases |calls|
  {
    if calls == [] then 0
    else
      var s' := After(w, s, calls[0]);
      if ts <= s'.last then 0
      else (if Index(w, s'.last, ts) == Index(w, s.last, ts) then 0 else 1) + Changes(w, s', calls[1..], ts)
  }

  /** No timer changes its list more often than there are lists above its first one. */
  lemma {:induction false} LifeBound(w: nat, s: State, calls: seq<Call>, ts: nat)
    requires LegalRun(w, s, calls) && s.last < Pow2(w) && ts < Pow2(w)
    ensures Changes(w, s, calls, ts) <= w - Index(w, s.last, ts)
    decreases |calls|
  {
    if calls != [] {
      var s' := After(w, s, calls[0]);
      if s'.last < ts {
        AdvanceIndex(w, s.last, s'.last, ts);
        LifeBound(w, s', calls[1..], ts);
      }
    }
  }

  lemma {:induction false} EmptyLists(w: nat, ls: seq<seq<Timer>>)
    requires |ls| <= w + 1 && forall i :: 0 <= i < |ls| ==> ls[i] == []
    ensures Union(ls) == multiset{} && Potential(w, ls) == 0
  {
    if ls != [] {
      EmptyLists(w, ls[..|ls| - 1]);
    }
  }

  /** The two std::array members are seq-valued fields: like them they belong to this object alone. */
  class TimeLiner {
    const W: nat
    var lists: seq<seq<Timer>>
    var bits: seq<bool>
    var last: nat
    var next: nat
    ghost var inserts: nat // calls of Insert so far
    ghost var moves: nat   // re-bucketings done by Expire so far

    ghost predicate Shape()
      reads this
    {
      |lists| == |bits| == W + 1 && last < Pow2(W) && next < Pow2(W)
    }

    ghost predicate Valid()
      reads this
    {
      && Shape()
      && Bucketed(W, last, next, lists)
      && BitsMatch(bits, lists)
      && Paid(W, Now())
    }

    ghost function Now(): State
      reads this
    {
      State(last, lists, inserts, moves)
    }

    ghost function Contents(): multiset<Timer>
      reads this
    {
      Union(lists)
    }

    constructor (digits: nat)
      ensures Valid() && W == digits
      ensures Contents() == multiset{} && next == MaxTs(W) && Now() == Init(W)
    {
      W := digits;
      lists := seq(digits + 1, _ => []);
      bits := seq(digits + 1, _ => false);
      last, next := 0, MaxTs(digits);
      inserts, moves := 0, 0;
      new;
      EmptyLists(W, lists);
    }

    /** The list operations of insert, without what they mean for the index. */
    method Place(timer: Timer) returns (earlier: bool)
      requires Shape() && timer.timeout < Pow2(W)
      modifies this`lists, this`bits, this`next
      ensures Shape()
      ensures var i := Index(W, last, timer.timeout);
              && lists == Put(W, last, timer, old(lists))
              && bits == old(bits)[i := true]
      ensures earlier == (timer.timeout < old(next))
      ensures next == if earlier then timer.timeout else old(next)
    {
      var ts := timer.timeout;
      var idx := Index(W, last, ts);
      lists := lists[idx := lists[idx] + [timer]];
      bits := bits[idx := true];
      earlier := ts < next;
      if earlier {
        next := ts;
      }
    }

    method Insert(timer: Timer) returns (earlier: bool)
      requires Valid() && timer.timeout < Pow2(W)
      modifies this
      ensures Valid()
      ensures Contents() == old(Contents()) + multiset{timer}
      ensures earlier == (timer.timeout < old(next))
      ensures Now() == After(W, old(Now()), Inserting(timer))
    {
      InsertionKeeps(W, Now(), timer, next);
      earlier := Place(timer);
      inserts := inserts + 1;
      assert Now() == After(W, old(Now()), Inserting(timer));
    }

    /** The timer must be in the index: an intrusive list node is unlinked in place. */
    method Remove(timer: Timer)
      requires Valid() && timer in Contents()
      modifies this
      ensures Valid()
      ensures Contents() == old(Contents()) - multiset{timer}
      ensures next == old(next) && Now() == After(W, old(Now()), Removing(timer))
    {
      UnionMember(lists, timer);
      RemovalKeeps(W, Now(), timer, next);
      var idx := Index(W, last, timer.timeout);
      var l := Erase(lists[idx], timer);
      lists := lists[idx := l];
      bits := if l == [] then bits[idx := false] else bits;
    }

    /** First loop of expire: everything in the lists above now's own is due. */
    method TakeAbove(now: nat, idx: nat, ghost total: multiset<Timer>) returns (ret: seq<Timer>)
      requires Shape() && last <= now < Pow2(W) && idx == Index(W, last, now)
      requires Bucketed(W, last, next, lists) && BitsMatch(bits, lists)
      requires Accounts(W, total, lists, [])
      modifies this`lists, this`bits
      ensures Shape() && BitsMatch(bits, lists)
      ensures Draining(W, last, now, idx, MaxTs(W), lists)
      ensures lists[idx] == old(lists)[idx] && lists[idx := []] == Below(old(lists), idx)
      ensures Accounts(W, total, lists, ret)
      ensures forall t | t in ret :: t.timeout <= now
    {
      ret := [];
      for pos := idx + 1 to W + 1
        invariant Shape() && BitsMatch(bits, lists)
        invariant forall i | 0 <= i <= W :: lists[i] == if idx < i < pos then [] else old(lists)[i]
        invariant Accounts(W, total, lists, ret)
        invariant forall t | t in ret :: exists i :: idx < i <= W && t in old(lists)[i]
      {
        if bits[pos] {
          ghost var ls, was := lists, ret;
          ret := ret + lists[pos];
          lists := lists[pos := []];
          bits := bits[pos := false];
          SpliceKeeps(W, total, ls, lists, pos, was);
        }
      }
      CutKeepsOrder(W, last, next, now, old(lists), lists, ret);
    }

    /** Second loop of expire: the timers of now's own list are due, or move to a strictly higher list. */
    method Redistribute(ghost was: nat, idx: nat, due: seq<Timer>,
            ghost total: multiset<Timer>) returns (ret: seq<Timer>)
      requires Shape() && was <= last && idx == Index(W, was, last)
      requires Draining(W, was, last, idx, next, lists) && BitsMatch(bits, lists)
      requires forall t | t in due :: t.timeout <= last
      requires Accounts(W, total, lists, due)
      modifies this`lists, this`bits, this`next, this`moves
      ensures Shape() && Draining(W, was, last, idx, next, lists)
      ensures lists[idx] == [] && BitsMatch(bits[idx := false], lists)
      ensures lists == Settle(W, last, old(lists)[idx], old(lists)[idx := []])
      ensures moves == old(moves) + Later(old(lists)[idx], last)
      ensures forall t | t in ret :: t.timeout <= last
      ensures Accounts(W, total, lists, ret)
    {
      ret := due;
      while lists[idx] != []
        invariant Shape()
        invariant Midway(W, was, last, idx, total, old(lists), next, bits, lists, ret, moves - old(moves))
        decreases |lists[idx]|
      {
        ghost var ls, min, bs, moved := lists, next, bits, moves - old(moves);
        if lists[idx][0].timeout <= last {
          MidwayTakes(W, was, last, idx, total, old(lists), next, bits, ls, ls[idx := ls[idx][1..]], ret, moved);
          ret := ret + [lists[idx][0]];
          lists := lists[idx := lists[idx][1..]];
        } else {
          Rebucket(was, idx);
          MidwayFiles(W, was, last, idx, total, old(lists), min, next, bs, ls, lists, ret, moved);
        }
      }
      assert lists[idx := []] == lists;
    }

    /** The re-insertion step of the second loop: one move, to a strictly higher list. */
    method Rebucket(ghost was: nat, idx: nat)
      requires Shape() && was <= last && idx == Index(W, was, last)
      requires lists[idx] != [] && last < lists[idx][0].timeout < Pow2(W)
      requires Index(W, was, lists[idx][0].timeout) == idx
      modifies this`lists, this`bits, this`next, this`moves
      ensures Shape() && moves == old(moves) + 1
      ensures Raised(W, last, idx, old(lists), lists)
      ensures var ts := old(lists)[idx][0].timeout;
              bits == old(bits)[Index(W, last, ts) := true] && next == if ts < old(next) then ts else old(next)
    {
      var timer := lists[idx][0];
      AdvanceIndex(W, was, last, timer.timeout);
      lists := lists[idx := lists[idx][1..]];
      var _ := Place(timer);
      moves := moves + 1;
    }

    /** End of expire: find the next deadline in the last non-empty list unless re-insertion already did. */
    method RefreshNext()
      requires Shape() && BitsMatch(bits, lists)
      requires Bucketed(W, last, 0, lists) && lists[W] == []
      requires next < MaxTs(W) ==> Earliest(W, next, Contents())
      modifies this`next
      ensures Shape() && Earliest(W, next, Contents())
    {
      HighestBit(bits);
      if next == MaxTs(W) && ToUlong(bits) != 0 {
        var pos := W - 1 - Clz(W, ToUlong(bits));
        var l := lists[pos];
        for k := 0 to |l|
          invariant Shape() && SmallestOf(W, next, l[..k])
        {
          next := if l[k].timeout < next then l[k].timeout else next;
        }
        assert l[..|l|] == l;
        LastListHasEarliest(W, last, next, lists, pos);
      } else if next == MaxTs(W) {
        EmptyLists(W, lists);
      }
    }

    /** expire up to its second loop: the time moves on, and a new deadline is looked for. */
    method Begin(now: nat, idx: nat, ghost total: multiset<Timer>) returns (ret: seq<Timer>)
      requires Valid() && last <= now < Pow2(W) && idx == Index(W, last, now) && total == Contents()
      modifies this`lists, this`bits, this`last, this`next
      ensures Shape() && BitsMatch(bits, lists) && last == now && next == MaxTs(W)
      ensures Draining(W, old(last), now, idx, next, lists)
      ensures lists[idx] == old(lists)[idx] && lists[idx := []] == Below(old(lists), idx)
      ensures Accounts(W, total, lists, ret)
      ensures forall t | t in ret :: t.timeout <= now
    {
      ret := TakeAbove(now, idx, total);
      last := now;
      next := MaxTs(W);
    }

    /** The two loops of expire. */
    method Drain(now: nat, ghost total: multiset<Timer>) returns (ret: seq<Timer>)
      requires Valid() && last <= now < Pow2(W) && total == Contents()
      modifies this
      ensures Shape() && Now() == After(W, old(Now()), Expiring(now))
      ensures var idx := Index(W, old(last), now);
              Draining(W, old(last), now, idx, next, lists) && lists[idx] == [] && BitsMatch(bits, lists)
      ensures Accounts(W, total, lists, ret)
      ensures forall t | t in ret :: t.timeout <= now
    {
      ghost var was := last;
      var idx := Index(W, last, now);
      ret := Begin(now, idx, total);
      ret := Redistribute(was, idx, ret, total);
      bits := bits[idx := false];
    }

    /** expire, for a time that has not been passed yet. */
    method Advance(now: nat) returns (ret: seq<Timer>)
      requires Valid() && last <= now < Pow2(W)
      modifies this
      ensures Valid() && Now() == After(W, old(Now()), Expiring(now))
      ensures old(Contents()) == Contents() + multiset(ret)
      ensures forall t | t in ret :: t.timeout <= now
      ensures forall t | t in Contents() :: now < t.timeout
      ensures Earliest(W, next, Contents())
    {
      ExpiryKeeps(W, Now(), now);
      ret := Drain(now, Contents());
      Drained(W, old(last), now, Index(W, old(last), now), next, lists);
      RefreshNext();
      assert Now() == After(W, old(Now()), Expiring(now));
      EarliestBuckets(W, last, next, lists);
    }

    /** None stands for the exception thrown on a time before the latest expiry. */
    method Expire(now: nat) returns (r: Option<seq<Timer>>)
      requires Valid() && now < Pow2(W)
      modifies this
      ensures Valid()
      ensures r.None? <==> now < old(last)
      ensures Now() == After(W, old(Now()), Expiring(now)) && (r.None? ==> next == old(next))
      ensures r.Some? ==> old(Contents()) == Contents() + multiset(r.value)
      ensures r.Some? ==> forall t | t in r.value :: t.timeout <= now
      ensures r.Some? ==> forall t | t in Contents() :: now < t.timeout
      ensures r.Some? ==> Earliest(W, next, Contents())
      ensures r.Some? && now < old(NextExpire()) ==> r.value == []
    {
      if now < last {
        return None;
      }
      var ret := Advance(now);
      if now < old(next) {
        NothingDue(W, old(last), old(next), now, old(lists), Contents(), ret);
      }
      r := Some(ret);
    }

    function NextExpire(): nat
      reads this
    {
      Max(last, next)
    }
  }
}
