/** What `withdrawQueue.next` picks, on plain sequences.  `live` holds the items the caller's
    `keep` accepts. */
module WithdrawQueue {

  const MAX_WITHDRAW_BATCH: nat := 20

  datatype Picked<T> = Picked(batch: seq<T>, alone: seq<T>, due: seq<T>)

  /** The live items of a queue, in order. */
  function Kept<T(==)>(q: seq<T>, live: set<T>): seq<T> {
    if q == [] then []
    else (if q[0] in live then [q[0]] else []) + Kept(q[1..], live)
  }

  /** How many items of `q` are popped to find `room` live ones, or all if there are fewer. */
  function Popped<T(==)>(q: seq<T>, live: set<T>, room: nat): (n: nat)
    ensures n <= |q|
  {
    if q == [] || room == 0 then 0
    else 1 + Popped(q[1..], live, if q[0] in live then room - 1 else room)
  }

  /** The next transaction's items: the first live one of `alone`, or else up to `MAX_WITHDRAW_BATCH` live
      ones of `due`.  Dead items met on the way are dropped. */
  function Pick<T(==)>(alone: seq<T>, due: seq<T>, live: set<T>): Picked<T> {
    var k := Popped(alone, live, 1);
    var first := Kept(alone[..k], live);
    if first != [] then
      Picked(first, alone[k..], due)
    else
      var m := Popped(due, live, MAX_WITHDRAW_BATCH);
      Picked(Kept(due[..m], live), [], due[m..])
  }

  lemma ConcatAssociates<T>(a: seq<T>, b: seq<T>, c: seq<T>)
    ensures a + (b + c) == a + b + c
  {}

  lemma {:induction false} KeptConcat<T>(a: seq<T>, b: seq<T>, live: set<T>)
    ensures Kept(a + b, live) == Kept(a, live) + Kept(b, live)
  {
    if a == [] {
      assert a + b == b && Kept(a, live) == [];
    } else {
      KeptConcat(a[1..], b, live);
      assert (a + b)[1..] == a[1..] + b && (a + b)[0] == a[0];
      ConcatAssociates(if a[0] in live then [a[0]] else [], Kept(a[1..], live), Kept(b, live));
    }
  }

  lemma {:induction false} KeptSplit<T>(q: seq<T>, live: set<T>, k: nat)
    requires k <= |q|
    ensures Kept(q[..k], live) + Kept(q[k..], live) == Kept(q, live)
  {
    assert q == q[..k] + q[k..];
    KeptConcat(q[..k], q[k..], live);
  }

  lemma {:induction false} KeptMultiplicity<T>(q: seq<T>, live: set<T>, x: T)
    ensures multiset(Kept(q, live))[x] == if x in live then multiset(q)[x] else 0
  {
    if q != [] {
      assert q == [q[0]] + q[1..];
      KeptMultiplicity(q[1..], live, x);
    }
  }

  /** Popping stops at the item that fills the room, and only the end of the queue leaves room. */
  lemma {:induction false} PoppedFills<T>(q: seq<T>, live: set<T>, room: nat)
    ensures var n := Popped(q, live, room);
            && |Kept(q[..n], live)| <= room
            && |Kept(q[..n], live)| <= n
            && (|Kept(q[..n], live)| < room ==> n == |q|)
  {
    var n := Popped(q, live, room);
    if q != [] && room != 0 {
      PoppedFills(q[1..], live, if q[0] in live then room - 1 else room);
      assert q[..n][1..] == q[1..][..n - 1];
    }
  }

  /** Order-preserving conservation: the batch, followed by the live items still queued, is exactly the
      live items queued before, so `next` loses, repeats and reorders no live item. */
  lemma {:induction false} NextConserves<T>(alone: seq<T>, due: seq<T>, live: set<T>)
    ensures var p := Pick(alone, due, live);
            p.batch + Kept(p.alone + p.due, live) == Kept(alone + due, live)
  {
    var p := Pick(alone, due, live);
    KeptConcat(alone, due, live);
    KeptConcat(p.alone, p.due, live);
    PoppedFills(alone, live, 1);
    var k := Popped(alone, live, 1);
    KeptSplit(alone, live, k);
    if Kept(alone[..k], live) == [] {
      assert alone[..k] == alone;
      KeptSplit(due, live, Popped(due, live, MAX_WITHDRAW_BATCH));
    }
  }

  /** Each queue is left with what comes after the items popped off its front, and the live ones among those are the
      batch: nothing but a dead item popped is dropped. */
  lemma {:induction false} NextPops<T>(alone: seq<T>, due: seq<T>, live: set<T>)
    ensures var p := Pick(alone, due, live);
            && |p.alone| <= |alone| && |p.due| <= |due|
            && alone[|alone| - |p.alone|..] == p.alone
            && due[|due| - |p.due|..] == p.due
            && p.batch == Kept(alone[..|alone| - |p.alone|], live) + Kept(due[..|due| - |p.due|], live)
  {
    PoppedFills(alone, live, 1);
    var k := Popped(alone, live, 1);
    if Kept(alone[..k], live) == [] { assert alone[..k] == alone; }
  }

  /** A batch has 1 to `MAX_WITHDRAW_BATCH` items, and only one if it comes from `alone`; with no live item
      queued it is empty, and both queues end up empty. */
  lemma {:induction false} NextBatchSize<T>(alone: seq<T>, due: seq<T>, live: set<T>)
    ensures var p := Pick(alone, due, live);
            && |p.batch| <= MAX_WITHDRAW_BATCH
            && (p.batch == [] ==> p.alone == [] && p.due == [])
            && (p.batch == [] <==> Kept(alone + due, live) == [])
            && (p.due != due ==> p.alone == [])
            && (|p.batch| > 1 ==> p.alone == [] && Kept(alone, live) == [])
            && |p.alone| <= |alone| && |p.due| <= |due|
            && |p.batch| + |p.alone| + |p.due| <= |alone| + |due|
  {
    NextConserves(alone, due, live);
    PoppedFills(alone, live, 1);
    PoppedFills(due, live, MAX_WITHDRAW_BATCH);
    KeptSplit(alone, live, Popped(alone, live, 1));
    assert alone[..|alone|] == alone;
  }

  /** Where the items of a batch come from, by number. */
  lemma NextSizes<T>(alone: seq<T>, due: seq<T>, live: set<T>)
    ensures var p := Pick(alone, due, live);
            || (p.due == due && |p.batch| == 1 && |p.alone| + 1 <= |alone|)
            || (p.alone == [] && |p.batch| + |p.due| <= |due|)
  {
    PoppedFills(alone, live, 1);
    PoppedFills(due, live, MAX_WITHDRAW_BATCH);
  }

  /** Over the batch and both queues an item is as often as it was queued if it is live, and at most so
      otherwise; the batch holds live items only, and just one unless it comes from `due`. */
  ghost predicate Conserves<T>(alone: seq<T>, due: seq<T>, live: set<T>, p: Picked<T>, x: T) {
    var before := multiset(alone)[x] + multiset(due)[x];
    var after := multiset(p.batch)[x] + multiset(p.alone)[x] + multiset(p.due)[x];
    && after <= before
    && (x in live ==> after == before)
    && (x in p.batch ==> x in live)
    && multiset(p.alone)[x] <= multiset(alone)[x]
    && multiset(p.due)[x] <= multiset(due)[x]
    && (x in p.batch && |p.batch| > 1 ==> x in due)
  }

  lemma NextMultiplicity<T>(alone: seq<T>, due: seq<T>, live: set<T>, x: T)
    ensures Conserves(alone, due, live, Pick(alone, due, live), x)
  {
    var p := Pick(alone, due, live);
    var k, m := Popped(alone, live, 1), Popped(due, live, MAX_WITHDRAW_BATCH);
    SplitMultiplicity(alone, live, k, x);
    SplitMultiplicity(due, live, m, x);
    PoppedFills(alone, live, 1);
    assert alone[..|alone|] == alone;
    assert x in p.batch <==> multiset(p.batch)[x] > 0;
  }

  /** Membership form, for items queued at most once. */
  lemma NextMembers<T>(alone: seq<T>, due: seq<T>, live: set<T>, p: Picked<T>, x: T)
    requires Conserves(alone, due, live, p, x) && multiset(alone)[x] + multiset(due)[x] <= 1
    ensures x in p.alone ==> x in alone && x !in p.batch
    ensures x in p.due ==> x in due && x !in p.batch
    ensures x in p.batch ==> x in live && (x in alone || x in due) && multiset(p.batch)[x] == 1
    ensures x in p.batch && |p.batch| > 1 ==> x in due
  {}

  lemma {:induction false} SplitMultiplicity<T>(q: seq<T>, live: set<T>, m: nat, x: T)
    requires m <= |q|
    ensures multiset(q)[x] == multiset(q[..m])[x] + multiset(q[m..])[x]
    ensures multiset(Kept(q[..m], live))[x] == if x in live then multiset(q[..m])[x] else 0
  {
    assert q == q[..m] + q[m..];
    KeptMultiplicity(q[..m], live, x);
  }

  /** No element is in the sequence twice. */
  ghost predicate Distinct<T>(q: seq<T>) {
    forall x | x in q :: multiset(q)[x] == 1
  }

  lemma {:induction false} DistinctIndices<T>(q: seq<T>, i: nat, j: nat)
    requires Distinct(q) && i < j < |q|
    ensures q[i] != q[j]
  {
    assert q == q[..j] + [q[j]] + q[j + 1..];
    assert q[..j][i] == q[i];
    assert q[i] in q[..j] && multiset(q[..j])[q[i]] >= 1;
    assert multiset(q)[q[i]] == multiset(q[..j])[q[i]] + multiset([q[j]])[q[i]] + multiset(q[j + 1..])[q[i]];
  }

  /** One more item popped. */
  lemma {:induction false} PopOne<T>(q: seq<T>, live: set<T>, k: nat, room: nat)
    requires k < |q| && room > 0
    ensures Kept(q[..k + 1], live) == Kept(q[..k], live) + if q[k] in live then [q[k]] else []
    ensures Popped(q[k..], live, room) == 1 + Popped(q[k + 1..], live, if q[k] in live then room - 1 else room)
  {
    assert q[..k + 1] == q[..k] + [q[k]];
    KeptConcat(q[..k], [q[k]], live);
    assert q[k..][1..] == q[k + 1..];
  }

  class Queue<T(==)> {
    var due: seq<T>
    var alone: seq<T>
    var sending: bool

    constructor ()
      ensures due == [] && alone == [] && !sending
    {
      due, alone, sending := [], [], false;
    }

    /** Removes the items of a failed batch up to the first live one, and returns that. */
    method NextAlone(live: set<T>) returns (batch: seq<T>)
      modifies this`alone
      ensures var k := Popped(old(alone), live, 1);
              batch == Kept(old(alone)[..k], live) && alone == old(alone)[k..]
    {
      ghost var a, k := alone, 0;
      while |alone| > 0
        invariant k <= |a| && alone == a[k..]
        invariant Kept(a[..k], live) == [] && Popped(a, live, 1) == k + Popped(a[k..], live, 1)
        decreases |alone|
      {
        var item := alone[0];
        alone := alone[1..];
        PopOne(a, live, k, 1);
        k := k + 1;
        if item in live {
          return [item];
        }
      }
      return [];
    }

    /** Removes due items up to a full batch of live ones, and returns those. */
    method NextDue(live: set<T>) returns (batch: seq<T>)
      modifies this`due
      ensures var m := Popped(old(due), live, MAX_WITHDRAW_BATCH);
              batch == Kept(old(due)[..m], live) && due == old(due)[m..]
    {
      batch := [];
      ghost var d, m := due, 0;
      while |due| > 0 && |batch| < MAX_WITHDRAW_BATCH
        invariant m <= |d| && due == d[m..]
        invariant batch == Kept(d[..m], live) && |batch| <= MAX_WITHDRAW_BATCH
        invariant Popped(d, live, MAX_WITHDRAW_BATCH) == m + Popped(d[m..], live, MAX_WITHDRAW_BATCH - |batch|)
        decreases |due|
      {
        var item := due[0];
        due := due[1..];
        PopOne(d, live, m, MAX_WITHDRAW_BATCH - |batch|);
        m := m + 1;
        if item in live {
          batch := batch + [item];
        }
      }
    }

    /** Removes and returns the items of the next transaction; `live` is what the caller keeps. */
    method Next(live: set<T>) returns (batch: seq<T>)
      modifies this`due, this`alone
      ensures Picked(batch, alone, due) == Pick(old(alone), old(due), live)
    {
      PoppedAll(alone, live);
      batch := NextAlone(live);
      if |batch| > 0 {
        return;
      }
      batch := NextDue(live);
    }
  }

  /** If none of them is live, all are popped. */
  lemma {:induction false} PoppedAll<T>(q: seq<T>, live: set<T>)
    ensures Kept(q[..Popped(q, live, 1)], live) == [] ==> Popped(q, live, 1) == |q|
  {
    if q != [] && q[0] !in live {
      PoppedAll(q[1..], live);
      assert q[..Popped(q, live, 1)][1..] == q[1..][..Popped(q[1..], live, 1)];
    }
  }
}
