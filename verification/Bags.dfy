/** The bag of everything stored in an index-keyed map of sequences. */
module Bags {

  /** The elements of `m` collected by taking out up to `n` keys. */
  ghost function Collect<T>(m: map<nat, seq<T>>, n: nat): multiset<T>
  {
    if n == 0 || m == map[] then multiset{} else
    var k :| k in m;
    multiset(m[k]) + Collect(m - {k}, n - 1)
  }

  lemma CollectFirst<T>(m: map<nat, seq<T>>, n: nat) returns (j: nat)
    requires m != map[] && n > 0
    ensures j in m && Collect(m, n) == multiset(m[j]) + Collect(m - {j}, n - 1)
  {
    j :| j in m && Collect(m, n) == multiset(m[j]) + Collect(m - {j}, n - 1);
  }

  /** Any key may be taken out first, and more steps than keys change nothing. */
  lemma {:induction false} CollectRemove<T>(m: map<nat, seq<T>>, k: nat, n: nat)
    requires k in m && |m| <= n
    ensures Collect(m, n) == multiset(m[k]) + Collect(m - {k}, n - 1)
    decreases n
  {
    var j := CollectFirst(m, n);
    hide Collect;
    if j != k {
      RemoveTwo(m, j, k);
      CollectRemove(m - {j}, k, n - 1);
      CollectRemove(m - {k}, j, n - 1);
      Swap(multiset(m[j]), multiset(m[k]), Collect(m - {j} - {k}, n - 2));
    }
  }

  lemma RemoveTwo<T>(m: map<nat, seq<T>>, j: nat, k: nat)
    requires j in m && k in m && j != k
    ensures m - {j} - {k} == m - {k} - {j} && |m - {j}| == |m - {k}| == |m| - 1 && |m| >= 2
    ensures k in m - {j} && (m - {j})[k] == m[k] && j in m - {k} && (m - {k})[j] == m[j]
  {
    assert |{j, k}| == 2 && {j, k} <= m.Keys;
    assert (m - {j}).Keys == m.Keys - {j} && (m - {k}).Keys == m.Keys - {k};
    assert k in m - {j};
    assert |m - {j}| >= 1;
  }

  lemma Swap<T>(a: multiset<T>, b: multiset<T>, c: multiset<T>)
    ensures a + (b + c) == b + (a + c)
  {
  }

  lemma {:induction false} CollectEnough<T>(m: map<nat, seq<T>>, n: nat)
    requires |m| <= n
    ensures Collect(m, n) == Collect(m, |m|)
  {
    if m != map[] {
      var k :| k in m;
      CollectRemove(m, k, n);
      CollectRemove(m, k, |m|);
      CollectEnough(m - {k}, n - 1);
    }
  }

  /** All elements of all sequences of `m`, with multiplicity. */
  ghost function Bag<T>(m: map<nat, seq<T>>): multiset<T>
  {
    assert IsBag(m, Collect(m, |m|)) by {
      forall n: nat | |m| <= n { CollectEnough(m, n); }
    }
    var b :| IsBag(m, b);
    b
  }

  ghost predicate IsBag<T>(m: map<nat, seq<T>>, b: multiset<T>)
  {
    forall n: nat :: |m| <= n ==> Collect(m, n) == b
  }

  lemma BagEmpty<T>(x: T)
    ensures Bag<T>(map[])[x] == 0
  {
    assert Collect<T>(map[], 0) == multiset{};
  }

  /** Taking out a key takes out exactly its elements. */
  lemma BagRemove<T>(m: map<nat, seq<T>>, k: nat, x: T)
    requires k in m
    ensures Bag(m)[x] == multiset(m[k])[x] + Bag(m - {k})[x]
  {
    CollectRemove(m, k, |m|);
    assert |m - {k}| == |m| - 1;
    assert Collect(m, |m|) == Bag(m);
    assert Collect(m - {k}, |m| - 1) == Bag(m - {k});
  }

  /** Adding a batch under a fresh key adds exactly its elements. */
  lemma BagInsert<T>(m: map<nat, seq<T>>, k: nat, v: seq<T>, x: T)
    requires k !in m
    ensures Bag(m[k := v])[x] == Bag(m)[x] + multiset(v)[x]
  {
    BagRemove(m[k := v], k, x);
    assert m[k := v] - {k} == m;
  }

  /** Appending to a batch, or starting one, adds exactly the appended elements. */
  lemma BagExtend<T>(m: map<nat, seq<T>>, k: nat, v: seq<T>, more: seq<T>, x: T)
    requires v == if k in m then m[k] + more else more
    ensures Bag(m[k := v])[x] == Bag(m)[x] + multiset(more)[x]
  {
    if k in m {
      BagRemove(m, k, x);
      BagRemove(m[k := v], k, x);
      assert m[k := v] - {k} == m - {k};
    } else {
      BagInsert(m, k, v, x);
    }
  }

  lemma PlusMinus<V>(a: map<nat, V>, b: map<nat, V>, k: nat)
    requires k !in b
    ensures (a + b) - {k} == (a - {k}) + b
  {
  }

  /** Splitting a map splits its bag. */
  lemma {:induction false} BagSplit<T>(a: map<nat, seq<T>>, b: map<nat, seq<T>>, x: T)
    requires a.Keys !! b.Keys
    ensures Bag(a + b)[x] == Bag(a)[x] + Bag(b)[x]
    decreases |a|
  {
    if a == map[] {
      BagEmpty(x);
      assert a + b == b;
    } else {
      var k :| k in a;
      BagSplit(a - {k}, b, x);
      BagRemove(a, k, x);
      BagRemove(a + b, k, x);
      PlusMinus(a, b, k);
    }
  }

  /** Leaving out one position takes out one copy of its element. */
  lemma WithoutOne<T>(xs: seq<T>, k: nat)
    requires k < |xs|
    ensures multiset(xs[..k] + xs[k + 1..]) == multiset(xs) - multiset{xs[k]}
  {
    assert xs == xs[..k] + [xs[k]] + xs[k + 1..];
  }

  /** Leaving out a position and then the last one, or the other way round. */
  lemma WithoutLast<T>(xs: seq<T>, k: nat)
    requires k < |xs| - 1
    ensures var rest, init := xs[..k] + xs[k + 1..], xs[..|xs| - 1];
      && |rest| == |init| && rest[..|rest| - 1] == init[..k] + init[k + 1..] && rest[|rest| - 1] == xs[|xs| - 1]
  {
    var n := |xs| - 1;
    assert xs[..n][..k] == xs[..k];
    assert xs[..n][k + 1..] == xs[k + 1..n];
    assert xs[k + 1..] == xs[k + 1..n] + [xs[n]];
    assert xs[..k] + xs[k + 1..] == xs[..k] + xs[k + 1..n] + [xs[n]];
  }

  lemma BagTake<T>(m: map<nat, seq<T>>, k: nat)
    requires k in m
    ensures Bag(m) == multiset(m[k]) + Bag(m - {k})
  {
    CollectRemove(m, k, |m|);
    assert IsBag(m, Bag(m)) && IsBag(m - {k}, Bag(m - {k}));
  }

  /** An element of the bag lives under some key. */
  lemma {:induction false} BagMember<T>(m: map<nat, seq<T>>, x: T)
    ensures Bag(m)[x] > 0 <==> exists k :: k in m && x in m[k]
    decreases |m|
  {
    if m == map[] {
      BagEmpty(x);
    } else {
      var k :| k in m;
      BagRemove(m, k, x);
      BagMember(m - {k}, x);
      if Bag(m - {k})[x] > 0 {
        var j :| j in m - {k} && x in (m - {k})[j];
        assert x in m[j];
      }
      if exists j :: j in m && x in m[j] {
        var j :| j in m && x in m[j];
        if j != k { assert x in (m - {k})[j]; }
      }
    }
  }
}
