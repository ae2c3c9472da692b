/** Sums over finite maps and over sequences: the bookkeeping behind every statement about value. */
module Totals {

  /** The sum of all values of a finite map. */
  ghost function Total<K>(m: map<K, nat>): nat
  {
    if m == map[] then 0
    else
      var k :| k in m;
      m[k] + Total(m - {k})
  }

  lemma {:induction false} TotalRemove<K>(m: map<K, nat>, k: K)
    requires k in m
    ensures Total(m) == m[k] + Total(m - {k})
    decreases |m|
  {
    var j :| j in m && Total(m) == m[j] + Total(m - {j});
    if j != k {
      TotalRemove(m - {j}, k);
      TotalRemove(m - {k}, j);
      assert m - {j} - {k} == m - {k} - {j};
    }
  }

  lemma TotalInsert<K>(m: map<K, nat>, k: K, v: nat)
    requires k !in m
    ensures Total(m[k := v]) == Total(m) + v
  {
    TotalRemove(m[k := v], k);
    assert m[k := v] - {k} == m;
  }

  lemma TotalUpdate<K>(m: map<K, nat>, k: K, v: nat)
    requires k in m
    ensures Total(m[k := v]) + m[k] == Total(m) + v
  {
    TotalRemove(m, k);
    TotalRemove(m[k := v], k);
    assert m[k := v] - {k} == m - {k};
  }

  lemma {:induction false} TotalUnion<K>(m: map<K, nat>, n: map<K, nat>)
    requires m.Keys !! n.Keys
    ensures Total(m + n) == Total(m) + Total(n)
    decreases n.Keys
  {
    if n == map[] {
      assert m + n == m;
    } else {
      var k :| k in n;
      var n' := n - {k};
      assert n == n'[k := n[k]];
      assert m + n == (m + n')[k := n[k]];
      TotalInsert(n', k, n[k]);
      TotalInsert(m + n', k, n[k]);
      assert k !in m + n';
      assert n'.Keys < n.Keys;
      TotalUnion(m, n');
    }
  }

  /** A map splits into the part inside a key set and the part outside it. */
  lemma TotalSplit<K>(m: map<K, nat>, ks: set<K>)
    ensures Total(m) == Total(m - ks) + Total(map k | k in m && k in ks :: m[k])
  {
    var inside := map k | k in m && k in ks :: m[k];
    assert m == (m - ks) + inside;
    TotalUnion(m - ks, inside);
  }

  lemma {:induction false} TotalMonotone<K>(m: map<K, nat>, n: map<K, nat>)
    requires m.Keys <= n.Keys
    requires forall k | k in m :: m[k] <= n[k]
    ensures Total(m) <= Total(n)
    decreases |m|
  {
    if m != map[] {
      var k :| k in m;
      TotalRemove(m, k);
      TotalRemove(n, k);
      TotalMonotone(m - {k}, n - {k});
    }
  }

  /** The sum of a sequence, front to back as the source's loops add it up. */
  function Sum(s: seq<nat>): nat
  {
    if s == [] then 0 else Sum(s[..|s| - 1]) + s[|s| - 1]
  }

  lemma SumSnoc(s: seq<nat>, x: nat)
    ensures Sum(s + [x]) == Sum(s) + x
  {
  }

  lemma {:induction false} SumAppend(s: seq<nat>, t: seq<nat>)
    ensures Sum(s + t) == Sum(s) + Sum(t)
  {
    if t == [] {
      assert s + t == s;
    } else {
      var last := t[|t| - 1];
      SumAppend(s, t[..|t| - 1]);
      SumSnoc(s + t[..|t| - 1], last);
      assert s + t == s + t[..|t| - 1] + [last];
    }
  }

  /** The sum of a weight over a sequence. */
  function SumOf<T>(w: T -> nat, s: seq<T>): nat
  {
    if s == [] then 0 else SumOf(w, s[..|s| - 1]) + w(s[|s| - 1])
  }

  lemma SumOfSnoc<T>(w: T -> nat, s: seq<T>, x: T)
    ensures SumOf(w, s + [x]) == SumOf(w, s) + w(x)
  {
  }

  lemma {:induction false} SumOfAppend<T>(w: T -> nat, s: seq<T>, t: seq<T>)
    ensures SumOf(w, s + t) == SumOf(w, s) + SumOf(w, t)
  {
    if t == [] {
      assert s + t == s;
    } else {
      var n := |t| - 1;
      SumOfAppend(w, s, t[..n]);
      SumOfSnoc(w, s + t[..n], t[n]);
      assert s + t == s + t[..n] + [t[n]];
    }
  }

  lemma RemoveFromMultiset<T>(s: seq<T>, t: seq<T>, j: nat)
    requires s != [] && multiset(s) == multiset(t)
    requires j < |t| && t[j] == s[|s| - 1]
    ensures multiset(s[..|s| - 1]) == multiset(t[..j] + t[j + 1..])
  {
    assert s == s[..|s| - 1] + [t[j]];
    assert t == t[..j] + [t[j]] + t[j + 1..];
    assert multiset(t[..j] + t[j + 1..]) == multiset(t) - multiset{t[j]};
    assert multiset(s[..|s| - 1]) == multiset(s) - multiset{t[j]};
  }

  lemma SumOfDrop<T>(w: T -> nat, t: seq<T>, j: nat)
    requires j < |t|
    ensures SumOf(w, t) == SumOf(w, t[..j] + t[j + 1..]) + w(t[j])
  {
    hide SumOf;
    var before, after := t[..j], t[j + 1..];
    assert t == before + [t[j]] + after;
    SumOfAppend(w, before + [t[j]], after);
    SumOfSnoc(w, before, t[j]);
    SumOfAppend(w, before, after);
  }

  /** The order of a sequence does not change its sum. */
  lemma {:induction false} SumOfIgnoresOrder<T>(w: T -> nat, s: seq<T>, t: seq<T>)
    requires multiset(s) == multiset(t)
    ensures SumOf(w, s) == SumOf(w, t)
    decreases |s|
  {
    if s == [] {
      assert |multiset(t)| == 0;
    } else {
      var n := |s| - 1;
      assert s[n] in multiset(t);
      var j :| 0 <= j < |t| && t[j] == s[n];
      RemoveFromMultiset(s, t, j);
      SumOfIgnoresOrder(w, s[..n], t[..j] + t[j + 1..]);
      SumOfDrop(w, t, j);
    }
  }

  lemma {:induction false} SumOfBound<T>(w: T -> nat, s: seq<T>, bound: nat)
    requires forall i | 0 <= i < |s| :: w(s[i]) <= bound
    ensures SumOf(w, s) <= |s| * bound
  {
    if s != [] {
      SumOfBound(w, s[..|s| - 1], bound);
      assert |s| * bound == (|s| - 1) * bound + bound;
    }
  }

  /** Summing a sequence that lists a map's entries once each gives the map's total. */
  lemma {:induction false} SumOfListing<K, T>(key: T -> K, w: T -> nat, s: seq<T>, m: map<K, nat>)
    requires forall i, j | 0 <= i < j < |s| :: key(s[i]) != key(s[j])
    requires forall k | k in m :: exists i :: 0 <= i < |s| && key(s[i]) == k
    requires forall i | 0 <= i < |s| :: key(s[i]) in m && m[key(s[i])] == w(s[i])
    ensures SumOf(w, s) == Total(m)
    decreases |s|
  {
    if s == [] {
      assert m == map[];
    } else {
      var n := |s| - 1;
      var k := key(s[n]);
      TotalRemove(m, k);
      SumOfListing(key, w, s[..n], m - {k});
    }
  }

  /** The sum of a weight over the elements that have a given key. */
  function GroupSum<T, K(==)>(key: T -> K, w: T -> nat, k: K, s: seq<T>): nat
  {
    if s == [] then 0
    else GroupSum(key, w, k, s[..|s| - 1]) + if key(s[|s| - 1]) == k then w(s[|s| - 1]) else 0
  }

  ghost function Groups<T, K>(key: T -> K, w: T -> nat, s: seq<T>, ks: set<K>): map<K, nat>
  {
    map k | k in ks :: GroupSum(key, w, k, s)
  }

  /** Grouping loses nothing: the groups together make the whole sum. */
  lemma {:induction false} GroupsMakeTheSum<T, K>(key: T -> K, w: T -> nat, s: seq<T>, ks: set<K>)
    requires forall i | 0 <= i < |s| :: key(s[i]) in ks
    ensures Total(Groups(key, w, s, ks)) == SumOf(w, s)
  {
    if s == [] {
      AllZero(Groups(key, w, s, ks));
    } else {
      var n := |s| - 1;
      var k := key(s[n]);
      GroupsMakeTheSum(key, w, s[..n], ks);
      var before := Groups(key, w, s[..n], ks);
      assert Groups(key, w, s, ks) == before[k := before[k] + w(s[n])];
      TotalUpdate(before, k, before[k] + w(s[n]));
    }
  }

  lemma {:induction false} AllZero<K>(m: map<K, nat>)
    requires forall k | k in m :: m[k] == 0
    ensures Total(m) == 0
    decreases m.Keys
  {
    if m != map[] {
      var k :| k in m;
      TotalRemove(m, k);
      assert (m - {k}).Keys < m.Keys;
      AllZero(m - {k});
    }
  }
}
