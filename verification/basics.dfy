/** Byte strings with the order the server sorts device identifiers by, and
    sums over finite maps. */
module Basics {

  datatype Option<+T> = None | Some(value: T)

  newtype Byte = x: int | 0 <= x < 256

  type Bytes = seq<Byte>

  /** The lexicographic order of byte vectors. */
  predicate Less(a: Bytes, b: Bytes) {
    if b == [] then false
    else if a == [] then true
    else a[0] < b[0] || (a[0] == b[0] && Less(a[1..], b[1..]))
  }

  lemma {:induction false} LessIrreflexive(a: Bytes)
    ensures !Less(a, a)
  {
    if a != [] {
      LessIrreflexive(a[1..]);
    }
  }

  lemma {:induction false} LessTransitive(a: Bytes, b: Bytes, c: Bytes)
    requires Less(a, b) && Less(b, c)
    ensures Less(a, c)
  {
    if a != [] && a[0] == b[0] && b[0] == c[0] {
      LessTransitive(a[1..], b[1..], c[1..]);
    }
  }

  lemma {:induction false} LessTotal(a: Bytes, b: Bytes)
    ensures a == b || Less(a, b) || Less(b, a)
  {
    if a != [] && b != [] && a[0] == b[0] {
      LessTotal(a[1..], b[1..]);
      assert a == [a[0]] + a[1..] && b == [b[0]] + b[1..];
    }
  }

  /** After a common beginning the one ends, or goes on with the smaller byte. */
  ghost predicate InByteOrder(a: Bytes, b: Bytes) {
    exists k: nat :: k <= |a| && k < |b| && a[..k] == b[..k] && (k == |a| || a[k] < b[k])
  }

  /** One byte string comes before another if and only if, after a common beginning, it
      ends or goes on with the smaller byte. */
  lemma {:induction false} LessIsByteOrder(a: Bytes, b: Bytes)
    ensures Less(a, b) <==> InByteOrder(a, b)
  {
    if b != [] && a != [] && a[0] == b[0] {
      LessIsByteOrder(a[1..], b[1..]);
      if k: nat :| k <= |a| && k < |b| && a[..k] == b[..k] && (k == |a| || a[k] < b[k]) {
        SamePrefix(a, b, k);
        assert a[1..][..k - 1] == b[1..][..k - 1];
      }
      if j: nat :| j <= |a[1..]| && j < |b[1..]| && a[1..][..j] == b[1..][..j]
                   && (j == |a[1..]| || a[1..][j] < b[1..][j]) {
        LongerPrefix(a, b, j);
        assert a[..j + 1] == b[..j + 1];
      }
    } else if b != [] {
      assert a[..0] == b[..0];
    }
  }

  lemma SamePrefix(a: Bytes, b: Bytes, k: nat)
    requires a != [] && b != [] && k <= |a| && k < |b| && a[0] == b[0]
    requires a[..k] == b[..k] && (k == |a| || a[k] < b[k])
    ensures k > 0 && a[1..][..k - 1] == b[1..][..k - 1]
  {
    assert a[1..][..k - 1] == a[..k][1..] && b[1..][..k - 1] == b[..k][1..];
  }

  lemma LongerPrefix(a: Bytes, b: Bytes, j: nat)
    requires a != [] && b != [] && a[0] == b[0] && j <= |a[1..]| && j <= |b[1..]| && a[1..][..j] == b[1..][..j]
    ensures a[..j + 1] == b[..j + 1]
  {
    assert a[..j + 1] == [a[0]] + a[1..][..j] && b[..j + 1] == [b[0]] + b[1..][..j];
  }

  /** The sum of a finite map's values. */
  ghost function MapSum(m: map<Bytes, nat>): nat
    decreases m.Keys
  {
    if m == map[] then 0 else
      var k :| k in m;
      assert (m - {k}).Keys < m.Keys;
      m[k] + MapSum(m - {k})
  }

  /** The sum does not depend on which key is taken out first. */
  lemma {:induction false} MapSumRemove(m: map<Bytes, nat>, k: Bytes)
    requires k in m
    ensures MapSum(m) == m[k] + MapSum(m - {k})
    decreases m.Keys
  {
    var h :| h in m && MapSum(m) == m[h] + MapSum(m - {h});
    if h != k {
      assert (m - {h}).Keys < m.Keys && (m - {k}).Keys < m.Keys;
      MapSumRemove(m - {h}, k);
      MapSumRemove(m - {k}, h);
      assert m - {h} - {k} == m - {k} - {h};
    }
  }

  /** Two disjoint maps lying below a third sum to at most its sum. */
  lemma {:induction false} MapSumSplit(a: map<Bytes, nat>, b: map<Bytes, nat>, w: map<Bytes, nat>)
    requires a.Keys !! b.Keys && a.Keys + b.Keys <= w.Keys
    requires forall k | k in a :: a[k] <= w[k]
    requires forall k | k in b :: b[k] <= w[k]
    ensures MapSum(a) + MapSum(b) <= MapSum(w)
    ensures a.Keys + b.Keys == w.Keys && (forall k | k in a :: a[k] == w[k]) && (forall k | k in b :: b[k] == w[k])
            ==> MapSum(a) + MapSum(b) == MapSum(w)
    decreases w.Keys
  {
    if w.Keys == {} {
      assert w == map[] && a == map[] && b == map[];
    } else {
      var k :| k in w;
      MapSumRemove(w, k);
      assert (w - {k}).Keys < w.Keys;
      if k in a {
        MapSumRemove(a, k);
        assert b - {k} == b;
      } else if k in b {
        MapSumRemove(b, k);
        assert a - {k} == a;
      } else {
        assert a - {k} == a && b - {k} == b;
      }
      MapSumSplit(a - {k}, b - {k}, w - {k});
    }
  }

  lemma SubsetSameSize<T>(a: set<T>, b: set<T>)
    requires a <= b
    ensures |a| <= |b| && (|a| == |b| <==> a == b)
  {
    assert b == a + (b - a);
  }
}
