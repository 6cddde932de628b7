/** The order in which entries are given up: by last access, then by key. */
module Recency {
  predicate Less(a: string, b: string) {
    b != "" && (a == "" || a[0] < b[0] || (a[0] == b[0] && Less(a[1..], b[1..])))
  }

  lemma {:induction false} LessTotal(a: string, b: string)
    ensures Less(a, b) || Less(b, a) || a == b
    ensures !(Less(a, b) && Less(b, a))
  {
    if a != "" && b != "" && a[0] == b[0] {
      LessTotal(a[1..], b[1..]);
      assert a[1..] == b[1..] ==> a == [a[0]] + a[1..] == [b[0]] + b[1..] == b;
    }
  }

  lemma {:induction false} LessTransitive(a: string, b: string, c: string)
    requires Less(a, b) && Less(b, c)
    ensures Less(a, c)
  {
    if a != "" && a[0] == b[0] == c[0] { LessTransitive(a[1..], b[1..], c[1..]); }
  }

  /** `a` is given up before `b`. */
  predicate Before(accessed: map<string, int>, a: string, b: string)
    requires a in accessed && b in accessed
  {
    accessed[a] < accessed[b] || (accessed[a] == accessed[b] && Less(a, b))
  }

  predicate Ordered(accessed: map<string, int>, keys: seq<string>) {
    && (forall i | 0 <= i < |keys| :: keys[i] in accessed)
    && (forall i, j | 0 <= i < j < |keys| :: Before(accessed, keys[i], keys[j]))
  }

  lemma BeforeTotal(accessed: map<string, int>, a: string, b: string)
    requires a in accessed && b in accessed
    ensures a != b ==> Before(accessed, a, b) || Before(accessed, b, a)
    ensures !(Before(accessed, a, b) && Before(accessed, b, a))
  {
    LessTotal(a, b);
  }

  lemma BeforeTransitive(accessed: map<string, int>, a: string, b: string, c: string)
    requires a in accessed && b in accessed && c in accessed && Before(accessed, a, b) && Before(accessed, b, c)
    ensures Before(accessed, a, c)
  {
    if accessed[a] == accessed[b] == accessed[c] { LessTransitive(a, b, c); }
  }

  lemma HeadOnce(accessed: map<string, int>, keys: seq<string>)
    requires Ordered(accessed, keys) && keys != []
    ensures keys[0] !in keys[1..]
    ensures keys == [keys[0]] + keys[1..]
  {
    BeforeTotal(accessed, keys[0], keys[0]);
    forall i | 0 <= i < |keys| - 1 ensures keys[1..][i] != keys[0] { assert Before(accessed, keys[0], keys[i + 1]); }
  }

  /** There is one such order of a set of keys. */
  lemma {:induction false} OrderUnique(accessed: map<string, int>, a: seq<string>, b: seq<string>)
    requires Ordered(accessed, a) && Ordered(accessed, b)
    requires forall k :: k in a <==> k in b
    ensures a == b
    decreases |a|
  {
    var head := if b != [] then b[0] else "";
    assert b != [] ==> head in b;
    if a != [] {
      assert a[0] in b && b != [];
      assert b[0] in a;
      BeforeTotal(accessed, a[0], b[0]);
      assert a[0] == b[0];
      HeadOnce(accessed, a);
      HeadOnce(accessed, b);
      forall k ensures k in a[1..] <==> k in b[1..] {
        assert k in a <==> k == a[0] || k in a[1..];
        assert k in b <==> k == b[0] || k in b[1..];
      }
      OrderUnique(accessed, a[1..], b[1..]);
    }
  }

  /** The keys in that order, by insertion. */
  method Sort(accessed: map<string, int>, keys: set<string>) returns (order: seq<string>)
    requires keys <= accessed.Keys
    ensures Ordered(accessed, order)
    ensures forall k :: k in order <==> k in keys
    ensures |order| == |keys|
  {
    order := [];
    var rest := keys;
    while rest != {}
      invariant rest <= keys && Ordered(accessed, order)
      invariant forall k :: k in order <==> k in keys && k !in rest
      invariant |order| + |rest| == |keys|
      decreases |rest|
    {
      var k :| k in rest;
      rest := rest - {k};
      order := Insert(accessed, order, k);
    }
  }

  method Insert(accessed: map<string, int>, keys: seq<string>, key: string) returns (order: seq<string>)
    requires Ordered(accessed, keys) && key in accessed && key !in keys
    ensures Ordered(accessed, order) && |order| == |keys| + 1
    ensures forall k :: k in order <==> k in keys || k == key
  {
    var i := 0;
    while i < |keys| && Before(accessed, keys[i], key)
      invariant 0 <= i <= |keys|
      invariant forall j | 0 <= j < i :: Before(accessed, keys[j], key)
    {
      i := i + 1;
    }
    order := keys[..i] + [key] + keys[i..];
    forall j | i <= j < |keys| ensures Before(accessed, key, keys[j]) {
      BeforeTotal(accessed, key, keys[i]);
      if i < j { BeforeTransitive(accessed, key, keys[i], keys[j]); }
    }
  }

  // ----- What the order means

  /** The first `n` characters are the same, and then `a` ends or has the smaller character. */
  predicate DiffersAt(a: string, b: string, n: nat) {
    n <= |a| && n < |b| && a[..n] == b[..n] && (n == |a| || a[n] < b[n])
  }

  /** `a` comes before `b` in a dictionary. */
  ghost predicate Precedes(a: string, b: string) {
    exists n: nat :: DiffersAt(a, b, n)
  }

  lemma {:induction false} LessIsPrecedes(a: string, b: string)
    ensures Less(a, b) <==> Precedes(a, b)
  {
    if a == "" || b == "" || a[0] != b[0] {
      if Less(a, b) { assert DiffersAt(a, b, 0); }
      assert forall n: nat :: n > 0 && n <= |a| && n <= |b| ==> a[..n][0] == a[0] && b[..n][0] == b[0];
    } else {
      LessIsPrecedes(a[1..], b[1..]);
      forall n: nat | n <= |a[1..]| && n < |b[1..]| ensures DiffersAt(a[1..], b[1..], n) <==> DiffersAt(a, b, n + 1) {
        assert a[..n + 1] == [a[0]] + a[1..][..n] && b[..n + 1] == [b[0]] + b[1..][..n];
      }
      if Precedes(a[1..], b[1..]) {
        var n: nat :| DiffersAt(a[1..], b[1..], n);
        assert DiffersAt(a, b, n + 1);
      }
      if Precedes(a, b) {
        var n: nat :| DiffersAt(a, b, n);
        assert DiffersAt(a[1..], b[1..], n - 1);
      }
    }
  }

  /** Each victim was last used before everything that was still there when it went, other than `keep`, or at the same time and
      has the name that comes first. */
  ghost predicate LeastRecent(accessed: map<string, int>, keep: string, victims: seq<string>) {
    forall i, k | 0 <= i < |victims| && k in accessed && k != keep && k !in victims[..i + 1] ::
      && victims[i] in accessed
      && (accessed[victims[i]] < accessed[k] || (accessed[victims[i]] == accessed[k] && Precedes(victims[i], k)))
  }

  lemma OrderedLeastRecent(accessed: map<string, int>, keep: string, order: seq<string>, n: nat)
    requires Ordered(accessed, order) && n <= |order| && forall k :: k in order <==> k in accessed && k != keep
    ensures LeastRecent(accessed, keep, order[..n])
  {
    forall i, k | 0 <= i < n && k in accessed && k != keep && k !in order[..n][..i + 1]
      ensures accessed[order[i]] < accessed[k] || (accessed[order[i]] == accessed[k] && Precedes(order[i], k))
    {
      assert order[..n][..i + 1] == order[..i + 1];
      forall j | 0 <= j <= i ensures order[j] in order[..i + 1] { assert order[..i + 1][j] == order[j]; }
      assert k in order;
      var j :| 0 <= j < |order| && order[j] == k;
      LessIsPrecedes(order[i], k);
    }
  }

  /** Only the times of the other entries matter. */
  lemma LeastRecentWith(accessed: map<string, int>, keep: string, time: int, victims: seq<string>)
    requires LeastRecent(accessed[keep := time], keep, victims) && keep !in victims
    ensures LeastRecent(accessed, keep, victims)
  {
    var times := accessed[keep := time];
    forall i, k | 0 <= i < |victims| && k in accessed && k != keep && k !in victims[..i + 1]
      ensures victims[i] in accessed
      ensures accessed[victims[i]] < accessed[k] || (accessed[victims[i]] == accessed[k] && Precedes(victims[i], k))
    {
      assert k in times && victims[i] != keep && victims[i] in times;
    }
  }

  // ----- Victims taken out of an index

  /** The victims of an eviction so far taken out of `m`. */
  ghost function Without<V>(m: map<string, V>, victims: seq<string>): map<string, V> {
    m - (set k | k in victims)
  }

  lemma WithoutOne<V>(m: map<string, V>, victims: seq<string>, k: string)
    ensures Without(m, victims + [k]) == Without(m, victims) - {k}
  {
  }

  lemma NobodyGone<V>(m: map<string, V>)
    ensures Without(m, []) == m
  {
  }

  lemma AllGone<V>(m: map<string, V>, victims: seq<string>, keep: string)
    requires forall k :: k in victims <==> k in m && k != keep
    ensures forall k | k in Without(m, victims) :: k == keep
  {
  }

  lemma KeptKey<V>(m: map<string, V>, victims: seq<string>, key: string)
    requires key !in victims
    ensures key in Without(m, victims) <==> key in m
    ensures key in m ==> Without(m, victims)[key] == m[key]
  {
  }

  /** A key is a victim at most once. */
  lemma StillThere<V>(accessed: map<string, int>, m: map<string, V>, queue: seq<string>, i: nat)
    requires Ordered(accessed, queue) && i < |queue| && queue[i] in m
    ensures queue[i] in Without(m, queue[..i])
  {
    forall j | 0 <= j < i ensures queue[j] != queue[i] {
      assert Before(accessed, queue[j], queue[i]);
      BeforeTotal(accessed, queue[i], queue[i]);
    }
  }

  lemma AtMostOne<V>(m: map<string, V>, k: string)
    requires forall x | x in m :: x == k
    ensures |m| <= 1
  {
    assert m.Keys <= {k};
    assert |m.Keys| <= |{k}| by { if k in m { assert m.Keys == {k}; } else { assert m.Keys == {}; } }
    assert |m| == |m.Keys|;
  }
}
