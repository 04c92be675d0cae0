/** Generic facts about database tables, modelled as sequences of rows in
    primary-key (insertion) order. A key function picks the column(s) a
    constraint is about. */
module Tables {
  import opened Common

  /** No two rows share a key: a unique constraint, or one the code keeps. */
  ghost predicate Distinct<T, K>(s: seq<T>, key: T -> K)
  {
    forall i, j :: 0 <= i < j < |s| ==> key(s[i]) != key(s[j])
  }

  /** Every key is below `next`, so `next` is a fresh auto-increment value. */
  ghost predicate Below<T>(s: seq<T>, key: T -> nat, next: nat)
  {
    forall x :: x in s ==> key(x) < next
  }

  ghost function KeySet<T, K>(s: seq<T>, key: T -> K): set<K>
  {
    set x | x in s :: key(x)
  }

  /** The rows for which `keep` holds, in table order: what survives a
      delete, or what a `filter(...)` query returns. */
  function Filter<T(!new)>(s: seq<T>, keep: T -> bool): (r: seq<T>)
    ensures |r| <= |s|
    ensures forall x :: x in r <==> x in s && keep(x)
  {
    if |s| == 0 then []
    else (if keep(s[0]) then [s[0]] else []) + Filter(s[1..], keep)
  }

  lemma {:induction false} FilterDistinct<T(!new), K>(s: seq<T>, keep: T -> bool, key: T -> K)
    requires Distinct(s, key)
    ensures Distinct(Filter(s, keep), key)
  {
    if |s| > 0 {
      var rest := Filter(s[1..], keep);
      assert Distinct(s[1..], key) by {
        forall i, j | 0 <= i < j < |s| - 1 ensures key(s[1..][i]) != key(s[1..][j]) {
          assert key(s[i + 1]) != key(s[j + 1]);
        }
      }
      FilterDistinct(s[1..], keep, key);
      if keep(s[0]) {
        var r := [s[0]] + rest;
        forall i, j | 0 <= i < j < |r| ensures key(r[i]) != key(r[j]) {
          if i == 0 {
            assert r[j] in s[1..];
            var k :| 0 <= k < |s| - 1 && s[1..][k] == r[j];
            assert key(s[0]) != key(s[k + 1]);
          } else {
            assert r[i] == rest[i - 1] && r[j] == rest[j - 1];
          }
        }
      }
    }
  }

  /** The first row whose key is `k`, as a lookup `objects.get(...)` does. */
  function Find<T, K(==)>(s: seq<T>, key: T -> K, k: K): (r: Option<nat>)
    ensures r.Some? ==> r.value < |s| && key(s[r.value]) == k
    ensures r.Some? ==> forall j :: 0 <= j < r.value ==> key(s[j]) != k
    ensures r.None? <==> k !in KeySet(s, key)
  {
    if |s| == 0 then None
    else if key(s[0]) == k then Some(0)
    else
      match Find(s[1..], key, k)
      case None => None
      case Some(i) => Some(i + 1)
  }

  /** No row has a key that `Find` does not find. */
  lemma FindAbsent<T, K>(s: seq<T>, key: T -> K, k: K)
    requires Find(s, key, k).None?
    ensures forall j :: 0 <= j < |s| ==> key(s[j]) != k
  {
    forall j | 0 <= j < |s| ensures key(s[j]) != k {
      assert s[j] in s;
    }
  }

  /** Number of rows whose key is `k`. */
  function Count<T, K(==)>(s: seq<T>, key: T -> K, k: K): (n: nat)
    ensures n <= |s|
    ensures n == 0 <==> k !in KeySet(s, key)
  {
    if |s| == 0 then 0
    else Count(s[1..], key, k) + (if key(s[0]) == k then 1 else 0)
  }

  function RemoveAt<T>(s: seq<T>, i: nat): (r: seq<T>)
    requires i < |s|
    ensures |r| == |s| - 1
    ensures forall j :: 0 <= j < i ==> r[j] == s[j]
    ensures forall j :: i <= j < |r| ==> r[j] == s[j + 1]
  {
    s[..i] + s[i + 1..]
  }

  /** In a table whose keys are distinct, the row found for a key is the
      only row with that key. */
  lemma FindUnique<T, K>(s: seq<T>, key: T -> K, k: K, j: nat)
    requires Distinct(s, key)
    requires j < |s| && key(s[j]) == k
    ensures Find(s, key, k) == Some(j)
  {
    assert k in KeySet(s, key);
  }

  /** With distinct keys, a key occurs at most once. */
  lemma {:induction false} CountDistinct<T, K>(s: seq<T>, key: T -> K, k: K)
    requires Distinct(s, key)
    ensures Count(s, key, k) <= 1
  {
    if |s| > 0 {
      assert Distinct(s[1..], key) by {
        forall i, j | 0 <= i < j < |s| - 1 ensures key(s[1..][i]) != key(s[1..][j]) {
          assert key(s[i + 1]) != key(s[j + 1]);
        }
      }
      CountDistinct(s[1..], key, k);
      if key(s[0]) == k {
        forall j | 0 <= j < |s| - 1 ensures key(s[1..][j]) != k {
          assert key(s[j + 1]) != key(s[0]);
        }
      }
    }
  }

  lemma DistinctAppend<T, K>(s: seq<T>, x: T, key: T -> K)
    requires Distinct(s, key)
    requires key(x) !in KeySet(s, key)
    ensures Distinct(s + [x], key)
    ensures KeySet(s + [x], key) == KeySet(s, key) + {key(x)}
  {
    forall i, j | 0 <= i < j < |s| + 1 ensures key((s + [x])[i]) != key((s + [x])[j]) {
      if j == |s| {
        assert s[i] in s;
      }
    }
    forall k | k in KeySet(s, key) ensures k in KeySet(s + [x], key) {
      var y :| y in s && key(y) == k;
      assert y in s + [x];
    }
  }


  lemma DistinctRemoveAt<T, K>(s: seq<T>, i: nat, key: T -> K)
    requires i < |s| && Distinct(s, key)
    ensures Distinct(RemoveAt(s, i), key)
  {
    var r := RemoveAt(s, i);
    forall a, b | 0 <= a < b < |r| ensures key(r[a]) != key(r[b]) {
      var a' := if a < i then a else a + 1;
      var b' := if b < i then b else b + 1;
      assert r[a] == s[a'] && r[b] == s[b'];
    }
  }

  lemma KeySetRemoveAt<T, K>(s: seq<T>, i: nat, key: T -> K)
    requires i < |s|
    ensures KeySet(RemoveAt(s, i), key) <= KeySet(s, key)
  {
    var r := RemoveAt(s, i);
    forall y | y in r ensures y in s {
      var a :| 0 <= a < |r| && r[a] == y;
      var a' := if a < i then a else a + 1;
      assert r[a] == s[a'];
    }
  }

  /** Replacing a row by one with the same key keeps keys distinct and the
      key set unchanged. */
  lemma DistinctUpdate<T, K>(s: seq<T>, i: nat, x: T, key: T -> K)
    requires i < |s| && key(x) == key(s[i])
    ensures Distinct(s, key) ==> Distinct(s[i := x], key)
    ensures KeySet(s[i := x], key) == KeySet(s, key)
  {
    var r := s[i := x];
    forall k | k in KeySet(r, key) ensures k in KeySet(s, key) {
      var y :| y in r && key(y) == k;
      var a :| 0 <= a < |r| && r[a] == y;
      if a == i { assert s[i] in s; } else { assert s[a] in s; }
    }
    forall k | k in KeySet(s, key) ensures k in KeySet(r, key) {
      var y :| y in s && key(y) == k;
      var a :| 0 <= a < |s| && s[a] == y;
      if a == i { assert r[i] in r; } else { assert r[a] in r; }
    }
  }

  /** Replacing a row by one whose key is unused elsewhere keeps keys
      distinct. */
  lemma DistinctReplace<T, K>(s: seq<T>, i: nat, x: T, key: T -> K)
    requires i < |s| && Distinct(s, key) && key(x) !in KeySet(s, key)
    ensures Distinct(s[i := x], key)
  {
    var r := s[i := x];
    forall a, b | 0 <= a < b < |r| ensures key(r[a]) != key(r[b]) {
      if a == i { assert s[b] in s; }
      else if b == i { assert s[a] in s; }
    }
  }

  /** Two tables whose rows agree pointwise on a key have the same key set,
      and one is keyed uniquely exactly when the other is. */
  lemma SameKeys<T, U, K>(s: seq<T>, t: seq<U>, ks: T -> K, kt: U -> K)
    requires |s| == |t| && forall i :: 0 <= i < |s| ==> ks(s[i]) == kt(t[i])
    ensures KeySet(s, ks) == KeySet(t, kt)
    ensures Distinct(s, ks) <==> Distinct(t, kt)
  {
    forall k | k in KeySet(s, ks) ensures k in KeySet(t, kt) {
      var x :| x in s && ks(x) == k;
      var i :| 0 <= i < |s| && s[i] == x;
      assert t[i] in t;
    }
    forall k | k in KeySet(t, kt) ensures k in KeySet(s, ks) {
      var y :| y in t && kt(y) == k;
      var i :| 0 <= i < |t| && t[i] == y;
      assert s[i] in s;
    }
  }

  /** Two different rows with the same key make the count at least 2. */
  lemma {:induction false} CountTwo<T, K>(s: seq<T>, key: T -> K, i: nat, j: nat)
    requires i < j < |s| && key(s[i]) == key(s[j])
    ensures Count(s, key, key(s[i])) >= 2
  {
    var k := key(s[i]);
    if i == 0 {
      assert s[1..][j - 1] == s[j];
      assert k in KeySet(s[1..], key);
    } else {
      assert s[1..][i - 1] == s[i] && s[1..][j - 1] == s[j];
      CountTwo(s[1..], key, i - 1, j - 1);
    }
  }

  /** Appending a row adds one to the count of its own key and nothing to
      the count of any other. */
  lemma {:induction false} CountAppend<T, K>(s: seq<T>, x: T, key: T -> K, k: K)
    ensures Count(s + [x], key, k) == Count(s, key, k) + (if key(x) == k then 1 else 0)
  {
    if |s| == 0 {
      assert s + [x] == [x];
    } else {
      assert (s + [x])[1..] == s[1..] + [x];
      CountAppend(s[1..], x, key, k);
    }
  }

  /** `CountTwo` for every pair of rows at once. */
  lemma CountTwoAll<T, K>(s: seq<T>, key: T -> K)
    ensures forall a, b :: 0 <= a < b < |s| && key(s[a]) == key(s[b]) ==> Count(s, key, key(s[a])) >= 2
  {
    forall a, b | 0 <= a < b < |s| && key(s[a]) == key(s[b]) ensures Count(s, key, key(s[a])) >= 2 {
      CountTwo(s, key, a, b);
    }
  }

  /** A filter that drops nothing gives the table back unchanged. */
  lemma {:induction false} FilterKeepsAll<T(!new)>(s: seq<T>, keep: T -> bool)
    requires forall x :: x in s ==> keep(x)
    ensures Filter(s, keep) == s
  {
    if |s| > 0 {
      FilterKeepsAll(s[1..], keep);
    }
  }

  /** Filtering is done row by row: a row appended last is kept last. */
  lemma {:induction false} FilterSnoc<T(!new)>(s: seq<T>, x: T, keep: T -> bool)
    ensures Filter(s + [x], keep) == Filter(s, keep) + (if keep(x) then [x] else [])
  {
    if |s| == 0 {
      assert s + [x] == [x];
    } else {
      assert (s + [x])[1..] == s[1..] + [x];
      FilterSnoc(s[1..], x, keep);
    }
  }
}
