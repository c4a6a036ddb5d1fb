/**
 * The order `ksort` puts string keys in: for the non-numeric keys the plugin
 * signs, plain lexicographic comparison of the key strings. Sorting is
 * modelled as insertion sort; the results that matter are that it keeps the
 * entries and that a sorted array is determined by its entries alone.
 */
module KeyOrder {
  import opened PhpArray

  /** `strcmp($a, $b) < 0` */
  predicate Less(a: string, b: string)
    decreases |a|
  {
    if a == [] then b != []
    else if b == [] then false
    else if a[0] != b[0] then a[0] < b[0]
    else Less(a[1..], b[1..])
  }

  lemma {:induction false} LessIrreflexive(a: string)
    ensures !Less(a, a)
    decreases |a|
  {
    if a != [] {
      LessIrreflexive(a[1..]);
    }
  }

  lemma {:induction false} LessTransitive(a: string, b: string, c: string)
    requires Less(a, b) && Less(b, c)
    ensures Less(a, c)
    decreases |a|
  {
    if a != [] && a[0] == b[0] && b[0] == c[0] {
      LessTransitive(a[1..], b[1..], c[1..]);
    }
  }

  lemma {:induction false} LessTotal(a: string, b: string)
    requires a != b
    ensures Less(a, b) || Less(b, a)
    decreases |a|
  {
    if a != [] && b != [] && a[0] == b[0] {
      assert a == [a[0]] + a[1..] && b == [b[0]] + b[1..];
      LessTotal(a[1..], b[1..]);
    }
  }

  /** Keys strictly increase from left to right. */
  predicate StrictlySorted<V>(s: Entries<V>) {
    forall i, j :: 0 <= i < j < |s| ==> Less(s[i].0, s[j].0)
  }

  /** A strictly sorted array holds no key twice. */
  lemma SortedDistinct<V>(s: Entries<V>)
    requires StrictlySorted(s)
    ensures DistinctKeys(s)
  {
    forall i, j | 0 <= i < j < |s| ensures s[i].0 != s[j].0 {
      LessIrreflexive(s[i].0);
    }
  }

  function Insert<V>(e: (string, V), s: Entries<V>): (r: Entries<V>)
    ensures multiset(r) == multiset(s) + multiset{e}
  {
    if s == [] || !Less(s[0].0, e.0) then [e] + s
    else
      assert s == [s[0]] + s[1..];
      [s[0]] + Insert(e, s[1..])
  }

  /** `ksort($a)`: the same entries, ordered by key. */
  function SortByKey<V>(a: Entries<V>): (r: Entries<V>)
    ensures multiset(r) == multiset(a)
  {
    if a == [] then []
    else
      assert a == [a[0]] + a[1..];
      Insert(a[0], SortByKey(a[1..]))
  }

  lemma {:induction false} InsertSorted<V>(e: (string, V), s: Entries<V>)
    requires StrictlySorted(s)
    requires forall x :: x in s ==> x.0 != e.0
    ensures StrictlySorted(Insert(e, s))
  {
    if s == [] {
    } else if !Less(s[0].0, e.0) {
      LessTotal(e.0, s[0].0);
      forall j | 0 < j < |s| ensures Less(e.0, s[j].0) {
        LessTransitive(e.0, s[0].0, s[j].0);
      }
    } else {
      assert s == [s[0]] + s[1..];
      InsertSorted(e, s[1..]);
      var rest := Insert(e, s[1..]);
      forall x | x in rest ensures Less(s[0].0, x.0) {
        assert x in multiset(rest);
        if x != e {
          var j :| 0 <= j < |s[1..]| && s[1..][j] == x;
          assert s[j + 1] == x;
        }
      }
    }
  }

  lemma {:induction false} SortSorted<V>(a: Entries<V>)
    requires DistinctKeys(a)
    ensures StrictlySorted(SortByKey(a))
  {
    if a != [] {
      assert DistinctKeys(a[1..]);
      SortSorted(a[1..]);
      var rest := SortByKey(a[1..]);
      forall x | x in rest ensures x.0 != a[0].0 {
        assert x in multiset(a[1..]);
        var j :| 0 <= j < |a[1..]| && a[1..][j] == x;
        assert a[j + 1] == x;
      }
      InsertSorted(a[0], rest);
    }
  }

  /** Two strictly sorted arrays holding the same entries are the same array. */
  lemma {:induction false} SortedUnique<V>(a: Entries<V>, b: Entries<V>)
    requires StrictlySorted(a) && StrictlySorted(b)
    requires forall e :: e in a <==> e in b
    ensures a == b
  {
    if a == [] {
      assert forall i | 0 <= i < |b| :: b[i] in b;
    } else {
      assert a[0] in b;
      assert b != [];
      assert b[0] in a;
      if a[0] != b[0] {
        var i :| 0 <= i < |a| && a[i] == b[0];
        var j :| 0 <= j < |b| && b[j] == a[0];
        assert Less(a[0].0, b[0].0);
        assert Less(b[0].0, a[0].0);
        LessTransitive(a[0].0, b[0].0, a[0].0);
        LessIrreflexive(a[0].0);
      }
      forall e ensures e in a[1..] <==> e in b[1..] {
        if e in a[1..] {
          var i :| 0 <= i < |a[1..]| && a[1..][i] == e;
          assert Less(a[0].0, a[i + 1].0);
          LessIrreflexive(e.0);
          assert e in a && e in b;
          var j :| 0 <= j < |b| && b[j] == e;
          assert j != 0;
          assert b[1..][j - 1] == e;
        }
        if e in b[1..] {
          var i :| 0 <= i < |b[1..]| && b[1..][i] == e;
          assert Less(b[0].0, b[i + 1].0);
          LessIrreflexive(e.0);
          assert e in b && e in a;
          var j :| 0 <= j < |a| && a[j] == e;
          assert j != 0;
          assert a[1..][j - 1] == e;
        }
      }
      SortedUnique(a[1..], b[1..]);
      assert a == [a[0]] + a[1..] && b == [b[0]] + b[1..];
    }
  }
}
