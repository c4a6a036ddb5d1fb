/**
 * PHP arrays with string keys, as the plugin uses them for request parameters,
 * webhook payloads and order-total rows: an ordered list of key/value entries
 * in which each key occurs once.
 */
module PhpArray {
  import opened Wrappers

  type Entries<V> = seq<(string, V)>

  /** `array_key_exists($k, $a)` */
  predicate HasKey<V(==,!new)>(a: Entries<V>, k: string) {
    exists e :: e in a && e.0 == k
  }

  /** Every key occurs at most once: the invariant of every PHP array. */
  predicate DistinctKeys<V>(a: Entries<V>) {
    forall i, j :: 0 <= i < j < |a| ==> a[i].0 != a[j].0
  }

  /** `$a[$k]`, or None when the key is absent. */
  function Lookup<V(==,!new)>(a: Entries<V>, k: string): (r: Option<V>)
    ensures r.Some? <==> HasKey(a, k)
    ensures r.Some? ==> (k, r.value) in a
    ensures DistinctKeys(a) ==> forall v :: (k, v) in a ==> r == Some(v)
  {
    if a == [] then None
    else if a[0].0 == k then Some(a[0].1)
    else
      assert DistinctKeys(a) ==> DistinctKeys(a[1..]);
      assert forall e :: e in a && e != a[0] ==> e in a[1..];
      Lookup(a[1..], k)
  }

  /** The array literal `[k0 => v0, k1 => v1, ...]`, given as its keys and its values in order. */
  function Literal<V>(keys: seq<string>, values: seq<V>): (r: Entries<V>)
    requires |keys| == |values|
    ensures |r| == |keys|
    ensures forall i :: 0 <= i < |r| ==> r[i] == (keys[i], values[i])
  {
    if keys == [] then [] else [(keys[0], values[0])] + Literal(keys[1..], values[1..])
  }

  /** `$a[$k]` is the value of the first entry with key `k`. */
  lemma {:induction false} LookupAt<V(!new)>(a: Entries<V>, i: nat, k: string)
    requires i < |a| && a[i].0 == k
    requires forall j :: 0 <= j < i ==> a[j].0 != k
    ensures Lookup(a, k) == Some(a[i].1)
  {
    if i != 0 {
      LookupAt(a[1..], i - 1, k);
    }
  }

  /** In an array whose keys are listed, distinct, in `keys`, the `i`-th key looks up the `i`-th value. */
  lemma LookupByKeys<V(!new)>(a: Entries<V>, keys: seq<string>, i: nat)
    requires |a| == |keys| && i < |a|
    requires forall j :: 0 <= j < |a| ==> a[j].0 == keys[j]
    requires forall j, j' :: 0 <= j < j' < |keys| ==> keys[j] != keys[j']
    ensures Lookup(a, keys[i]) == Some(a[i].1)
  {
    LookupAt(a, i, keys[i]);
  }

  /**
   * `$a[$k] = $v`: an existing key keeps its position and takes the new value,
   * a new key is appended at the end.
   */
  function Set<V(==,!new)>(a: Entries<V>, k: string, v: V): (r: Entries<V>)
    ensures HasKey(a, k) ==> |r| == |a|
    ensures !HasKey(a, k) ==> r == a + [(k, v)]
    ensures Lookup(r, k) == Some(v)
    ensures forall k' :: k' != k ==> Lookup(r, k') == Lookup(a, k')
  {
    if a == [] then [(k, v)]
    else if a[0].0 == k then [(k, v)] + a[1..]
    else
      var rest := Set(a[1..], k, v);
      SetStep(a, k, v, rest);
      [a[0]] + rest
  }

  /** An assignment past the first entry keeps that entry in front. */
  lemma SetStep<V(!new)>(a: Entries<V>, k: string, v: V, rest: Entries<V>)
    requires a != [] && a[0].0 != k
    requires HasKey(a[1..], k) ==> |rest| == |a[1..]|
    requires !HasKey(a[1..], k) ==> rest == a[1..] + [(k, v)]
    requires Lookup(rest, k) == Some(v)
    requires forall k' :: k' != k ==> Lookup(rest, k') == Lookup(a[1..], k')
    ensures HasKey(a, k) ==> |[a[0]] + rest| == |a|
    ensures !HasKey(a, k) ==> [a[0]] + rest == a + [(k, v)]
    ensures Lookup([a[0]] + rest, k) == Some(v)
    ensures forall k' :: k' != k ==> Lookup([a[0]] + rest, k') == Lookup(a, k')
  {
    var r := [a[0]] + rest;
    assert r[0] == a[0] && r[1..] == rest;
    assert HasKey(a, k) <==> HasKey(a[1..], k) by {
      assert forall e :: e in a && e != a[0] ==> e in a[1..];
    }
  }

  /** Assigning to a key of a proper PHP array replaces that key's one entry. */
  lemma {:induction false} SetEntries<V(!new)>(a: Entries<V>, k: string, v: V)
    requires DistinctKeys(a)
    ensures DistinctKeys(Set(a, k, v))
    ensures forall e :: e in Set(a, k, v) <==> (e in a && e.0 != k) || e == (k, v)
  {
    if a == [] {
    } else if a[0].0 == k {
      SetReplacesHead(a, k, v);
    } else {
      SetEntries(a[1..], k, v);
      var rest := Set(a[1..], k, v);
      assert forall e :: e in rest ==> e.0 != a[0].0 by {
        forall e | e in rest ensures e.0 != a[0].0 {
          if e != (k, v) {
            var j :| 0 <= j < |a[1..]| && a[1..][j] == e;
            assert a[j + 1] == e;
          }
        }
      }
      ConsDistinct(a[0], rest);
      assert forall e :: e in a <==> e == a[0] || e in a[1..];
    }
  }

  /** Assigning to the key of the first entry of a proper array replaces that entry. */
  lemma SetReplacesHead<V(!new)>(a: Entries<V>, k: string, v: V)
    requires DistinctKeys(a) && a != [] && a[0].0 == k
    ensures DistinctKeys(Set(a, k, v))
    ensures forall e :: e in Set(a, k, v) <==> (e in a && e.0 != k) || e == (k, v)
  {
    assert forall e :: e in a[1..] ==> e.0 != k by {
      forall e | e in a[1..] ensures e.0 != k {
        var j :| 0 <= j < |a[1..]| && a[1..][j] == e;
        assert a[j + 1] == e;
      }
    }
    ConsDistinct((k, v), a[1..]);
    assert forall e :: e in a <==> e == a[0] || e in a[1..];
  }

  /** An entry appended to a proper array that lacks its key gives a proper array. */
  lemma AppendDistinct<V(!new)>(a: Entries<V>, x: (string, V))
    requires DistinctKeys(a) && !HasKey(a, x.0)
    ensures DistinctKeys(a + [x])
  {
    forall i, j | 0 <= i < j < |a + [x]| ensures (a + [x])[i].0 != (a + [x])[j].0 {
      if j == |a| {
        assert (a + [x])[i] == a[i];
        assert a[i] in a;
      }
    }
  }

  /** An entry put in front of a proper array that lacks its key gives a proper array. */
  lemma ConsDistinct<V>(x: (string, V), rest: Entries<V>)
    requires DistinctKeys(rest) && forall e :: e in rest ==> e.0 != x.0
    ensures DistinctKeys([x] + rest)
  {
    forall i, j | 0 <= i < j < |[x] + rest| ensures ([x] + rest)[i].0 != ([x] + rest)[j].0 {
      if i == 0 {
        assert ([x] + rest)[j] == rest[j - 1];
        assert rest[j - 1] in rest;
      }
    }
  }

  /** `array_filter($a, $keep)`: the entries that `keep` accepts, in their order. */
  function Filter<V(==,!new)>(a: Entries<V>, keep: ((string, V)) -> bool): (r: Entries<V>)
    ensures forall e :: e in r <==> e in a && keep(e)
    ensures |r| <= |a|
    ensures DistinctKeys(a) ==> DistinctKeys(r)
  {
    if a == [] then []
    else
      var rest := Filter(a[1..], keep);
      assert DistinctKeys(a) ==> forall e :: e in rest ==> e.0 != a[0].0 by {
        if DistinctKeys(a) {
          forall e | e in rest ensures e.0 != a[0].0 {
            var j :| 0 <= j < |a[1..]| && a[1..][j] == e;
            assert a[j + 1] == e;
          }
        }
      }
      if keep(a[0]) then [a[0]] + rest else rest
  }

  lemma {:induction false} FilterAppend<V(!new)>(a: Entries<V>, b: Entries<V>, keep: ((string, V)) -> bool)
    ensures Filter(a + b, keep) == Filter(a, keep) + Filter(b, keep)
  {
    if a == [] {
      assert a + b == b;
    } else {
      assert (a + b)[1..] == a[1..] + b;
      FilterAppend(a[1..], b, keep);
    }
  }

  /** `unset($a[$k])` */
  function Unset<V(==,!new)>(a: Entries<V>, k: string): (r: Entries<V>)
    ensures forall e :: e in r <==> e in a && e.0 != k
    ensures !HasKey(r, k)
    ensures DistinctKeys(a) ==> DistinctKeys(r)
  {
    Filter(a, (e: (string, V)) => e.0 != k)
  }

  /** Assigning a key and then unsetting it leaves what unsetting alone leaves. */
  lemma {:induction false} UnsetAfterSet<V(!new)>(a: Entries<V>, k: string, v: V)
    ensures Unset(Set(a, k, v), k) == Unset(a, k)
  {
    var keep := (e: (string, V)) => e.0 != k;
    if a == [] {
    } else if a[0].0 == k {
      FilterAppend([(k, v)], a[1..], keep);
      FilterAppend([a[0]], a[1..], keep);
      assert a == [a[0]] + a[1..];
    } else {
      UnsetAfterSet(a[1..], k, v);
      FilterAppend([a[0]], Set(a[1..], k, v), keep);
      FilterAppend([a[0]], a[1..], keep);
      assert a == [a[0]] + a[1..];
    }
  }

  lemma {:induction false} UnsetTwice<V(!new)>(a: Entries<V>, k: string)
    ensures Unset(Unset(a, k), k) == Unset(a, k)
  {
    if a != [] {
      UnsetTwice(a[1..], k);
    }
  }

  /** `array_search($k, array_keys($a), true)`: the position of the first entry with key `k`. */
  function KeyIndex<V>(a: Entries<V>, k: string): (r: Option<nat>)
    ensures r.Some? ==> r.value < |a| && a[r.value].0 == k && forall j :: 0 <= j < r.value ==> a[j].0 != k
    ensures r.None? ==> forall j :: 0 <= j < |a| ==> a[j].0 != k
  {
    if a == [] then None
    else if a[0].0 == k then Some(0)
    else
      var r := KeyIndex(a[1..], k);
      if r.Some? then Some(r.value + 1) else None
  }

  /** `$a + $b`: the entries of `b` whose keys `a` lacks, after `a`. */
  function Union<V(==,!new)>(a: Entries<V>, b: Entries<V>): Entries<V> {
    a + Filter(b, (e: (string, V)) => !HasKey(a, e.0))
  }

  /** `array_merge($a, $b)` for string keys: each entry of `b` assigned into `a` in turn. */
  function Merge<V(==,!new)>(a: Entries<V>, b: Entries<V>): Entries<V>
    decreases |b|
  {
    if b == [] then a else Merge(Set(a, b[0].0, b[0].1), b[1..])
  }

  /** Keeping every entry leaves an array as it is. */
  lemma {:induction false} FilterKeepsAll<V(!new)>(a: Entries<V>, keep: ((string, V)) -> bool)
    requires forall e :: e in a ==> keep(e)
    ensures Filter(a, keep) == a
  {
    if a != [] {
      assert forall e :: e in a[1..] ==> e in a;
      FilterKeepsAll(a[1..], keep);
      assert [a[0]] + a[1..] == a;
    }
  }

  /** Inserting an entry with a new key after position `p` by two unions keeps every entry in place. */
  lemma UnionSplice<V(!new)>(rows: Entries<V>, p: nat, extra: (string, V))
    requires DistinctKeys(rows) && p < |rows| && !HasKey(rows, extra.0)
    ensures Union(Union(rows[..p + 1], [extra]), rows[p + 1..]) == rows[..p + 1] + [extra] + rows[p + 1..]
  {
    var left := rows[..p + 1];
    assert forall e :: e in left ==> e in rows;
    assert Filter([extra], (e: (string, V)) => !HasKey(left, e.0)) == [extra];
    AfterKeysFresh(rows, p, extra);
    FilterKeepsAll(rows[p + 1..], (e: (string, V)) => !HasKey(left + [extra], e.0));
  }

  /** No entry after position `p` shares its key with the entries up to `p` or with a new key. */
  lemma AfterKeysFresh<V(!new)>(rows: Entries<V>, p: nat, extra: (string, V))
    requires DistinctKeys(rows) && p < |rows| && !HasKey(rows, extra.0)
    ensures forall e :: e in rows[p + 1..] ==> !HasKey(rows[..p + 1] + [extra], e.0)
  {
    forall e | e in rows[p + 1..] ensures !HasKey(rows[..p + 1] + [extra], e.0) {
      var j :| 0 <= j < |rows[p + 1..]| && rows[p + 1..][j] == e;
      assert rows[p + 1 + j] == e;
      forall e' | e' in rows[..p + 1] + [extra] ensures e'.0 != e.0 {
        if e' in rows[..p + 1] {
          var i :| 0 <= i < p + 1 && rows[..p + 1][i] == e';
          assert rows[i] == e';
        } else {
          assert e in rows;
        }
      }
    }
  }
}
