/**
 * The request signature of the Cregis API (`Cregis_API::generate_signature`):
 * drop `sign`, drop null and "" values, sort by key, concatenate the secret
 * and every key followed by its value, and hash with md5. The same function
 * signs outgoing requests and checks incoming webhooks.
 */
module Signer {
  import opened Wrappers
  import opened PhpArray
  import opened KeyOrder
  import opened PhpValues

  /**
   * The library functions the signature rests on, left uninterpreted: `md5`
   * (the hex digest of RFC 1321) and `wp_json_encode` (RFC 8259 JSON text).
   */
  datatype Primitives = Primitives(md5: string -> string, jsonEncode: Value -> string)

  /** The `array_filter` callback: keep everything except null and "" (so 0, "0" and false stay). */
  predicate Kept(v: Value) {
    v != Null && v != Str("")
  }

  function KeepFilled(a: Entries<Value>): Entries<Value> {
    Filter(a, (e: (string, Value)) => Kept(e.1))
  }

  /** The entries that are signed, in the order they are signed. */
  function Canonical(params: Entries<Value>): (r: Entries<Value>)
    ensures forall e :: e in r <==> e in params && e.0 != "sign" && Kept(e.1)
  {
    var r := SortByKey(KeepFilled(Unset(params, "sign")));
    assert forall e :: e in r <==> e in multiset(r);
    r
  }

  lemma CanonicalSorted(params: Entries<Value>)
    requires DistinctKeys(params)
    ensures StrictlySorted(Canonical(params))
  {
    SortSorted(KeepFilled(Unset(params, "sign")));
  }

  /** `$key . $value`, where an array value is first replaced by its JSON text. */
  function Render(v: Value, json: Value -> string): string {
    if v.List? || v.Dict? then json(v) else ToPhpString(v)
  }

  function Piece(e: (string, Value), json: Value -> string): string {
    e.0 + Render(e.1, json)
  }

  /** The pieces of all entries, left to right, as the `foreach` loop appends them. */
  function Concat(a: Entries<Value>, json: Value -> string): string {
    if a == [] then "" else Concat(a[..|a| - 1], json) + Piece(a[|a| - 1], json)
  }

  /** The string that is hashed: the secret followed by the pieces of the canonical entries. */
  function SignString(prims: Primitives, secret: string, params: Entries<Value>): string {
    secret + Concat(Canonical(params), prims.jsonEncode)
  }

  function Signature(prims: Primitives, secret: string, params: Entries<Value>): string {
    prims.md5(SignString(prims, secret, params))
  }

  /** `generate_signature($params)`: filter and sort a copy, then hash the string built from it. */
  method GenerateSignature(prims: Primitives, secret: string, params: Entries<Value>) returns (sign: string)
    ensures sign == Signature(prims, secret, params)
  {
    var signParams := SigningEntries(params);
    var signString := BuildSignString(prims, secret, signParams);
    sign := prims.md5(signString);
  }

  /** The `unset`, `array_filter` and `ksort` steps, applied to a copy of the parameters. */
  method SigningEntries(params: Entries<Value>) returns (signParams: Entries<Value>)
    ensures signParams == Canonical(params)
  {
    signParams := Unset(params, "sign");
    signParams := KeepFilled(signParams);
    signParams := SortByKey(signParams);
  }

  /** The `foreach` loop: the secret, then `$key . $value` appended for every entry in order. */
  method BuildSignString(prims: Primitives, secret: string, signParams: Entries<Value>) returns (signString: string)
    ensures signString == secret + Concat(signParams, prims.jsonEncode)
  {
    signString := secret;
    for i := 0 to |signParams|
      invariant signString == secret + Concat(signParams[..i], prims.jsonEncode)
    {
      var (key, value) := signParams[i];
      var text := if value.List? || value.Dict? then prims.jsonEncode(value) else ToPhpString(value);
      SignStringStep(secret, signParams, i, prims.jsonEncode);
      signString := signString + (key + text);
    }
    assert signParams[..|signParams|] == signParams;
  }

  /** One more entry appends its piece to the string built so far. */
  lemma SignStringStep(secret: string, a: Entries<Value>, i: nat, json: Value -> string)
    requires i < |a|
    ensures secret + Concat(a[..i + 1], json) == (secret + Concat(a[..i], json)) + Piece(a[i], json)
  {
    var done := a[..i + 1];
    assert done[..|done| - 1] == a[..i] && done[|done| - 1] == a[i];
  }

  lemma {:induction false} ConcatAppend(a: Entries<Value>, b: Entries<Value>, json: Value -> string)
    ensures Concat(a + b, json) == Concat(a, json) + Concat(b, json)
    decreases |b|
  {
    if b == [] {
      assert a + b == a;
    } else {
      var b' := b[..|b| - 1];
      var last := Piece(b[|b| - 1], json);
      assert (a + b)[..|a + b| - 1] == a + b' && (a + b)[|a + b| - 1] == b[|b| - 1];
      assert Concat(a + b, json) == Concat(a + b', json) + last;
      ConcatAppend(a, b', json);
      assert Concat(b, json) == Concat(b', json) + last;
      assert (Concat(a, json) + Concat(b', json)) + last == Concat(a, json) + (Concat(b', json) + last);
    }
  }

  /** A map signs the same whatever its `sign` entry holds, and the same without one. */
  lemma SignFieldIgnored(prims: Primitives, secret: string, params: Entries<Value>, v: Value)
    ensures Signature(prims, secret, Set(params, "sign", v)) == Signature(prims, secret, params)
    ensures Signature(prims, secret, Unset(params, "sign")) == Signature(prims, secret, params)
  {
    UnsetAfterSet(params, "sign", v);
    UnsetTwice(params, "sign");
  }

  /** Adding a null or "" entry under a new key never changes the signature. */
  lemma EmptyEntryIgnored(prims: Primitives, secret: string, params: Entries<Value>, k: string, v: Value)
    requires !HasKey(params, k)
    requires !Kept(v)
    ensures Signature(prims, secret, Set(params, k, v)) == Signature(prims, secret, params)
  {
    var signKeep := (e: (string, Value)) => e.0 != "sign";
    var fillKeep := (e: (string, Value)) => Kept(e.1);
    FilterAppend(params, [(k, v)], signKeep);
    var u := Unset(params, "sign");
    var tail := Unset([(k, v)], "sign");
    FilterAppend(u, tail, fillKeep);
    assert KeepFilled(tail) == [];
    assert KeepFilled(u + tail) == KeepFilled(u);
  }

  /** Every other value, including 0, "0" and false, is part of what is signed. */
  lemma FilledEntrySigned(params: Entries<Value>, k: string, v: Value)
    requires k != "sign" && Kept(v)
    ensures (k, v) in Canonical(Set(params, k, v))
  {
  }

  /** The signature depends on the entries only, not on the order they were inserted in. */
  lemma InsertionOrderIrrelevant(prims: Primitives, secret: string, p: Entries<Value>, q: Entries<Value>)
    requires DistinctKeys(p) && DistinctKeys(q)
    requires forall e :: e in p <==> e in q
    ensures Canonical(p) == Canonical(q)
    ensures Signature(prims, secret, p) == Signature(prims, secret, q)
  {
    CanonicalSorted(p);
    CanonicalSorted(q);
    SortedUnique(Canonical(p), Canonical(q));
  }

  /** Equal strings with equal text around two pieces have equal pieces. */
  lemma CancelContext(s: string, x: string, a: string, b: string, y: string)
    requires s + (x + a + y) == s + (x + b + y)
    ensures a == b
  {
    assert |a| == |b|;
    assert a == (s + (x + a + y))[|s| + |x|..|s| + |x| + |a|];
    assert b == (s + (x + b + y))[|s| + |x|..|s| + |x| + |b|];
  }

  /** Replacing one entry of a strictly sorted array by an entry with the same key keeps it sorted. */
  lemma ReplaceKeepsSorted(c: Entries<Value>, i: nat, e: (string, Value))
    requires StrictlySorted(c) && i < |c| && e.0 == c[i].0
    ensures StrictlySorted(c[i := e])
  {
    assert forall j :: 0 <= j < |c| ==> c[i := e][j].0 == c[j].0;
  }

  /** The entries of a strictly sorted array once the entry under `k` is replaced. */
  lemma {:induction false} ReplacedMembers(c: Entries<Value>, c': Entries<Value>, i: nat, k: string, v2: Value)
    requires StrictlySorted(c) && i < |c| && c[i].0 == k
    requires forall e :: e in c' <==> (e in c && e.0 != k) || e == (k, v2)
    ensures forall e :: e in c' <==> e in c[i := (k, v2)]
  {
    var d := c[i := (k, v2)];
    SortedDistinct(c);
    forall e ensures e in c' <==> e in d {
      if e in d {
        var j :| 0 <= j < |d| && d[j] == e;
        if j != i {
          assert c[j] == e && c[j].0 != c[i].0;
        }
      }
      if e == (k, v2) {
        assert d[i] == e;
      } else if e in c' {
        var j :| 0 <= j < |c| && c[j] == e;
        assert d[j] == e;
      }
    }
  }

  /** The signed entries after `Set` on a signed key: the old entry under that key gives way to the new one. */
  lemma SignedAfterSet(p: Entries<Value>, k: string, v2: Value)
    requires DistinctKeys(p)
    requires k != "sign" && Kept(v2)
    ensures forall e :: e in Canonical(Set(p, k, v2)) <==> (e in Canonical(p) && e.0 != k) || e == (k, v2)
  {
    SetEntries(p, k, v2);
  }

  /** Assigning a new value to a signed key replaces that key's entry in the canonical order. */
  lemma CanonicalAfterReplace(p: Entries<Value>, k: string, v1: Value, v2: Value) returns (i: nat)
    requires DistinctKeys(p) && (k, v1) in p
    requires k != "sign" && Kept(v1) && Kept(v2)
    ensures i < |Canonical(p)| && Canonical(p)[i] == (k, v1)
    ensures Canonical(Set(p, k, v2)) == Canonical(p)[i := (k, v2)]
  {
    var c := Canonical(p);
    CanonicalSorted(p);
    assert (k, v1) in c;
    i :| 0 <= i < |c| && c[i] == (k, v1);
    ReplaceKeepsSorted(c, i, (k, v2));
    var p' := Set(p, k, v2);
    SetEntries(p, k, v2);
    CanonicalSorted(p');
    SignedAfterSet(p, k, v2);
    ReplacedMembers(c, Canonical(p'), i, k, v2);
    SortedUnique(Canonical(p'), c[i := (k, v2)]);
  }

  /** The pieces around a replaced entry stay, so a different piece gives a different string. */
  lemma ConcatAfterReplace(c: Entries<Value>, i: nat, e: (string, Value), json: Value -> string)
    requires i < |c|
    ensures Concat(c, json) == Concat(c[..i], json) + Piece(c[i], json) + Concat(c[i + 1..], json)
    ensures Concat(c[i := e], json) == Concat(c[..i], json) + Piece(e, json) + Concat(c[i + 1..], json)
  {
    assert c == c[..i] + [c[i]] + c[i + 1..];
    assert c[i := e] == c[..i] + [e] + c[i + 1..];
    ConcatAppend(c[..i] + [c[i]], c[i + 1..], json);
    ConcatAppend(c[..i], [c[i]], json);
    ConcatAppend(c[..i] + [e], c[i + 1..], json);
    ConcatAppend(c[..i], [e], json);
    assert [c[i]][..0] == [] && [e][..0] == [];
  }

  /** Replacing one entry's value by one with a different text changes the concatenation. */
  lemma ReplaceChangesConcat(secret: string, c: Entries<Value>, i: nat, v2: Value, json: Value -> string)
    requires i < |c|
    requires Render(c[i].1, json) != Render(v2, json)
    ensures secret + Concat(c, json) != secret + Concat(c[i := (c[i].0, v2)], json)
  {
    var e := (c[i].0, v2);
    ConcatAfterReplace(c, i, e, json);
    if secret + Concat(c, json) == secret + Concat(c[i := e], json) {
      CancelContext(secret, Concat(c[..i], json), Piece(c[i], json), Piece(e, json), Concat(c[i + 1..], json));
      CancelContext("", c[i].0, Render(c[i].1, json), Render(v2, json), "");
    }
  }

  /**
   * With an injective md5, changing the value of one signed entry to another
   * signed value with a different text changes the signature.
   */
  lemma ValueChangeDetected(prims: Primitives, secret: string, p: Entries<Value>, k: string, v1: Value, v2: Value)
    requires forall x, y :: prims.md5(x) == prims.md5(y) ==> x == y
    requires DistinctKeys(p) && (k, v1) in p
    requires k != "sign" && Kept(v1) && Kept(v2)
    requires Render(v1, prims.jsonEncode) != Render(v2, prims.jsonEncode)
    ensures Signature(prims, secret, Set(p, k, v2)) != Signature(prims, secret, p)
  {
    var i := CanonicalAfterReplace(p, k, v1, v2);
    ReplaceChangesConcat(secret, Canonical(p), i, v2, prims.jsonEncode);
    assert SignString(prims, secret, p) != SignString(prims, secret, Set(p, k, v2));
  }

  lemma CanonicalSingle(e: (string, Value))
    requires e.0 != "sign" && Kept(e.1)
    ensures Canonical([e]) == [e]
  {
    SortedUnique(Canonical([e]), [e]);
  }

  /**
   * The signed string does not separate keys from values, so two different
   * parameter maps can share it: {"ab": "c"} and {"a": "bc"}.
   */
  lemma KeyValueBoundaryAmbiguous(prims: Primitives, secret: string)
    ensures SignString(prims, secret, [("ab", Str("c"))]) == SignString(prims, secret, [("a", Str("bc"))])
  {
    SinglePiece(("ab", Str("c")), prims.jsonEncode);
    SinglePiece(("a", Str("bc")), prims.jsonEncode);
    assert "ab" + "c" == "a" + "bc";
  }

  /** A single signed entry contributes exactly its own piece. */
  lemma SinglePiece(e: (string, Value), json: Value -> string)
    requires e.0 != "sign" && Kept(e.1)
    ensures Concat(Canonical([e]), json) == Piece(e, json)
  {
    CanonicalSingle(e);
    assert [e][..0] == [];
  }
}
