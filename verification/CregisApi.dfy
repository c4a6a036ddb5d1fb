/**
 * The Cregis API client (`Cregis_API`): the configured client, the nonce,
 * the parameter maps of `create_payment` and `query_payment`, the request they
 * send, the classification of the reply, and the webhook signature check.
 * The HTTP transport and the clock are inputs: the reply `wp_remote_request`
 * gives back (already decoded from JSON) and the millisecond timestamp.
 */
module CregisApi {
  import opened Wrappers
  import opened PhpArray
  import opened PhpValues
  import opened Signer

  /** The client's private state, fixed by its constructor. */
  datatype ApiClient = ApiClient(url: string, key: string, pid: nat, prims: Primitives)

  predicate IsSlash(c: char) {
    c == '/' || c == '\\'
  }

  /** `untrailingslashit`: the text without its trailing slashes and backslashes. */
  function StripSlashes(s: string): (r: string)
    ensures r <= s
    ensures forall j :: |r| <= j < |s| ==> IsSlash(s[j])
    ensures r == [] || !IsSlash(r[|r| - 1])
  {
    if s != [] && IsSlash(s[|s| - 1]) then StripSlashes(s[..|s| - 1]) else s
  }

  /** `trailingslashit`: exactly one slash at the end, whatever slashes were there. */
  function TrailingSlash(s: string): (r: string)
    ensures |r| >= 1 && r[|r| - 1] == '/'
    ensures r[..|r| - 1] <= s
    ensures forall j :: |r| - 1 <= j < |s| ==> IsSlash(s[j])
    ensures |r| >= 2 ==> !IsSlash(r[|r| - 2])
  {
    var b := StripSlashes(s);
    assert (b + "/")[..|b|] == b;
    b + "/"
  }

  lemma TrailingSlashIdempotent(s: string)
    ensures TrailingSlash(TrailingSlash(s)) == TrailingSlash(s)
  {
    var b := StripSlashes(s);
    var t := b + "/";
    assert t[..|t| - 1] == b;
  }

  /** `new Cregis_API($api_url, $api_key, $pid)` */
  function NewApi(prims: Primitives, apiUrl: Value, apiKey: Value, pid: Value): (r: ApiClient)
    ensures |r.url| >= 1 && r.url[|r.url| - 1] == '/'
    ensures r.url == TrailingSlash(ToPhpString(apiUrl))
    ensures r.key == SanitizeText(apiKey)
    ensures r.pid == AbsInt(pid)
    ensures pid.Int? ==> r.pid == if pid.i < 0 then -pid.i else pid.i
    ensures r.prims == prims
  {
    ApiClient(TrailingSlash(ToPhpString(apiUrl)), SanitizeText(apiKey), AbsInt(pid), prims)
  }

  const NonceAlphabet: string := "abcdefghijklmnopqrstuvwxyzABCDEFGHIJKLMNOPQRSTUVWXYZ0123456789"

  /** A nonce of the given length and shape, the value `generate_nonce` returns. */
  predicate IsNonce(s: string, length: nat) {
    |s| == length && forall c :: c in s ==> c in NonceAlphabet
  }

  /**
   * `generate_nonce($length)`: each character is drawn from the alphabet at
   * an index `wp_rand` picks; which index is left open.
   */
  method GenerateNonce(length: nat) returns (nonce: string)
    ensures IsNonce(nonce, length)
  {
    nonce := "";
    for i := 0 to length
      invariant IsNonce(nonce, i)
    {
      var r :| 0 <= r <= |NonceAlphabet| - 1;
      nonce := nonce + [NonceAlphabet[r]];
    }
  }

  /** What `wp_remote_request` is asked to send. */
  datatype Request = Request(httpMethod: string, url: string, timeout: int, contentType: string, body: string)

  /** What `wp_remote_request` gives back: a `WP_Error`, or a status and the body run through `json_decode`. */
  datatype Transport = TransportError(message: string) | Reply(status: int, decoded: Value)

  /** The arrays `make_request` returns: `success` true with `data`, or false with `error` and maybe `code`. */
  datatype ApiResult = ApiSuccess(data: Value) | ApiFailure(error: Value, code: Option<Value>)

  /** The request `make_request($endpoint, $params)` sends. */
  function RequestFor(api: ApiClient, endpoint: string, params: Entries<Value>): Request {
    Request("POST", api.url + endpoint, 30, "application/json", api.prims.jsonEncode(Dict(params)))
  }

  /** The outcome `make_request` derives from what the transport gave back. */
  function Classify(reply: Transport): (r: ApiResult)
    ensures reply.TransportError? ==> r == ApiFailure(Str(reply.message), None)
    ensures reply.Reply? && (reply.status != 200 || IsEmpty(reply.decoded)) ==>
              r == ApiFailure(Str("Invalid API response"), None)
    ensures r.ApiSuccess? <==>
              reply.Reply? && reply.status == 200 && !IsEmpty(reply.decoded) &&
              (Get(reply.decoded, "code") == Null || Get(reply.decoded, "code") == Str("00000"))
    ensures r.ApiFailure? && r.code.Some? ==>
              reply.Reply? && r.code.value == Get(reply.decoded, "code") &&
              r.code.value != Null && r.code.value != Str("00000")
    ensures r.ApiSuccess? ==> r.data != Null
    ensures r.ApiSuccess? && Get(reply.decoded, "data") != Null ==> r.data == Get(reply.decoded, "data")
    ensures r.ApiFailure? ==> r.error != Null
    ensures reply.Reply? && reply.status == 200 && !IsEmpty(reply.decoded) &&
            IsSet(reply.decoded, "code") && Get(reply.decoded, "code") != Str("00000") ==>
              r == ApiFailure(if Get(reply.decoded, "msg") != Null then Get(reply.decoded, "msg") else Str("API error"),
                              Some(Get(reply.decoded, "code")))
    ensures r.ApiSuccess? && Get(reply.decoded, "data") == Null ==> r.data == Dict([])
  {
    match reply
    case TransportError(message) => ApiFailure(Str(message), None)
    case Reply(status, data) =>
      if status != 200 || IsEmpty(data) then ApiFailure(Str("Invalid API response"), None)
      else if IsSet(data, "code") && Get(data, "code") != Str("00000") then
        var msg := Get(data, "msg");
        ApiFailure(if msg != Null then msg else Str("API error"), Some(Get(data, "code")))
      else
        var d := Get(data, "data");
        ApiSuccess(if d != Null then d else Dict([]))
  }

  /** `verify_webhook_signature($data)` */
  function VerifyWebhookSignature(api: ApiClient, data: Value): (r: bool)
    ensures !IsSet(data, "sign") ==> !r
    ensures r ==> data.Dict? && Get(data, "sign") == Str(Signature(api.prims, api.key, data.entries))
  {
    if !IsSet(data, "sign") then false
    else Get(data, "sign") == Str(Signature(api.prims, api.key, data.entries))
  }

  /** `$params['sign'] = $this->generate_signature($params)` */
  function Signed(api: ApiClient, params: Entries<Value>): Entries<Value> {
    Set(params, "sign", Str(Signature(api.prims, api.key, params)))
  }

  /** A map signed the way outgoing requests are passes the webhook check. */
  lemma SignedVerifies(api: ApiClient, params: Entries<Value>)
    ensures VerifyWebhookSignature(api, Dict(Signed(api, params)))
  {
    SignFieldIgnored(api.prims, api.key, params, Str(Signature(api.prims, api.key, params)));
  }

  /**
   * With an injective md5, changing one signed value of a signed map after
   * signing makes the check fail.
   */
  lemma TamperedRejected(api: ApiClient, params: Entries<Value>, k: string, v1: Value, v2: Value)
    requires forall x, y :: api.prims.md5(x) == api.prims.md5(y) ==> x == y
    requires DistinctKeys(params) && (k, v1) in params
    requires k != "sign" && Kept(v1) && Kept(v2)
    requires Render(v1, api.prims.jsonEncode) != Render(v2, api.prims.jsonEncode)
    ensures !VerifyWebhookSignature(api, Dict(Set(Signed(api, params), k, v2)))
  {
    var sig := Signature(api.prims, api.key, params);
    var signed := Signed(api, params);
    var tampered := Set(signed, k, v2);
    assert DistinctKeys(signed) && (k, v1) in signed by {
      SetEntries(params, "sign", Str(sig));
    }
    assert Signature(api.prims, api.key, tampered) != sig by {
      SignFieldIgnored(api.prims, api.key, params, Str(sig));
      ValueChangeDetected(api.prims, api.key, signed, k, v1, v2);
    }
    assert Lookup(tampered, "sign") == Some(Str(sig));
    StaleSignRejected(api, tampered, sig);
  }

  /** A payload whose `sign` is not the signature of its own fields fails the check. */
  lemma StaleSignRejected(api: ApiClient, data: Entries<Value>, sig: string)
    requires Lookup(data, "sign") == Some(Str(sig))
    requires Signature(api.prims, api.key, data) != sig
    ensures !VerifyWebhookSignature(api, Dict(data))
  {
  }

  /** Two payloads with the same fields verify alike, whatever order the fields came in. */
  lemma VerifyOrderIndependent(api: ApiClient, p: Entries<Value>, q: Entries<Value>)
    requires DistinctKeys(p) && DistinctKeys(q)
    requires forall e :: e in p <==> e in q
    ensures VerifyWebhookSignature(api, Dict(p)) == VerifyWebhookSignature(api, Dict(q))
  {
    InsertionOrderIrrelevant(api.prims, api.key, p, q);
    if HasKey(p, "sign") {
      var v := Lookup(p, "sign").value;
      assert (("sign", v)) in q;
    }
    if HasKey(q, "sign") {
      var v := Lookup(q, "sign").value;
      assert (("sign", v)) in p;
    }
  }

  /** The text of `'true'`/`'false'` flags. */
  function FlagText(v: Value): Value {
    Str(if Truthy(v) then "true" else "false")
  }

  /** The array literal `create_payment` starts from. */
  function PaymentBase(api: ApiClient, orderId: Value, orderData: Value, nonce: string, timestamp: int): Entries<Value> {
    Literal(FixedFields, [
      Int(api.pid),                                        // pid
      Str(SanitizeText(orderId)),                          // order_id
      Str(SanitizeText(Get(orderData, "amount"))),         // order_amount
      Str(SanitizeText(Get(orderData, "currency"))),       // order_currency
      Str(SanitizeText(Get(orderData, "payer_id"))),       // payer_id
      Str(SanitizeText(Get(orderData, "payer_name"))),     // payer_name
      Str(SanitizeText(Get(orderData, "payer_email"))),    // payer_email
      Int(AbsInt(Get(orderData, "valid_time"))),           // valid_time
      Str(SanitizeText(Get(orderData, "callback_url"))),   // callback_url
      Str(SanitizeText(Get(orderData, "success_url"))),    // success_url
      Str(SanitizeText(Get(orderData, "cancel_url"))),     // cancel_url
      Str(nonce),                                          // nonce
      Int(timestamp)                                       // timestamp
    ])
  }

  /** The keys of the literal, in its order. */
  const FixedFields: seq<string> := [
    "pid", "order_id", "order_amount", "order_currency", "payer_id", "payer_name",
    "payer_email", "valid_time", "callback_url", "success_url", "cancel_url", "nonce", "timestamp"
  ]

  lemma PaymentBaseFields(api: ApiClient, orderId: Value, orderData: Value, nonce: string, timestamp: int)
    ensures var b := PaymentBase(api, orderId, orderData, nonce, timestamp);
            |b| == |FixedFields| && forall i :: 0 <= i < |b| ==> b[i].0 == FixedFields[i]
  {
  }

  lemma FixedFieldsSeparate()
    ensures forall i, j :: 0 <= i < j < |FixedFields| ==> FixedFields[i] != FixedFields[j]
    ensures forall i :: 0 <= i < |FixedFields| ==> FixedFields[i] !in OptionalFields && FixedFields[i] != "sign"
  {
  }

  /** The literal names no key twice, and neither an optional field nor `sign`. */
  lemma PaymentBaseKeys(api: ApiClient, orderId: Value, orderData: Value, nonce: string, timestamp: int)
    ensures FixedPart(PaymentBase(api, orderId, orderData, nonce, timestamp))
  {
    var b := PaymentBase(api, orderId, orderData, nonce, timestamp);
    PaymentBaseFields(api, orderId, orderData, nonce, timestamp);
    FixedFieldsSeparate();
    forall e | e in b ensures e.0 !in OptionalFields && e.0 != "sign" {
      var i :| 0 <= i < |b| && b[i] == e;
      assert e.0 == FixedFields[i];
    }
  }

  /** The optional fields of `create_payment`, in the order its conditional assignments run. */
  const OptionalFields: seq<string> :=
    ["remark", "tokens", "language", "order_details", "accept_partial_payment", "accept_over_payment"]

  /** An array with no key twice, no optional field and no `sign`. */
  predicate FixedPart(base: Entries<Value>) {
    DistinctKeys(base) && forall e :: e in base ==> e.0 !in OptionalFields && e.0 != "sign"
  }

  /** The entry an optional field becomes: JSON text, a flag text, or sanitized text. */
  function OptionalEntry(orderData: Value, k: string, json: Value -> string): Value {
    var v := Get(orderData, k);
    if k == "tokens" || k == "order_details" then Str(json(v))
    else if k == "accept_partial_payment" || k == "accept_over_payment" then FlagText(v)
    else Str(SanitizeText(v))
  }

  /** Whether an optional field is sent: the flags when `isset()`, the others when not `empty()`. */
  predicate OptionalSent(orderData: Value, k: string) {
    if k == "accept_partial_payment" || k == "accept_over_payment" then IsSet(orderData, k)
    else Truthy(Get(orderData, k))
  }

  /** The entries the first `n` optional fields add, in order. */
  function Extras(orderData: Value, n: nat, json: Value -> string): Entries<Value>
    requires n <= |OptionalFields|
  {
    if n == 0 then []
    else
      var k := OptionalFields[n - 1];
      Extras(orderData, n - 1, json) +
        (if OptionalSent(orderData, k) then [(k, OptionalEntry(orderData, k, json))] else [])
  }

  lemma {:induction false} ExtrasMembers(orderData: Value, n: nat, json: Value -> string)
    requires n <= |OptionalFields|
    ensures forall e :: e in Extras(orderData, n, json) <==>
              e.0 in OptionalFields[..n] && OptionalSent(orderData, e.0) && e.1 == OptionalEntry(orderData, e.0, json)
  {
    if n != 0 {
      ExtrasMembers(orderData, n - 1, json);
      assert OptionalFields[..n] == OptionalFields[..n - 1] + [OptionalFields[n - 1]];
    }
  }

  /** The parameters `create_payment` signs: the literal, then the optional fields that are sent. */
  function PaymentParams(api: ApiClient, orderId: Value, orderData: Value, nonce: string, timestamp: int): Entries<Value> {
    PaymentBase(api, orderId, orderData, nonce, timestamp) + Extras(orderData, |OptionalFields|, api.prims.jsonEncode)
  }

  /** Before an optional field is assigned, no entry has its key, so the assignment appends. */
  lemma OptionalFieldFresh(base: Entries<Value>, orderData: Value, i: nat, json: Value -> string)
    requires i < |OptionalFields|
    requires FixedPart(base)
    ensures !HasKey(base + Extras(orderData, i, json), OptionalFields[i])
  {
    ExtrasMembers(orderData, i, json);
    OptionalFieldNew(i);
  }

  /** No optional field repeats an earlier one. */
  lemma OptionalFieldNew(i: nat)
    requires i < |OptionalFields|
    ensures OptionalFields[i] !in OptionalFields[..i]
  {
    forall j | 0 <= j < i ensures OptionalFields[..i][j] != OptionalFields[i] {
      assert OptionalFields[..i][j] == OptionalFields[j];
    }
  }

  /**
   * The conditional assignment of optional field `i` in `create_payment`:
   * `$params[$k] = <entry>` when the field is sent, nothing otherwise.
   */
  method AssignOptional(ghost base: Entries<Value>, params: Entries<Value>, orderData: Value, i: nat, json: Value -> string)
    returns (r: Entries<Value>)
    requires i < |OptionalFields|
    requires FixedPart(base)
    requires params == base + Extras(orderData, i, json)
    ensures r == base + Extras(orderData, i + 1, json)
  {
    var k := OptionalFields[i];
    OptionalFieldFresh(base, orderData, i, json);
    if OptionalSent(orderData, k) {
      r := Set(params, k, OptionalEntry(orderData, k, json));
    } else {
      r := params;
    }
  }

  /** The six conditional assignments of `create_payment`, in source order. */
  method AddOptionalFields(base: Entries<Value>, orderData: Value, json: Value -> string) returns (params: Entries<Value>)
    requires FixedPart(base)
    ensures params == base + Extras(orderData, |OptionalFields|, json)
  {
    params := base;
    assert params == base + Extras(orderData, 0, json);
    params := AssignOptional(base, params, orderData, 0, json);  // remark
    params := AssignOptional(base, params, orderData, 1, json);  // tokens
    params := AssignOptional(base, params, orderData, 2, json);  // language
    params := AssignOptional(base, params, orderData, 3, json);  // order_details
    params := AssignOptional(base, params, orderData, 4, json);  // accept_partial_payment
    params := AssignOptional(base, params, orderData, 5, json);  // accept_over_payment
  }

  /**
   * `create_payment($order_id, $order_data)`: the literal, the conditional
   * assignments, the signature, then `make_request` to `api/v2/checkout`.
   * The nonce drawn for the request is returned alongside.
   */
  method CreatePayment(api: ApiClient, orderId: Value, orderData: Value, timestamp: int, reply: Transport)
    returns (params: Entries<Value>, request: Request, result: ApiResult, nonce: string)
    ensures IsNonce(nonce, 6)
    ensures params == Signed(api, PaymentParams(api, orderId, orderData, nonce, timestamp))
    ensures request == RequestFor(api, "api/v2/checkout", params)
    ensures result == Classify(reply)
  {
    nonce := GenerateNonce(6);
    params := PaymentBase(api, orderId, orderData, nonce, timestamp);
    PaymentBaseKeys(api, orderId, orderData, nonce, timestamp);
    params := AddOptionalFields(params, orderData, api.prims.jsonEncode);
    var sign := GenerateSignature(api.prims, api.key, params);
    params := Set(params, "sign", Str(sign));
    request := RequestFor(api, "api/v2/checkout", params);
    result := Classify(reply);
  }

  lemma {:induction false} ExtrasDistinct(orderData: Value, n: nat, json: Value -> string)
    requires n <= |OptionalFields|
    ensures DistinctKeys(Extras(orderData, n, json))
  {
    if n != 0 {
      var k := OptionalFields[n - 1];
      var before := Extras(orderData, n - 1, json);
      ExtrasDistinct(orderData, n - 1, json);
      if OptionalSent(orderData, k) {
        assert !HasKey(before, k) by {
          ExtrasMembers(orderData, n - 1, json);
          OptionalFieldNew(n - 1);
        }
        AppendDistinct(before, (k, OptionalEntry(orderData, k, json)));
      }
    }
  }

  /** Fixed entries followed by the optional ones that are sent form a proper array. */
  lemma {:induction false} WithExtrasShape(base: Entries<Value>, orderData: Value, json: Value -> string)
    requires FixedPart(base)
    ensures var p := base + Extras(orderData, |OptionalFields|, json);
            DistinctKeys(p) &&
            forall e :: e in p <==>
              e in base || (e.0 in OptionalFields && OptionalSent(orderData, e.0) && e.1 == OptionalEntry(orderData, e.0, json))
  {
    var extras: Entries<Value> := Extras(orderData, |OptionalFields|, json);
    ExtrasMembers(orderData, |OptionalFields|, json);
    ExtrasDistinct(orderData, |OptionalFields|, json);
    assert OptionalFields[..|OptionalFields|] == OptionalFields;
    forall i, j | 0 <= i < j < |base + extras| ensures (base + extras)[i].0 != (base + extras)[j].0 {
      if i < |base| && j >= |base| {
        assert base[i] in base && extras[j - |base|] in extras;
      }
    }
  }

  lemma WithExtrasLookup(base: Entries<Value>, orderData: Value, json: Value -> string, k: string)
    requires FixedPart(base)
    requires k in OptionalFields
    ensures Lookup(base + Extras(orderData, |OptionalFields|, json), k) ==
              if OptionalSent(orderData, k) then Some(OptionalEntry(orderData, k, json)) else None
  {
    var p := base + Extras(orderData, |OptionalFields|, json);
    WithExtrasShape(base, orderData, json);
    if Lookup(p, k).Some? {
      assert (k, Lookup(p, k).value) in p;
    }
  }

  lemma WithExtrasFixed(base: Entries<Value>, orderData: Value, json: Value -> string, e: (string, Value))
    requires FixedPart(base)
    requires e in base
    ensures Lookup(base + Extras(orderData, |OptionalFields|, json), e.0) == Some(e.1)
  {
    WithExtrasShape(base, orderData, json);
  }

  /** The parameters of `create_payment` form a proper array with no `sign`. */
  lemma PaymentParamsProper(api: ApiClient, orderId: Value, orderData: Value, nonce: string, timestamp: int)
    ensures DistinctKeys(PaymentParams(api, orderId, orderData, nonce, timestamp))
    ensures !HasKey(PaymentParams(api, orderId, orderData, nonce, timestamp), "sign")
  {
    var base := PaymentBase(api, orderId, orderData, nonce, timestamp);
    var json := api.prims.jsonEncode;
    PaymentBaseKeys(api, orderId, orderData, nonce, timestamp);
    WithExtrasShape(base, orderData, json);
    assert "sign" !in OptionalFields;
  }

  /** An optional field is among the parameters exactly when it is sent, with its entry. */
  lemma PaymentParamsOptional(api: ApiClient, orderId: Value, orderData: Value, nonce: string, timestamp: int, k: string)
    requires k in OptionalFields
    ensures Lookup(PaymentParams(api, orderId, orderData, nonce, timestamp), k) ==
              if OptionalSent(orderData, k) then Some(OptionalEntry(orderData, k, api.prims.jsonEncode)) else None
  {
    var base := PaymentBase(api, orderId, orderData, nonce, timestamp);
    var json := api.prims.jsonEncode;
    PaymentBaseKeys(api, orderId, orderData, nonce, timestamp);
    WithExtrasLookup(base, orderData, json, k);
  }

  /** Every key of the literal is sent with the literal's value for it. */
  lemma PaymentParamsFixed(api: ApiClient, orderId: Value, orderData: Value, nonce: string, timestamp: int, i: nat)
    requires i < |FixedFields|
    ensures Lookup(PaymentParams(api, orderId, orderData, nonce, timestamp), FixedFields[i]) ==
              Some(PaymentBase(api, orderId, orderData, nonce, timestamp)[i].1)
  {
    var base := PaymentBase(api, orderId, orderData, nonce, timestamp);
    PaymentBaseKeys(api, orderId, orderData, nonce, timestamp);
    PaymentBaseFields(api, orderId, orderData, nonce, timestamp);
    WithExtrasFixed(base, orderData, api.prims.jsonEncode, base[i]);
  }

  /**
   * When each text field is sent and as what: `remark`, `tokens`, `language`
   * and `order_details` when not `empty()`, the middle two as JSON text.
   */
  lemma OptionalTextRules(orderData: Value, json: Value -> string)
    ensures OptionalSent(orderData, "remark") <==> !IsEmpty(Get(orderData, "remark"))
    ensures OptionalEntry(orderData, "remark", json) == Str(SanitizeText(Get(orderData, "remark")))
    ensures OptionalSent(orderData, "tokens") <==> !IsEmpty(Get(orderData, "tokens"))
    ensures OptionalEntry(orderData, "tokens", json) == Str(json(Get(orderData, "tokens")))
    ensures OptionalSent(orderData, "language") <==> !IsEmpty(Get(orderData, "language"))
    ensures OptionalEntry(orderData, "language", json) == Str(SanitizeText(Get(orderData, "language")))
    ensures OptionalSent(orderData, "order_details") <==> !IsEmpty(Get(orderData, "order_details"))
    ensures OptionalEntry(orderData, "order_details", json) == Str(json(Get(orderData, "order_details")))
  {
  }

  /** The two flags are sent whenever `isset()`, as the text 'true' or 'false'. */
  lemma OptionalFlagRules(orderData: Value, json: Value -> string)
    ensures OptionalSent(orderData, "accept_partial_payment") <==> Get(orderData, "accept_partial_payment") != Null
    ensures OptionalEntry(orderData, "accept_partial_payment", json) ==
              Str(if Truthy(Get(orderData, "accept_partial_payment")) then "true" else "false")
    ensures OptionalSent(orderData, "accept_over_payment") <==> Get(orderData, "accept_over_payment") != Null
    ensures OptionalEntry(orderData, "accept_over_payment", json) ==
              Str(if Truthy(Get(orderData, "accept_over_payment")) then "true" else "false")
  {
  }

  /** The array literal `query_payment` starts from. */
  function QueryBase(api: ApiClient, nonce: string, timestamp: int): Entries<Value> {
    [("pid", Int(api.pid)), ("nonce", Str(nonce)), ("timestamp", Int(timestamp))]
  }

  /** `if ($v) $params[$k] = sanitize_text_field($v);` on a key not yet present. */
  function IdEntry(k: string, v: Value): Entries<Value> {
    if Truthy(v) then [(k, Str(SanitizeText(v)))] else []
  }

  /**
   * The parameters `query_payment` signs: `pid`, `nonce` and `timestamp`, then
   * `cregis_id` and `order_id`, each only when the argument given is truthy.
   */
  function QueryParams(api: ApiClient, cregisId: Value, orderId: Value, nonce: string, timestamp: int): Entries<Value> {
    QueryBase(api, nonce, timestamp) + IdEntry("cregis_id", cregisId) + IdEntry("order_id", orderId)
  }

  /** The conditional assignment of one identifier to a key the array lacks. */
  method AssignId(params: Entries<Value>, k: string, v: Value) returns (r: Entries<Value>)
    requires !HasKey(params, k)
    ensures r == params + IdEntry(k, v)
  {
    r := params;
    if Truthy(v) {
      r := Set(params, k, Str(SanitizeText(v)));
    }
  }

  lemma QueryBaseKeys(api: ApiClient, nonce: string, timestamp: int)
    ensures DistinctKeys(QueryBase(api, nonce, timestamp))
    ensures forall e :: e in QueryBase(api, nonce, timestamp) ==> e.0 in ["pid", "nonce", "timestamp"]
  {
  }

  /**
   * `query_payment($cregis_id, $order_id)`: the literal, the two conditional
   * assignments, the signature, then `make_request` to `api/v2/checkout/query`.
   */
  method QueryPayment(api: ApiClient, cregisId: Value, orderId: Value, timestamp: int, reply: Transport)
    returns (params: Entries<Value>, request: Request, result: ApiResult, nonce: string)
    ensures IsNonce(nonce, 6)
    ensures params == Signed(api, QueryParams(api, cregisId, orderId, nonce, timestamp))
    ensures request == RequestFor(api, "api/v2/checkout/query", params)
    ensures result == Classify(reply)
  {
    nonce := GenerateNonce(6);
    params := QueryBase(api, nonce, timestamp);
    QueryBaseKeys(api, nonce, timestamp);
    params := AssignId(params, "cregis_id", cregisId);
    params := AssignId(params, "order_id", orderId);
    var sign := GenerateSignature(api.prims, api.key, params);
    params := Set(params, "sign", Str(sign));
    request := RequestFor(api, "api/v2/checkout/query", params);
    result := Classify(reply);
  }

  /** The query parameters hold no key twice and no `sign`. */
  lemma QueryParamsProper(api: ApiClient, cregisId: Value, orderId: Value, nonce: string, timestamp: int)
    ensures DistinctKeys(QueryParams(api, cregisId, orderId, nonce, timestamp))
    ensures !HasKey(QueryParams(api, cregisId, orderId, nonce, timestamp), "sign")
  {
    var base := QueryBase(api, nonce, timestamp);
    var a := IdEntry("cregis_id", cregisId);
    var b := IdEntry("order_id", orderId);
    QueryBaseKeys(api, nonce, timestamp);
    var p := base + a + b;
    forall i, j | 0 <= i < j < |p| ensures p[i].0 != p[j].0 {
      assert p[i] in base || p[i] in a;
      assert p[j] in base || p[j] in a || p[j] in b;
    }
    assert forall e :: e in p ==> e in base || e in a || e in b;
  }

  /** The query always carries `pid`, `nonce` and `timestamp`. */
  lemma QueryParamsFixed(api: ApiClient, cregisId: Value, orderId: Value, nonce: string, timestamp: int)
    ensures Lookup(QueryParams(api, cregisId, orderId, nonce, timestamp), "pid") == Some(Int(api.pid))
    ensures Lookup(QueryParams(api, cregisId, orderId, nonce, timestamp), "nonce") == Some(Str(nonce))
    ensures Lookup(QueryParams(api, cregisId, orderId, nonce, timestamp), "timestamp") == Some(Int(timestamp))
  {
    QueryParamsProper(api, cregisId, orderId, nonce, timestamp);
    var p := QueryParams(api, cregisId, orderId, nonce, timestamp);
    assert p[0] == ("pid", Int(api.pid)) && p[1] == ("nonce", Str(nonce)) && p[2] == ("timestamp", Int(timestamp));
  }

  /** The query names the payment by whichever identifiers are truthy, and only by those. */
  lemma QueryParamsIds(api: ApiClient, cregisId: Value, orderId: Value, nonce: string, timestamp: int)
    ensures Lookup(QueryParams(api, cregisId, orderId, nonce, timestamp), "cregis_id") ==
              if Truthy(cregisId) then Some(Str(SanitizeText(cregisId))) else None
    ensures Lookup(QueryParams(api, cregisId, orderId, nonce, timestamp), "order_id") ==
              if Truthy(orderId) then Some(Str(SanitizeText(orderId))) else None
  {
    QueryParamsProper(api, cregisId, orderId, nonce, timestamp);
    QueryBaseKeys(api, nonce, timestamp);
  }
}
