/**
 * The payment gateway (`WC_Gateway_Cregis`): its settings, `process_payment`
 * (build the order data, create the Cregis payment, then either record it on
 * the order and redirect to the checkout page or show a notice and fail),
 * the crypto-payment row added to the order totals, and `process_refund`.
 */
module Gateway {
  import opened Wrappers
  import opened PhpArray
  import opened PhpValues
  import opened Signer
  import opened CregisApi
  import opened Orders
  import opened Webhook

  // Settings

  /**
   * The default of each form field: what `get_option` returns for a setting
   * that was never saved. A field without a default gives "".
   */
  function FieldDefault(key: string): Value {
    match key
    case "enabled" => Str("no")
    case "title" => Str("Cryptocurrency")
    case "description" => Str("Pay securely with cryptocurrency via Cregis.")
    case "api_url" => Str("https://api.cregis.io")
    case "valid_time" => Str("60")
    case "language" => Str("en")
    case "accept_partial" => Str("yes")
    case "accept_over" => Str("yes")
    case "debug_mode" => Str("no")
    case _ => Str("")
  }

  /**
   * `get_option($key, $emptyValue)`: the saved value, else the field's
   * default; a second argument replaces a value that is "".
   */
  function GetOption(saved: map<string, Value>, key: string, emptyValue: Option<Value>): (r: Value)
    ensures key in saved && (emptyValue.None? || saved[key] != Str("")) ==> r == saved[key]
    ensures key !in saved && (emptyValue.None? || FieldDefault(key) != Str("")) ==> r == FieldDefault(key)
    ensures emptyValue.Some? && key in saved && saved[key] == Str("") ==> r == emptyValue.value
    ensures emptyValue.Some? && key !in saved && FieldDefault(key) == Str("") ==> r == emptyValue.value
  {
    var v := if key in saved then saved[key] else FieldDefault(key);
    if emptyValue.Some? && v == Str("") then emptyValue.value else v
  }

  /** The settings the gateway's constructor reads once. */
  datatype CregisGateway = CregisGateway(
    title: Value, description: Value, apiUrl: Value, apiKey: Value, pid: Value, validTime: Value,
    acceptedTokens: Value, language: Value, acceptPartial: bool, acceptOver: bool)

  /** The setting `key` is missing or was saved as "". */
  predicate Blank(saved: map<string, Value>, key: string) {
    key !in saved || saved[key] == Str("")
  }

  /**
   * `new WC_Gateway_Cregis()` over the saved settings. A saved title,
   * description, URL, key or pid is used as saved. The valid time, the
   * accepted tokens and the language use a non-empty saved value, and fall
   * back to the constructor's own default when the setting is missing or "".
   */
  function NewGateway(saved: map<string, Value>): (g: CregisGateway)
    ensures g.validTime != Str("") && g.acceptedTokens != Str("") && g.language != Str("")
    ensures "title" in saved ==> g.title == saved["title"]
    ensures "description" in saved ==> g.description == saved["description"]
    ensures "api_url" in saved ==> g.apiUrl == saved["api_url"]
    ensures "api_key" in saved ==> g.apiKey == saved["api_key"]
    ensures "pid" in saved ==> g.pid == saved["pid"]
    ensures Blank(saved, "valid_time") ==> g.validTime == Str("60")
    ensures !Blank(saved, "valid_time") ==> g.validTime == saved["valid_time"]
    ensures Blank(saved, "accepted_tokens") ==> g.acceptedTokens == List([])
    ensures !Blank(saved, "accepted_tokens") ==> g.acceptedTokens == saved["accepted_tokens"]
    ensures Blank(saved, "language") ==> g.language == Str("en")
    ensures !Blank(saved, "language") ==> g.language == saved["language"]
  {
    SavedSettingsRead(saved);
    FallbackSettingsRead(saved);
    CregisGateway(
      GetOption(saved, "title", None),
      GetOption(saved, "description", None),
      GetOption(saved, "api_url", None),
      GetOption(saved, "api_key", None),
      GetOption(saved, "pid", None),
      GetOption(saved, "valid_time", Some(Str("60"))),
      GetOption(saved, "accepted_tokens", Some(List([]))),
      GetOption(saved, "language", Some(Str("en"))),
      GetOption(saved, "accept_partial", Some(Str("yes"))) == Str("yes"),
      GetOption(saved, "accept_over", Some(Str("yes"))) == Str("yes"))
  }

  /** A saved title, description, URL, key or pid is read as it was saved. */
  lemma SavedSettingsRead(saved: map<string, Value>)
    ensures "title" in saved ==> GetOption(saved, "title", None) == saved["title"]
    ensures "description" in saved ==> GetOption(saved, "description", None) == saved["description"]
    ensures "api_url" in saved ==> GetOption(saved, "api_url", None) == saved["api_url"]
    ensures "api_key" in saved ==> GetOption(saved, "api_key", None) == saved["api_key"]
    ensures "pid" in saved ==> GetOption(saved, "pid", None) == saved["pid"]
  {
    SavedOption(saved, "title");
    SavedOption(saved, "description");
    SavedOption(saved, "api_url");
    SavedOption(saved, "api_key");
    SavedOption(saved, "pid");
  }

  /** An option read without an empty value is the saved value whenever one is saved. */
  lemma SavedOption(saved: map<string, Value>, key: string)
    ensures key in saved ==> GetOption(saved, key, None) == saved[key]
  {
  }

  /** The valid time, tokens and language fall back to '60', an empty array and 'en'. */
  lemma FallbackSettingsRead(saved: map<string, Value>)
    ensures Blank(saved, "valid_time") ==> GetOption(saved, "valid_time", Some(Str("60"))) == Str("60")
    ensures !Blank(saved, "valid_time") ==> GetOption(saved, "valid_time", Some(Str("60"))) == saved["valid_time"]
    ensures Blank(saved, "accepted_tokens") ==> GetOption(saved, "accepted_tokens", Some(List([]))) == List([])
    ensures !Blank(saved, "accepted_tokens") ==>
              GetOption(saved, "accepted_tokens", Some(List([]))) == saved["accepted_tokens"]
    ensures Blank(saved, "language") ==> GetOption(saved, "language", Some(Str("en"))) == Str("en")
    ensures !Blank(saved, "language") ==> GetOption(saved, "language", Some(Str("en"))) == saved["language"]
  {
    assert FieldDefault("valid_time") == Str("60");
    FallbackOption(saved, "valid_time", Str("60"));
    assert FieldDefault("accepted_tokens") == Str("");
    FallbackOption(saved, "accepted_tokens", List([]));
    assert FieldDefault("language") == Str("en");
    FallbackOption(saved, "language", Str("en"));
  }

  /** An option whose default is the fallback, or "", reads the fallback when blank and the saved value otherwise. */
  lemma FallbackOption(saved: map<string, Value>, key: string, fallback: Value)
    requires FieldDefault(key) == fallback || FieldDefault(key) == Str("")
    ensures Blank(saved, key) ==> GetOption(saved, key, Some(fallback)) == fallback
    ensures !Blank(saved, key) ==> GetOption(saved, key, Some(fallback)) == saved[key]
  {
  }


  /**
   * Partial and over payments are accepted exactly when the saved option is
   * 'yes', or is missing or empty (both default to 'yes'); any other value,
   * such as the 'no' of an unticked checkbox, refuses them.
   */
  lemma AcceptFlagRules(saved: map<string, Value>)
    ensures NewGateway(saved).acceptPartial <==>
              "accept_partial" !in saved || saved["accept_partial"] == Str("yes") || saved["accept_partial"] == Str("")
    ensures NewGateway(saved).acceptOver <==>
              "accept_over" !in saved || saved["accept_over"] == Str("yes") || saved["accept_over"] == Str("")
  {
    YesOption(saved, "accept_partial");
    YesOption(saved, "accept_over");
  }

  /** A 'yes'-defaulted option read with 'yes' for empty is 'yes' exactly when missing, 'yes' or empty. */
  lemma YesOption(saved: map<string, Value>, key: string)
    requires FieldDefault(key) == Str("yes")
    ensures GetOption(saved, key, Some(Str("yes"))) == Str("yes") <==>
              key !in saved || saved[key] == Str("yes") || saved[key] == Str("")
  {
  }

  /** A gateway with nothing saved uses the defaults of the form fields. */
  lemma DefaultSettings()
    ensures var g := NewGateway(map[]);
            && g.title == Str("Cryptocurrency")
            && g.apiUrl == Str("https://api.cregis.io")
            && g.apiKey == Str("") && g.pid == Str("")
            && g.validTime == Str("60") && g.language == Str("en")
            && g.acceptedTokens == List([])
            && g.acceptPartial && g.acceptOver
  {
    DefaultTexts();
    DefaultRequestOptions();
    DefaultFlags();
  }

  /** With nothing saved, the title, URL, key and pid read their defaults. */
  lemma DefaultTexts()
    ensures GetOption(map[], "title", None) == Str("Cryptocurrency")
    ensures GetOption(map[], "api_url", None) == Str("https://api.cregis.io")
    ensures GetOption(map[], "api_key", None) == Str("")
    ensures GetOption(map[], "pid", None) == Str("")
  {
    DefaultOption("title", None);
    DefaultOption("api_url", None);
    DefaultOption("api_key", None);
    DefaultOption("pid", None);
  }

  /** With nothing saved, the valid time, language and tokens read their defaults. */
  lemma DefaultRequestOptions()
    ensures GetOption(map[], "valid_time", Some(Str("60"))) == Str("60")
    ensures GetOption(map[], "language", Some(Str("en"))) == Str("en")
    ensures GetOption(map[], "accepted_tokens", Some(List([]))) == List([])
  {
    DefaultOption("valid_time", Some(Str("60")));
    DefaultOption("language", Some(Str("en")));
    DefaultOption("accepted_tokens", Some(List([])));
  }

  /** With nothing saved, both acceptance flags read 'yes'. */
  lemma DefaultFlags()
    ensures GetOption(map[], "accept_partial", Some(Str("yes"))) == Str("yes")
    ensures GetOption(map[], "accept_over", Some(Str("yes"))) == Str("yes")
  {
    DefaultOption("accept_partial", Some(Str("yes")));
    DefaultOption("accept_over", Some(Str("yes")));
  }

  /** With nothing saved, an option reads its field's default, or the given empty value in place of "". */
  lemma DefaultOption(key: string, emptyValue: Option<Value>)
    ensures GetOption(map[], key, emptyValue) ==
              if emptyValue.Some? && FieldDefault(key) == Str("") then emptyValue.value else FieldDefault(key)
  {
  }

  /** The API client `process_payment` constructs from the settings. */
  function GatewayApi(g: CregisGateway, prims: Primitives): ApiClient {
    NewApi(prims, g.apiUrl, g.apiKey, g.pid)
  }

  // The order data sent to create_payment

  /** The addresses WooCommerce gives the gateway for an order: webhook, return page, checkout page. */
  datatype Urls = Urls(callback: string, success: string, cancel: string)

  /** `strval($order->get_customer_id() ?: $order->get_billing_email())` */
  function PayerId(o: Order): string {
    if o.customerId != 0 then IntToDecimal(o.customerId) else o.billingEmail
  }

  /** The array literal `process_payment` starts its order data from. */
  function OrderDataBase(g: CregisGateway, o: Order, urls: Urls): Entries<Value> {
    Literal(OrderDataKeys, [
      Str(o.total),                                        // amount
      Str(o.currency),                                     // currency
      Str(PayerId(o)),                                     // payer_id
      Str(o.billingFirstName + " " + o.billingLastName),   // payer_name
      Str(o.billingEmail),                                 // payer_email
      Int(AbsInt(g.validTime)),                            // valid_time
      Str(urls.callback),                                  // callback_url
      Str(urls.success),                                   // success_url
      Str(urls.cancel),                                    // cancel_url
      Str("Order #" + o.orderNumber),                      // remark
      g.language,                                          // language
      Bool(g.acceptPartial),                               // accept_partial_payment
      Bool(g.acceptOver)                                   // accept_over_payment
    ])
  }

  /** The entry describing one line item; its price is a float and is not modelled. */
  function ItemRow(item: Item, currency: string): Value {
    Dict([
      ("item_id", Str(IntToDecimal(item.productId.GetOr(0)))),
      ("item_name", Str(item.name)),
      ("price_currency", Str(currency)),
      ("item_quantity", Int(item.quantity))
    ])
  }

  /** The item entries, one per line item in order. */
  function ItemRows(items: seq<Item>, currency: string): (r: seq<Value>)
    ensures |r| == |items|
    ensures forall i :: 0 <= i < |items| ==> r[i] == ItemRow(items[i], currency)
  {
    if items == [] then []
    else ItemRows(items[..|items| - 1], currency) + [ItemRow(items[|items| - 1], currency)]
  }

  /** Each item entry names the product id (0 without a product) as decimal text. */
  lemma ItemRowId(item: Item, currency: string)
    ensures IntVal(Get(ItemRow(item, currency), "item_id")) == item.productId.GetOr(0)
  {
    LookupAt(ItemRow(item, currency).entries, 0, "item_id");
    DecimalRoundTrip(item.productId.GetOr(0));
  }

  /** Each item entry carries the item's name and quantity and the order's currency. */
  lemma ItemRowFields(item: Item, currency: string)
    ensures Get(ItemRow(item, currency), "item_name") == Str(item.name)
    ensures Get(ItemRow(item, currency), "price_currency") == Str(currency)
    ensures Get(ItemRow(item, currency), "item_quantity") == Int(item.quantity)
  {
    ItemRowAt(item, currency, 1, "item_name", Str(item.name));
    ItemRowAt(item, currency, 2, "price_currency", Str(currency));
    ItemRowAt(item, currency, 3, "item_quantity", Int(item.quantity));
  }

  /** The keys of an item entry, in its order. */
  const ItemKeys: seq<string> := ["item_id", "item_name", "price_currency", "item_quantity"]

  lemma ItemRowKeys(item: Item, currency: string)
    ensures var e := ItemRow(item, currency).entries;
            |e| == |ItemKeys| && forall j :: 0 <= j < |e| ==> e[j].0 == ItemKeys[j]
    ensures forall j, j' :: 0 <= j < j' < |ItemKeys| ==> ItemKeys[j] != ItemKeys[j']
  {
  }

  /** The `i`-th key of an item entry looks up the `i`-th value. */
  lemma ItemRowAt(item: Item, currency: string, i: nat, k: string, v: Value)
    requires i < |ItemKeys| && ItemKeys[i] == k && ItemRow(item, currency).entries[i].1 == v
    ensures Get(ItemRow(item, currency), k) == v
  {
    ItemRowKeys(item, currency);
    LookupByKeys(ItemRow(item, currency).entries, ItemKeys, i);
  }

  /** The `order_details` entry; the shipping and tax costs are floats and are not modelled. */
  function Details(items: seq<Value>): Value {
    Dict([("items", List(items))])
  }

  /** The two conditional assignments after the literal: `tokens` when configured, `order_details` when there are items. */
  function WithOrderOptions(base: Entries<Value>, tokens: Value, items: seq<Value>): Entries<Value> {
    var withTokens := if Truthy(tokens) then Set(base, "tokens", tokens) else base;
    if items != [] then Set(withTokens, "order_details", Details(items)) else withTokens
  }

  /** `$order_data` as `process_payment` hands it to `create_payment`. */
  function OrderData(g: CregisGateway, o: Order, urls: Urls): Value {
    Dict(WithOrderOptions(OrderDataBase(g, o, urls), g.acceptedTokens, ItemRows(o.items, o.currency)))
  }

  /** The optional assignments leave every other key as it was, and add their own keys only when due. */
  lemma OrderOptionsLookup(base: Entries<Value>, tokens: Value, items: seq<Value>, k: string)
    requires !HasKey(base, "tokens") && !HasKey(base, "order_details")
    ensures Lookup(WithOrderOptions(base, tokens, items), k) ==
              if k == "tokens" then (if Truthy(tokens) then Some(tokens) else None)
              else if k == "order_details" then (if items != [] then Some(Details(items)) else None)
              else Lookup(base, k)
  {
  }

  /** The `foreach` over the order's line items. */
  method BuildItems(o: Order) returns (items: seq<Value>)
    ensures items == ItemRows(o.items, o.currency)
  {
    items := [];
    for i := 0 to |o.items|
      invariant items == ItemRows(o.items[..i], o.currency)
    {
      assert o.items[..i + 1][..i] == o.items[..i];
      items := items + [ItemRow(o.items[i], o.currency)];
    }
    assert o.items[..|o.items|] == o.items;
  }

  /** The keys of the literal, in its order. */
  const OrderDataKeys: seq<string> := [
    "amount", "currency", "payer_id", "payer_name", "payer_email", "valid_time", "callback_url",
    "success_url", "cancel_url", "remark", "language", "accept_partial_payment", "accept_over_payment"
  ]

  lemma OrderDataBaseFields(g: CregisGateway, o: Order, urls: Urls)
    ensures var b := OrderDataBase(g, o, urls);
            |b| == |OrderDataKeys| && forall i :: 0 <= i < |b| ==> b[i].0 == OrderDataKeys[i]
  {
  }

  lemma OrderDataKeysSeparate()
    ensures forall i, j :: 0 <= i < j < |OrderDataKeys| ==> OrderDataKeys[i] != OrderDataKeys[j]
    ensures "tokens" !in OrderDataKeys && "order_details" !in OrderDataKeys
  {
  }

  /** The literal names neither `tokens` nor `order_details`, so assigning them appends. */
  lemma OrderDataBaseKeys(g: CregisGateway, o: Order, urls: Urls)
    ensures !HasKey(OrderDataBase(g, o, urls), "tokens")
    ensures !HasKey(OrderDataBase(g, o, urls), "order_details")
  {
    var b := OrderDataBase(g, o, urls);
    OrderDataBaseFields(g, o, urls);
    OrderDataKeysSeparate();
    forall e | e in b ensures e.0 != "tokens" && e.0 != "order_details" {
      var i :| 0 <= i < |b| && b[i] == e;
      assert e.0 == OrderDataKeys[i];
    }
  }

  /** `tokens` is in the order data exactly when tokens are configured. */
  lemma OrderDataTokens(g: CregisGateway, o: Order, urls: Urls)
    ensures Get(OrderData(g, o, urls), "tokens") == if Truthy(g.acceptedTokens) then g.acceptedTokens else Null
  {
    OrderDataBaseKeys(g, o, urls);
    OrderOptionsLookup(OrderDataBase(g, o, urls), g.acceptedTokens, ItemRows(o.items, o.currency), "tokens");
  }

  /** `order_details` is in the order data exactly when the order has line items. */
  lemma OrderDataDetails(g: CregisGateway, o: Order, urls: Urls)
    ensures Get(OrderData(g, o, urls), "order_details") ==
              if o.items != [] then Details(ItemRows(o.items, o.currency)) else Null
  {
    OrderDataBaseKeys(g, o, urls);
    OrderOptionsLookup(OrderDataBase(g, o, urls), g.acceptedTokens, ItemRows(o.items, o.currency), "order_details");
  }

  /**
   * Every key of the literal keeps its value in the order data: the
   * optional assignments that follow the literal touch other keys.
   */
  lemma OrderDataAt(g: CregisGateway, o: Order, urls: Urls, i: nat, k: string, v: Value)
    requires i < |OrderDataKeys| && OrderDataKeys[i] == k && OrderDataBase(g, o, urls)[i].1 == v
    ensures Get(OrderData(g, o, urls), k) == v
  {
    OrderDataBaseFields(g, o, urls);
    OrderDataKeysSeparate();
    OptionsKeepListed(OrderDataBase(g, o, urls), OrderDataKeys, g.acceptedTokens, ItemRows(o.items, o.currency), i);
  }

  /** In an array whose distinct keys are listed, and include neither optional key, the optional assignments keep every listed value. */
  lemma OptionsKeepListed(base: Entries<Value>, keys: seq<string>, tokens: Value, items: seq<Value>, i: nat)
    requires |base| == |keys| && i < |base|
    requires forall j :: 0 <= j < |base| ==> base[j].0 == keys[j]
    requires forall j, j' :: 0 <= j < j' < |keys| ==> keys[j] != keys[j']
    requires "tokens" !in keys && "order_details" !in keys
    ensures Get(Dict(WithOrderOptions(base, tokens, items)), keys[i]) == base[i].1
  {
    LookupByKeys(base, keys, i);
    forall e | e in base
      ensures e.0 != "tokens" && e.0 != "order_details"
    {
      var j :| 0 <= j < |base| && base[j] == e;
      assert e.0 == keys[j];
    }
    OrderOptionsLookup(base, tokens, items, keys[i]);
  }

  /** The order data names the order number in its remark. */
  lemma OrderDataRemark(g: CregisGateway, o: Order, urls: Urls)
    ensures Get(OrderData(g, o, urls), "remark") == Str("Order #" + o.orderNumber)
  {
    OrderDataAt(g, o, urls, 9, "remark", Str("Order #" + o.orderNumber));
  }

  /** The order data carries the configured language. */
  lemma OrderDataLanguage(g: CregisGateway, o: Order, urls: Urls)
    ensures Get(OrderData(g, o, urls), "language") == g.language
  {
    OrderDataAt(g, o, urls, 10, "language", g.language);
  }

  /** The order data carries both settings flags as booleans. */
  lemma OrderDataFlags(g: CregisGateway, o: Order, urls: Urls)
    ensures Get(OrderData(g, o, urls), "accept_partial_payment") == Bool(g.acceptPartial)
    ensures Get(OrderData(g, o, urls), "accept_over_payment") == Bool(g.acceptOver)
  {
    OrderDataAt(g, o, urls, 11, "accept_partial_payment", Bool(g.acceptPartial));
    OrderDataAt(g, o, urls, 12, "accept_over_payment", Bool(g.acceptOver));
  }

  /** The payer is the customer, by an id that reads back as that customer's number, or else the billing e-mail. */
  lemma PayerIdRule(o: Order)
    ensures o.customerId != 0 ==> IntVal(Str(PayerId(o))) == o.customerId
    ensures o.customerId == 0 ==> PayerId(o) == o.billingEmail
  {
    DecimalRoundTrip(o.customerId);
  }

  /** The payment request always carries both flags, as 'true' or 'false' by the settings. */
  lemma PaymentRequestFlags(g: CregisGateway, prims: Primitives, o: Order, urls: Urls, nonce: string, timestamp: int)
    ensures var api := GatewayApi(g, prims);
            var p := PaymentParams(api, Str(o.orderNumber), OrderData(g, o, urls), nonce, timestamp);
            && Lookup(p, "accept_partial_payment") == Some(Str(if g.acceptPartial then "true" else "false"))
            && Lookup(p, "accept_over_payment") == Some(Str(if g.acceptOver then "true" else "false"))
  {
    var api := GatewayApi(g, prims);
    var data := OrderData(g, o, urls);
    OrderDataFlags(g, o, urls);
    OptionalFlagRules(data, prims.jsonEncode);
    PaymentParamsOptional(api, Str(o.orderNumber), data, nonce, timestamp, "accept_partial_payment");
    PaymentParamsOptional(api, Str(o.orderNumber), data, nonce, timestamp, "accept_over_payment");
  }

  /** The payment request always carries the remark naming the order number. */
  lemma PaymentRequestRemark(g: CregisGateway, prims: Primitives, o: Order, urls: Urls, nonce: string, timestamp: int)
    ensures var api := GatewayApi(g, prims);
            Lookup(PaymentParams(api, Str(o.orderNumber), OrderData(g, o, urls), nonce, timestamp), "remark") ==
              Some(Str("Order #" + o.orderNumber))
  {
    OrderDataRemark(g, o, urls);
    RemarkNotEmpty(o.orderNumber);
    RemarkSent(GatewayApi(g, prims), Str(o.orderNumber), OrderData(g, o, urls), nonce, timestamp, "Order #" + o.orderNumber);
  }

  /** The remark is neither "" nor "0", whatever the order number. */
  lemma RemarkNotEmpty(orderNumber: string)
    ensures !IsEmpty(Str("Order #" + orderNumber))
  {
    assert ("Order #" + orderNumber)[0] == 'O';
  }

  /** A non-empty text remark in the order data is sent as it is. */
  lemma RemarkSent(api: ApiClient, orderId: Value, data: Value, nonce: string, timestamp: int, remark: string)
    requires Get(data, "remark") == Str(remark) && !IsEmpty(Str(remark))
    ensures Lookup(PaymentParams(api, orderId, data, nonce, timestamp), "remark") == Some(Str(remark))
  {
    OptionalTextRules(data, api.prims.jsonEncode);
    PaymentParamsOptional(api, orderId, data, nonce, timestamp, "remark");
  }

  /** The payment request carries tokens exactly when tokens are configured. */
  lemma PaymentRequestTokens(g: CregisGateway, prims: Primitives, o: Order, urls: Urls, nonce: string, timestamp: int)
    ensures var api := GatewayApi(g, prims);
            Lookup(PaymentParams(api, Str(o.orderNumber), OrderData(g, o, urls), nonce, timestamp), "tokens").Some? <==>
              Truthy(g.acceptedTokens)
  {
    OrderDataTokens(g, o, urls);
    OptionalSentIfSet(GatewayApi(g, prims), Str(o.orderNumber), OrderData(g, o, urls), nonce, timestamp, "tokens");
  }

  /** The payment request carries order details exactly when the order has line items. */
  lemma PaymentRequestDetails(g: CregisGateway, prims: Primitives, o: Order, urls: Urls, nonce: string, timestamp: int)
    ensures var api := GatewayApi(g, prims);
            Lookup(PaymentParams(api, Str(o.orderNumber), OrderData(g, o, urls), nonce, timestamp), "order_details").Some? <==>
              o.items != []
  {
    OrderDataDetails(g, o, urls);
    DetailsSentIffItems(GatewayApi(g, prims), Str(o.orderNumber), OrderData(g, o, urls), nonce, timestamp, o.items, o.currency);
  }

  /** Order details built from line items are sent exactly when there are items. */
  lemma DetailsSentIffItems(api: ApiClient, orderId: Value, data: Value, nonce: string, timestamp: int,
                            items: seq<Item>, currency: string)
    requires Get(data, "order_details") == if items != [] then Details(ItemRows(items, currency)) else Null
    ensures Lookup(PaymentParams(api, orderId, data, nonce, timestamp), "order_details").Some? <==> items != []
  {
    OptionalSentIfSet(api, orderId, data, nonce, timestamp, "order_details");
  }

  /** `tokens` and `order_details` are sent exactly when the order data holds a non-empty value for them. */
  lemma OptionalSentIfSet(api: ApiClient, orderId: Value, data: Value, nonce: string, timestamp: int, k: string)
    requires k == "tokens" || k == "order_details"
    ensures Lookup(PaymentParams(api, orderId, data, nonce, timestamp), k).Some? <==> !IsEmpty(Get(data, k))
  {
    OptionalTextRules(data, api.prims.jsonEncode);
    PaymentParamsOptional(api, orderId, data, nonce, timestamp, k);
  }

  // process_payment

  /** What a successful payment creation writes on the order: four metadata keys, then status pending. */
  function PaymentCreated(s: OrderState, data: Value): OrderState {
    var recorded := WithMeta(WithMeta(WithMeta(WithMeta(s,
      "_cregis_id", Field(data, "cregis_id")),
      "_cregis_checkout_url", Field(data, "checkout_url")),
      "_cregis_created_time", Field(data, "created_time")),
      "_cregis_expire_time", Field(data, "expire_time"));
    StatusUpdated(recorded, Pending, "Awaiting cryptocurrency payment")
  }

  /**
   * A created payment leaves the order pending with the four Cregis fields
   * recorded and every other metadata key as it was; the transaction id is
   * untouched.
   */
  lemma PaymentCreatedEffect(s: OrderState, data: Value)
    ensures var r := PaymentCreated(s, data);
            && r.status == Pending
            && r.meta == s.meta["_cregis_id" := Field(data, "cregis_id")]
                               ["_cregis_checkout_url" := Field(data, "checkout_url")]
                               ["_cregis_created_time" := Field(data, "created_time")]
                               ["_cregis_expire_time" := Field(data, "expire_time")]
            && r.transactionId == s.transactionId
            && s.notes <= r.notes
  {
  }

  /**
   * The order a created payment leaves is one the webhook completes: a paid
   * event pays it, and an expiry cancels it.
   */
  lemma CreatedOrderAwaitsWebhook(s: OrderState, data: Value, needsProcessing: bool, d: Value)
    ensures IsPaid(OnPaid(PaymentCreated(s, data), needsProcessing, d).status)
    ensures OnExpired(PaymentCreated(s, data)).status == Cancelled
  {
    var r := PaymentCreated(s, data);
    var recorded := WithMeta(WithMeta(PaymentRecorded(r, d),
      "_cregis_payment_address", Field(d, "payment_address")),
      "_cregis_transact_time", Field(d, "transact_time"));
    PaymentCompletedEffect(recorded, needsProcessing, Get(d, "tx_id"));
  }

  /** A notice `wc_add_notice` shows the shopper. */
  datatype Notice = Notice(message: string, kind: string)

  /** The shopper's session: the notices queued for the next page and the cart. */
  class Session {
    var notices: seq<Notice>
    var cart: seq<Item>

    /** `wc_add_notice($message, $kind)` */
    method AddNotice(message: string, kind: string)
      modifies this
      ensures notices == old(notices) + [Notice(message, kind)] && cart == old(cart)
    {
      notices := notices + [Notice(message, kind)];
    }

    /** `WC()->cart->empty_cart()` */
    method EmptyCart()
      modifies this
      ensures cart == [] && notices == old(notices)
    {
      cart := [];
    }
  }

  /** The array `process_payment` returns: failure, or success with the redirect. */
  datatype Checkout = CheckoutFailure | CheckoutSuccess(redirect: Value)

  /** The order `wc_get_order` finds, as the one object `process_payment` may change besides the session. */
  function Found(orders: seq<Order>, orderId: int): set<Order> {
    if FindById(orders, orderId).Some? then {FindById(orders, orderId).value} else {}
  }

  /**
   * `process_payment($order_id)`. The transport's reply and the clock are
   * inputs; the request sent and the nonce drawn are outputs.
   */
  method ProcessPayment(g: CregisGateway, prims: Primitives, orders: seq<Order>, session: Session,
                        orderId: int, urls: Urls, timestamp: int, reply: Transport)
    returns (result: Checkout, request: Option<Request>, nonce: string)
    modifies session, Found(orders, orderId)
    ensures FindById(orders, orderId).None? ==>
              && result == CheckoutFailure && request == None
              && session.notices == old(session.notices) + [Notice("Order not found", "error")]
              && session.cart == old(session.cart)
    ensures FindById(orders, orderId).Some? ==>
              var o := FindById(orders, orderId).value;
              && request.Some?
              && PaymentRequested(g, prims, o, urls, timestamp, nonce, request.value)
              && PaymentOutcome(Classify(reply), old(o.State()), o.State(), old(session.notices), session.notices,
                                old(session.cart), session.cart, result)
  {
    var found := FindById(orders, orderId);
    if found.None? {
      session.AddNotice("Order not found", "error");
      return CheckoutFailure, None, "";
    }
    var sent;
    result, sent, nonce := PayOrder(g, prims, found.value, session, urls, timestamp, reply);
    request := Some(sent);
  }

  /**
   * The request `process_payment` sends for an order found: the signed
   * payment parameters built from the order data, under a fresh nonce.
   */
  predicate PaymentRequested(g: CregisGateway, prims: Primitives, o: Order, urls: Urls, timestamp: int,
                             nonce: string, request: Request)
  {
    var api := GatewayApi(g, prims);
    && IsNonce(nonce, 6)
    && request == RequestFor(api, "api/v2/checkout",
         Signed(api, PaymentParams(api, Str(o.orderNumber), OrderData(g, o, urls), nonce, timestamp)))
  }

  /**
   * What the outcome of `create_payment` does to the order and the session:
   * a failure adds the error as a notice and changes nothing else; a
   * success records the payment, empties the cart and redirects to the
   * checkout page.
   */
  predicate PaymentOutcome(response: ApiResult, before: OrderState, after: OrderState,
                           noticesBefore: seq<Notice>, noticesAfter: seq<Notice>,
                           cartBefore: seq<Item>, cartAfter: seq<Item>, result: Checkout)
  {
    match response
    case ApiFailure(error, _) =>
      && result == CheckoutFailure
      && after == before
      && noticesAfter == noticesBefore + [Notice(ToPhpString(error), "error")]
      && cartAfter == cartBefore
    case ApiSuccess(data) =>
      && result == CheckoutSuccess(Get(data, "checkout_url"))
      && after == PaymentCreated(before, data)
      && noticesAfter == noticesBefore
      && cartAfter == []
  }

  /** `process_payment` once the order is found. */
  method PayOrder(g: CregisGateway, prims: Primitives, order: Order, session: Session,
                  urls: Urls, timestamp: int, reply: Transport)
    returns (result: Checkout, request: Request, nonce: string)
    modifies order, session
    ensures PaymentRequested(g, prims, order, urls, timestamp, nonce, request)
    ensures PaymentOutcome(Classify(reply), old(order.State()), order.State(), old(session.notices), session.notices,
                           old(session.cart), session.cart, result)
  {
    var response;
    request, response, nonce := RequestPayment(g, prims, order, urls, timestamp, reply);
    result := Settle(order, session, response);
  }

  /** The call to `create_payment` with the order data. */
  method RequestPayment(g: CregisGateway, prims: Primitives, order: Order, urls: Urls, timestamp: int, reply: Transport)
    returns (request: Request, response: ApiResult, nonce: string)
    ensures PaymentRequested(g, prims, order, urls, timestamp, nonce, request)
    ensures response == Classify(reply)
  {
    var api := NewApi(prims, g.apiUrl, g.apiKey, g.pid);
    var orderData := BuildOrderData(g, order, urls);
    var params;
    params, request, response, nonce := CreatePayment(api, Str(order.orderNumber), orderData, timestamp, reply);
  }

  /** What `process_payment` does with the outcome of `create_payment`. */
  method Settle(order: Order, session: Session, response: ApiResult) returns (result: Checkout)
    modifies order, session
    ensures PaymentOutcome(response, old(order.State()), order.State(), old(session.notices), session.notices,
                           old(session.cart), session.cart, result)
  {
    match response
    case ApiFailure(error, _) =>
      session.AddNotice(ToPhpString(error), "error");
      result := CheckoutFailure;
    case ApiSuccess(data) =>
      RecordPayment(order, data);
      session.EmptyCart();
      result := CheckoutSuccess(Get(data, "checkout_url"));
  }

  /** The order data `process_payment` assembles: the literal, then `tokens`, then the items and `order_details`. */
  method BuildOrderData(g: CregisGateway, order: Order, urls: Urls) returns (data: Value)
    ensures data == OrderData(g, order, urls)
  {
    var entries := OrderDataBase(g, order, urls);
    if Truthy(g.acceptedTokens) {
      entries := Set(entries, "tokens", g.acceptedTokens);
    }
    var items := BuildItems(order);
    if items != [] {
      entries := Set(entries, "order_details", Details(items));
    }
    data := Dict(entries);
  }

  /** The success branch of `process_payment`: the four metadata writes and the move to pending. */
  method RecordPayment(order: Order, data: Value)
    modifies order
    ensures order.State() == PaymentCreated(old(order.State()), data)
  {
    order.UpdateMetaData("_cregis_id", Field(data, "cregis_id"));
    order.UpdateMetaData("_cregis_checkout_url", Field(data, "checkout_url"));
    order.UpdateMetaData("_cregis_created_time", Field(data, "created_time"));
    order.UpdateMetaData("_cregis_expire_time", Field(data, "expire_time"));
    order.UpdateStatus(Pending, "Awaiting cryptocurrency payment");
  }

  // The order totals row

  /** A row of the order totals table. */
  datatype TotalsRow = TotalsRow(title: string, value: string)

  /** `$order->get_meta($k)`: "" for a key never written. */
  function MetaText(meta: map<string, string>, k: string): string {
    if k in meta then meta[k] else ""
  }

  /** Whether the crypto-payment row is shown: a Cregis order whose hash, amount and currency are all non-empty. */
  predicate ShowsPayment(paymentMethod: string, meta: map<string, string>) {
    && paymentMethod == "cregis"
    && Truthy(Str(MetaText(meta, "_cregis_transaction_hash")))
    && Truthy(Str(MetaText(meta, "_cregis_pay_amount")))
    && Truthy(Str(MetaText(meta, "_cregis_pay_currency")))
  }

  /** The row itself: the amount and the currency paid. */
  function PaymentRow(meta: map<string, string>): TotalsRow {
    TotalsRow("Cryptocurrency Payment:", MetaText(meta, "_cregis_pay_amount") + " " + MetaText(meta, "_cregis_pay_currency"))
  }

  /** `add_payment_info_to_order_totals($total_rows, $order)` for an order with this payment method and metadata. */
  function AddPaymentInfo(rows: Entries<TotalsRow>, paymentMethod: string, meta: map<string, string>): Entries<TotalsRow> {
    if !ShowsPayment(paymentMethod, meta) then rows
    else
      var info := [("crypto_payment", PaymentRow(meta))];
      match KeyIndex(rows, "payment_method")
      case Some(p) => Union(Union(rows[..p + 1], info), rows[p + 1..])
      case None => Merge(rows, info)
  }

  /** The rows are unchanged for another gateway's order or when any of the three payment fields is empty. */
  lemma PaymentInfoSkipped(rows: Entries<TotalsRow>, paymentMethod: string, meta: map<string, string>)
    requires !ShowsPayment(paymentMethod, meta)
    ensures AddPaymentInfo(rows, paymentMethod, meta) == rows
  {
  }

  /**
   * With a `payment_method` row, the crypto-payment row goes directly after
   * it and every other row keeps its place.
   */
  lemma PaymentInfoAfterMethod(rows: Entries<TotalsRow>, paymentMethod: string, meta: map<string, string>, p: nat)
    requires DistinctKeys(rows) && !HasKey(rows, "crypto_payment")
    requires p < |rows| && rows[p].0 == "payment_method"
    requires ShowsPayment(paymentMethod, meta)
    ensures AddPaymentInfo(rows, paymentMethod, meta) ==
              rows[..p + 1] + [("crypto_payment", PaymentRow(meta))] + rows[p + 1..]
  {
    assert KeyIndex(rows, "payment_method") == Some(p);
    UnionSplice(rows, p, ("crypto_payment", PaymentRow(meta)));
  }

  /** Without a `payment_method` row, the crypto-payment row is appended at the end. */
  lemma PaymentInfoAppended(rows: Entries<TotalsRow>, paymentMethod: string, meta: map<string, string>)
    requires !HasKey(rows, "payment_method") && !HasKey(rows, "crypto_payment")
    requires ShowsPayment(paymentMethod, meta)
    ensures AddPaymentInfo(rows, paymentMethod, meta) == rows + [("crypto_payment", PaymentRow(meta))]
  {
    var info := [("crypto_payment", PaymentRow(meta))];
    assert KeyIndex(rows, "payment_method") == None;
    assert Merge(rows, info) == Merge(Set(rows, "crypto_payment", PaymentRow(meta)), []);
  }

  // process_refund

  /** What `process_refund` returns: true for a refund made, or a `WP_Error`. */
  datatype RefundOutcome = RefundMade | RefundError(code: string, message: string)

  /**
   * `process_refund($order_id, $amount, $reason)`: never refunds; the error
   * says the order is missing, or that refunds go through the Cregis
   * dashboard. The amount and reason are only logged.
   */
  function ProcessRefund(orders: seq<Order>, orderId: int, amount: Value, reason: string): (r: RefundOutcome)
    ensures r.RefundError? && r.code == "error"
    ensures r.message == "Order not found" <==> FindById(orders, orderId).None?
    ensures FindById(orders, orderId).Some? ==> r.message == "Refunds must be processed through the Cregis dashboard"
  {
    if FindById(orders, orderId).None? then RefundError("error", "Order not found")
    else RefundError("error", "Refunds must be processed through the Cregis dashboard")
  }
}
