/** The PayPal Express Checkout adapter.  Its public operations check the
    options they need and pick the API command; its builders write the
    request document into a `Builder::XmlMarkup` buffer.  The document is
    modelled as an element tree, so the properties below are statements
    about which elements appear, with what content, and in what order.
    Sending the document (`commit`) belongs to the common PayPal code and is
    not modelled: an operation answers with the command and document it
    would commit. */
module PaypalExpress {
  import opened RubyValues
  import opened RubyStrings
  import opened Gateway
  import opened Xml

  /** The namespace the mobile `Version` and the mobile setup details name. */
  const EblBaseNamespace: string := "urn:ebay:apis:eBLBaseComponents"
  const XsiNamespace: string := "http://www.w3.org/2001/XMLSchema-instance"

  /** A configured gateway.  `fmt` holds `amount()` and `currency()`; the
      namespaces and API versions are the constants of the common PayPal
      code; `applicationId` is the gateway's `application_id`;
      `addAddress` stands for the common code's `add_address`, giving the
      children it writes into an `n2:Address` element for an address, or
      None when it writes nothing. */
  datatype PaypalExpressGateway = PaypalExpressGateway(
    fmt: Formatter,
    paypalNamespace: string,
    ebayNamespace: string,
    apiVersion: string,
    mobileApiVersion: string,
    applicationId: Value,
    addAddress: Value -> Option<seq<Element>>)

  /** The `action` argument of the builders. */
  datatype PaymentKind = Authorization | Sale

  function ActionValue(a: PaymentKind): Value {
    match a
    case Authorization => Str("Authorization")
    case Sale => Str("Sale")
  }

  /** What a public operation comes to: `requires!` raising on a missing
      option, or a call of `commit(command, request)`. */
  datatype Dispatch = MissingParameter(key: string) | Commit(command: string, request: seq<Element>)

  // ---------------------------------------------------------------------
  // The documents, as specifications

  /** `[e] if c`. */
  function Opt(c: bool, e: Element): seq<Element> {
    if c then [e] else []
  }

  /** `xml.tag! t, v unless v.blank?`. */
  function UnlessBlank(t: Tag, v: Value): seq<Element> {
    Opt(!Blank(v), Leaf(t, v))
  }

  /** `options[:mobile] == true`: only the value true itself. */
  predicate IsMobile(options: Options) {
    Get(options, "mobile") == Bool(true)
  }

  /** `options[:currency] || currency(money)`. */
  function CurrencyCode(pp: PaypalExpressGateway, money: Value, options: Options): Value {
    Or(Get(options, "currency"), pp.fmt.currency(money))
  }

  /** The line items `options[:paymentDetailsItems].each` visits. */
  function PaymentItems(options: Options): seq<Value> {
    var v := Get(options, "paymentDetailsItems");
    if v.ListV? then v.items else []
  }

  /** The children of one `n2:PaymentDetailsItem`: name, number, quantity,
      amount and tax when present, the description always. */
  function ItemKids(pp: PaypalExpressGateway, item: Value, code: Value): seq<Element> {
    Opt(Truthy(Field(item, "name")), Leaf(N2Name, Field(item, "name"))) +
    Opt(Truthy(Field(item, "number")), Leaf(N2Number, Field(item, "number"))) +
    Opt(Truthy(Field(item, "quantity")), Leaf(N2Quantity, Field(item, "quantity"))) +
    Opt(Truthy(Field(item, "amount")), MoneyLeaf(N2Amount, pp.fmt.amount(Field(item, "amount")), code)) +
    Opt(Truthy(Field(item, "tax")), MoneyLeaf(N2Tax, pp.fmt.amount(Field(item, "tax")), code)) +
    [Leaf(N2Description, Field(item, "description"))]
  }

  function ItemElement(pp: PaypalExpressGateway, item: Value, code: Value): Element {
    Node(N2PaymentDetailsItem, [], ItemKids(pp, item, code))
  }

  /** One `n2:PaymentDetailsItem` per line item, in the items' order. */
  function ItemElements(pp: PaypalExpressGateway, items: seq<Value>, code: Value): (r: seq<Element>)
    ensures |r| == |items|
    ensures forall i :: 0 <= i < |items| ==> r[i] == ItemElement(pp, items[i], code)
  {
    seq(|items|, i requires 0 <= i < |items| => ItemElement(pp, items[i], code))
  }

  /** `[:subtotal, :shipping, :handling, :tax].all? { |o| options.has_key?(o) }`. */
  predicate HasAllTotals(options: Options) {
    "subtotal" in options && "shipping" in options && "handling" in options && "tax" in options
  }

  /** The four breakdown totals of a capture, all of them or none. */
  function CaptureTotals(pp: PaypalExpressGateway, options: Options, code: Value): seq<Element> {
    if HasAllTotals(options) then
      [MoneyLeaf(N2ItemTotal, pp.fmt.amount(Get(options, "subtotal")), code),
       MoneyLeaf(N2ShippingTotal, pp.fmt.amount(Get(options, "shipping")), code),
       MoneyLeaf(N2HandlingTotal, pp.fmt.amount(Get(options, "handling")), code),
       MoneyLeaf(N2TaxTotal, pp.fmt.amount(Get(options, "tax")), code)]
    else []
  }

  /** `application_id.to_s.slice(0,32) unless application_id.blank?`. */
  function ButtonSourceValue(pp: PaypalExpressGateway): Value {
    Slice(ToS(pp.applicationId), 0, 32)
  }

  function ButtonSource(pp: PaypalExpressGateway): seq<Element> {
    Opt(!Blank(pp.applicationId), Leaf(N2ButtonSource, ButtonSourceValue(pp)))
  }

  /** The children of the capture's `n2:PaymentDetails`. */
  function CapturePaymentKids(pp: PaypalExpressGateway, money: Value, options: Options): seq<Element> {
    var code := CurrencyCode(pp, money, options);
    [MoneyLeaf(N2OrderTotal, pp.fmt.amount(money), code)] +
    CaptureTotals(pp, options, code) +
    ItemElements(pp, PaymentItems(options), code) +
    [Leaf(N2NotifyURL, Get(options, "notify_url"))] +
    ButtonSource(pp)
  }

  /** The children of `n2:DoExpressCheckoutPaymentRequestDetails`. */
  function CaptureDetailsKids(pp: PaypalExpressGateway, action: PaymentKind, money: Value, options: Options): seq<Element> {
    [Leaf(N2PaymentAction, ActionValue(action)),
     Leaf(N2Token, Get(options, "token")),
     Leaf(N2PayerID, Get(options, "payer_id")),
     Node(N2PaymentDetails, [], CapturePaymentKids(pp, money, options))]
  }

  function MobileVersion(pp: PaypalExpressGateway): Element {
    Element(Version, [Attr("xmlns", Str(EblBaseNamespace))], Text(Str(pp.mobileApiVersion)))
  }

  function PaypalNs(pp: PaypalExpressGateway): seq<Attr> {
    [Attr("xmlns", Str(pp.paypalNamespace))]
  }

  function EbayNs(pp: PaypalExpressGateway): seq<Attr> {
    [Attr("xmlns:n2", Str(pp.ebayNamespace))]
  }

  /** The document of `build_sale_or_authorization_request`. */
  function SaleOrAuthorizationRequest(pp: PaypalExpressGateway, action: PaymentKind, money: Value, options: Options): seq<Element> {
    if IsMobile(options) then
      [Node(DoMobileCheckoutPaymentReq, PaypalNs(pp),
        [Node(DoMobileCheckoutPaymentRequest, [],
          [MobileVersion(pp), Leaf(PaymentAction, ActionValue(action)), Leaf(Token, Get(options, "token"))])])]
    else
      [Node(DoExpressCheckoutPaymentReq, PaypalNs(pp),
        [Node(DoExpressCheckoutPaymentRequest, EbayNs(pp),
          [Leaf(N2Version, Str(pp.apiVersion)),
           Node(N2DoExpressCheckoutPaymentRequestDetails, [], CaptureDetailsKids(pp, action, money, options))])])]
  }

  /** The document of `build_get_details_request`. */
  function GetDetailsRequest(pp: PaypalExpressGateway, token: Value, inMobileView: Value): seq<Element> {
    if Truthy(inMobileView) then []
    else
      [Node(GetExpressCheckoutDetailsReq, PaypalNs(pp),
        [Node(GetExpressCheckoutDetailsRequest, EbayNs(pp),
          [Leaf(N2Version, Str(pp.apiVersion)), Leaf(Token, token)])])]
  }

  /** The attributes of `SetMobileCheckoutRequestDetails`. */
  const MobileDetailsAttrs: seq<Attr> := [
    Attr("xmlns", Str(EblBaseNamespace)),
    Attr("xmlns:ebl", Str(EblBaseNamespace)),
    Attr("xmlns:xsi", Str(XsiNamespace)),
    Attr("xsi:type", Str("ebl:SetMobileCheckoutRequestDetailsType"))]

  /** The children of `SetMobileCheckoutRequestDetails`. */
  function MobileSetupKids(pp: PaypalExpressGateway, money: Value, options: Options): seq<Element> {
    [Leaf(ReturnURL, Get(options, "return_url")),
     Leaf(CancelURL, Get(options, "cancel_return_url")),
     Leaf(BuyerPhoneNumber, Get(options, "phone_number")),
     Leaf(InvoiceID, Get(options, "order_id")),
     MoneyLeaf(ItemAmount, pp.fmt.amount(money), CurrencyCode(pp, money, options)),
     Leaf(ItemName, Get(options, "description")),
     Leaf(ItemNumber, Get(options, "item_names"))] +
    UnlessBlank(BuyerEmail, Get(options, "email"))
  }

  /** `'1'` when the option is truthy, `'0'` otherwise. */
  function Flag(v: Value): Value {
    Str(if Truthy(v) then "1" else "0")
  }

  /** The `n2:MaxAmount` element, when `:max_amount` is given. */
  function MaxAmount(pp: PaypalExpressGateway, options: Options): seq<Element> {
    var max := Get(options, "max_amount");
    Opt(Truthy(max), MoneyLeaf(N2MaxAmount, pp.fmt.amount(max), Or(Get(options, "currency"), pp.fmt.currency(max))))
  }

  /** The page customisations, each left out when blank. */
  function PageStyle(options: Options): seq<Element> {
    UnlessBlank(N2LocaleCode, Get(options, "locale")) +
    UnlessBlank(N2PageStyle, Get(options, "page_style")) +
    UnlessBlank(N2CppImageHeader, Get(options, "header_image")) +
    UnlessBlank(N2CppHeaderBackColor, Get(options, "header_background_color")) +
    UnlessBlank(N2CppHeaderBorderColor, Get(options, "header_border_color")) +
    UnlessBlank(N2CppPayflowColor, Get(options, "background_color"))
  }

  /** `add_address(xml, 'n2:Address', options[:shipping_address] || options[:address])`. */
  function AddressBlock(pp: PaypalExpressGateway, options: Options): seq<Element> {
    match pp.addAddress(Or(Get(options, "shipping_address"), Get(options, "address")))
    case None => []
    case Some(kids) => [Node(N2Address, [], kids)]
  }

  /** The children of the desktop setup's `n2:PaymentDetails`: the order
      total, the item total equal to it, fixed zero shipping, handling and
      tax, then the line items. */
  function SetupPaymentKids(pp: PaypalExpressGateway, money: Value, options: Options): seq<Element> {
    var code := CurrencyCode(pp, money, options);
    [MoneyLeaf(N2OrderTotal, pp.fmt.amount(money), code),
     MoneyLeaf(N2ItemTotal, pp.fmt.amount(money), code),
     MoneyLeaf(N2ShippingTotal, Str("0.00"), code),
     MoneyLeaf(N2HandlingTotal, Str("0.00"), code),
     MoneyLeaf(N2TaxTotal, Str("0.00"), code)] +
    ItemElements(pp, PaymentItems(options), code)
  }

  /** The first children of `n2:SetExpressCheckoutRequestDetails`: the
      URLs, the optional maximum amount, the description, the invoice
      number and four flags. */
  function SetupHead(pp: PaypalExpressGateway, options: Options): seq<Element> {
    [Leaf(N2ReturnURL, Get(options, "return_url")),
     Leaf(N2CancelURL, Get(options, "cancel_return_url"))] +
    MaxAmount(pp, options) +
    [Leaf(N2OrderDescription, Get(options, "description")),
     Leaf(N2InvoiceID, Get(options, "order_id")),
     Leaf(N2ReqConfirmShipping, Num(0)),
     Leaf(N2ReqBillingAddress, Num(0)),
     Leaf(N2NoShipping, Flag(Get(options, "no_shipping"))),
     Leaf(N2AddressOverride, Flag(Get(options, "address_override")))]
  }

  /** The fixed choices after the address: the payment action, a sole
      (guest) checkout and the login landing page. */
  function SetupChoices(action: PaymentKind): seq<Element> {
    [Leaf(N2PaymentAction, ActionValue(action)),
     Leaf(N2SolutionType, Str("Sole")),
     Leaf(N2LandingPage, Str("Login"))]
  }

  /** The children of `n2:SetExpressCheckoutRequestDetails`. */
  function SetupDetailsKids(pp: PaypalExpressGateway, action: PaymentKind, money: Value, options: Options): seq<Element> {
    SetupHead(pp, options) +
    PageStyle(options) +
    AddressBlock(pp, options) +
    SetupChoices(action) +
    UnlessBlank(N2BuyerEmail, Get(options, "email")) +
    [Node(N2PaymentDetails, [], SetupPaymentKids(pp, money, options))]
  }

  /** The document of `build_setup_request`: the mobile shape for any truthy
      `:mobile`, the desktop shape otherwise. */
  function SetupRequest(pp: PaypalExpressGateway, action: PaymentKind, money: Value, options: Options): seq<Element> {
    if Truthy(Get(options, "mobile")) then
      [Node(SetMobileCheckoutReq, PaypalNs(pp),
        [Node(SetMobileCheckoutRequest, [],
          [MobileVersion(pp), Node(SetMobileCheckoutRequestDetails, MobileDetailsAttrs, MobileSetupKids(pp, money, options))])])]
    else
      [Node(SetExpressCheckoutReq, PaypalNs(pp),
        [Node(SetExpressCheckoutRequest, EbayNs(pp),
          [Leaf(N2Version, Str(pp.apiVersion)),
           Node(N2SetExpressCheckoutRequestDetails, [], SetupDetailsKids(pp, action, money, options))])])]
  }

  // ---------------------------------------------------------------------
  // The public operations

  /** `setup_authorization(money, options)`. */
  function SetupAuthorization(pp: PaypalExpressGateway, money: Value, options: Options): (r: Dispatch)
    ensures r.MissingParameter? <==> "return_url" !in options || "cancel_return_url" !in options
    ensures r.MissingParameter? ==> r.key == if "return_url" !in options then "return_url" else "cancel_return_url"
    ensures r.Commit? ==> r.command == "SetExpressCheckout" && r.request == SetupRequest(pp, Authorization, money, options)
  {
    var missing := FirstMissing(options, ["return_url", "cancel_return_url"]);
    if missing.Some? then MissingParameter(missing.value)
    else Commit("SetExpressCheckout", SetupRequest(pp, Authorization, money, options))
  }

  /** `setup_purchase(money, options)`. */
  function SetupPurchase(pp: PaypalExpressGateway, money: Value, options: Options): (r: Dispatch)
    ensures r.MissingParameter? <==> "return_url" !in options || "cancel_return_url" !in options
    ensures r.MissingParameter? ==> r.key == if "return_url" !in options then "return_url" else "cancel_return_url"
    ensures r.Commit? ==> r.request == SetupRequest(pp, Sale, money, options)
    ensures r.Commit? ==> (r.command == "SetMobileCheckout" <==> IsMobile(options))
    ensures r.Commit? ==> (r.command == "SetExpressCheckout" <==> !IsMobile(options))
  {
    var missing := FirstMissing(options, ["return_url", "cancel_return_url"]);
    if missing.Some? then MissingParameter(missing.value)
    else if IsMobile(options) then Commit("SetMobileCheckout", SetupRequest(pp, Sale, money, options))
    else Commit("SetExpressCheckout", SetupRequest(pp, Sale, money, options))
  }

  /** `details_for(token, in_mobile_view)`: never refuses; the mobile command
      goes with an empty document. */
  function DetailsFor(pp: PaypalExpressGateway, token: Value, inMobileView: Value): (r: Dispatch)
    ensures r.Commit?
    ensures r.command == (if Truthy(inMobileView) then "GetMobileCheckoutDetails" else "GetExpressCheckoutDetails")
    ensures r.request == GetDetailsRequest(pp, token, inMobileView)
    ensures Truthy(inMobileView) <==> r.request == []
  {
    if Truthy(inMobileView) then Commit("GetMobileCheckoutDetails", GetDetailsRequest(pp, token, inMobileView))
    else Commit("GetExpressCheckoutDetails", GetDetailsRequest(pp, token, inMobileView))
  }

  /** `authorize(money, options)`. */
  function Authorize(pp: PaypalExpressGateway, money: Value, options: Options): (r: Dispatch)
    ensures r.MissingParameter? <==> "token" !in options || "payer_id" !in options
    ensures r.MissingParameter? ==> r.key == if "token" !in options then "token" else "payer_id"
    ensures r.Commit? ==> r.request == SaleOrAuthorizationRequest(pp, Authorization, money, options)
    ensures r.Commit? ==> (r.command == "DoMobileCheckoutPayment" <==> IsMobile(options))
    ensures r.Commit? ==> (r.command == "DoExpressCheckoutPayment" <==> !IsMobile(options))
  {
    var missing := FirstMissing(options, ["token", "payer_id"]);
    if missing.Some? then MissingParameter(missing.value)
    else if IsMobile(options) then Commit("DoMobileCheckoutPayment", SaleOrAuthorizationRequest(pp, Authorization, money, options))
    else Commit("DoExpressCheckoutPayment", SaleOrAuthorizationRequest(pp, Authorization, money, options))
  }

  /** `purchase(money, options)`. */
  function Purchase(pp: PaypalExpressGateway, money: Value, options: Options): (r: Dispatch)
    ensures r.MissingParameter? <==> "token" !in options || "payer_id" !in options
    ensures r.MissingParameter? ==> r.key == if "token" !in options then "token" else "payer_id"
    ensures r.Commit? ==> r.request == SaleOrAuthorizationRequest(pp, Sale, money, options)
    ensures r.Commit? ==> (r.command == "DoMobileCheckoutPayment" <==> IsMobile(options))
    ensures r.Commit? ==> (r.command == "DoExpressCheckoutPayment" <==> !IsMobile(options))
  {
    var missing := FirstMissing(options, ["token", "payer_id"]);
    if missing.Some? then MissingParameter(missing.value)
    else if IsMobile(options) then Commit("DoMobileCheckoutPayment", SaleOrAuthorizationRequest(pp, Sale, money, options))
    else Commit("DoExpressCheckoutPayment", SaleOrAuthorizationRequest(pp, Sale, money, options))
  }

  // ---------------------------------------------------------------------
  // The builders, step by step
  //
  // Each `tag! ... do ... end` block is a method that opens the element,
  // calls the method writing its body and closes it; a body method is
  // proved to write the children the document function gives, in order.

  /** `xml.tag! t, v, attrs if c`. */
  method TagIf(xml: XmlMarkup, c: bool, t: Tag, v: Value, attrs: seq<Attr>)
    modifies xml
    ensures xml.State() == PutAll(old(xml.State()), Opt(c, Element(t, attrs, Text(v))))
  {
    if c {
      xml.TagText(t, v, attrs);
    }
  }

  /** `xml.tag! t, v unless v.blank?`. */
  method TagUnlessBlank(xml: XmlMarkup, t: Tag, v: Value)
    modifies xml
    ensures xml.State() == PutAll(old(xml.State()), UnlessBlank(t, v))
  {
    TagIf(xml, !Blank(v), t, v, []);
  }

  /** The body of one `xml.tag! 'n2:PaymentDetailsItem' do ... end` block. */
  method EmitItemKids(xml: XmlMarkup, pp: PaypalExpressGateway, item: Value, code: Value)
    modifies xml
    ensures xml.State() == PutAll(old(xml.State()), ItemKids(pp, item, code))
  {
    ghost var m := xml.State();
    var name, number, quantity, amount, tax := Field(item, "name"), Field(item, "number"),
      Field(item, "quantity"), Field(item, "amount"), Field(item, "tax");
    TagIf(xml, Truthy(name), N2Name, name, []);
    ghost var kids := Opt(Truthy(name), Leaf(N2Name, name));
    TagIf(xml, Truthy(number), N2Number, number, []);
    PutAllConcat(m, kids, Opt(Truthy(number), Leaf(N2Number, number)));
    kids := kids + Opt(Truthy(number), Leaf(N2Number, number));
    TagIf(xml, Truthy(quantity), N2Quantity, quantity, []);
    PutAllConcat(m, kids, Opt(Truthy(quantity), Leaf(N2Quantity, quantity)));
    kids := kids + Opt(Truthy(quantity), Leaf(N2Quantity, quantity));
    TagIf(xml, Truthy(amount), N2Amount, pp.fmt.amount(amount), [Attr("currencyID", code)]);
    PutAllConcat(m, kids, Opt(Truthy(amount), MoneyLeaf(N2Amount, pp.fmt.amount(amount), code)));
    kids := kids + Opt(Truthy(amount), MoneyLeaf(N2Amount, pp.fmt.amount(amount), code));
    TagIf(xml, Truthy(tax), N2Tax, pp.fmt.amount(tax), [Attr("currencyID", code)]);
    PutAllConcat(m, kids, Opt(Truthy(tax), MoneyLeaf(N2Tax, pp.fmt.amount(tax), code)));
    kids := kids + Opt(Truthy(tax), MoneyLeaf(N2Tax, pp.fmt.amount(tax), code));
    xml.TagText(N2Description, Field(item, "description"), []);
    PutAllSnoc(m, kids, Leaf(N2Description, Field(item, "description")));
  }

  /** One `xml.tag! 'n2:PaymentDetailsItem' do ... end` block. */
  method EmitItem(xml: XmlMarkup, pp: PaypalExpressGateway, item: Value, code: Value)
    modifies xml
    ensures xml.State() == Put(old(xml.State()), ItemElement(pp, item, code))
  {
    ghost var m := xml.State();
    xml.Open(N2PaymentDetailsItem, []);
    EmitItemKids(xml, pp, item, code);
    PutAllInto(m.done, m.open, N2PaymentDetailsItem, [], ItemKids(pp, item, code));
    xml.Close();
  }

  /** `paymentDetailsItems.each do |paymentDetailItem| ... end`. */
  method EmitItems(xml: XmlMarkup, pp: PaypalExpressGateway, items: seq<Value>, code: Value)
    modifies xml
    ensures xml.State() == PutAll(old(xml.State()), ItemElements(pp, items, code))
  {
    var i := 0;
    while i < |items|
      invariant 0 <= i <= |items|
      invariant PutAll(xml.State(), ItemElements(pp, items[i..], code)) == PutAll(old(xml.State()), ItemElements(pp, items, code))
    {
      assert ItemElements(pp, items[i..], code) == [ItemElement(pp, items[i], code)] + ItemElements(pp, items[i + 1..], code);
      EmitItem(xml, pp, items[i], code);
      i := i + 1;
    }
    assert ItemElements(pp, items[i..], code) == [];
  }

  /** `if options[:paymentDetailsItems]` around the loop over the items. */
  method EmitPaymentItems(xml: XmlMarkup, pp: PaypalExpressGateway, options: Options, code: Value)
    modifies xml
    ensures xml.State() == PutAll(old(xml.State()), ItemElements(pp, PaymentItems(options), code))
  {
    var items := Get(options, "paymentDetailsItems");
    if Truthy(items) {
      EmitItems(xml, pp, if items.ListV? then items.items else [], code);
    } else {
      assert ItemElements(pp, PaymentItems(options), code) == [];
    }
  }

  /** The four breakdown totals of a capture, written only when all four
      options are present. */
  method EmitCaptureTotals(xml: XmlMarkup, pp: PaypalExpressGateway, options: Options, code: Value)
    modifies xml
    ensures xml.State() == PutAll(old(xml.State()), CaptureTotals(pp, options, code))
  {
    if "subtotal" in options && "shipping" in options && "handling" in options && "tax" in options {
      xml.PutEach([MoneyLeaf(N2ItemTotal, pp.fmt.amount(Get(options, "subtotal")), code),
                   MoneyLeaf(N2ShippingTotal, pp.fmt.amount(Get(options, "shipping")), code),
                   MoneyLeaf(N2HandlingTotal, pp.fmt.amount(Get(options, "handling")), code),
                   MoneyLeaf(N2TaxTotal, pp.fmt.amount(Get(options, "tax")), code)]);
    }
  }

  /** The body of the capture's `n2:PaymentDetails` block. */
  method EmitCapturePaymentKids(xml: XmlMarkup, pp: PaypalExpressGateway, money: Value, options: Options)
    modifies xml
    ensures xml.State() == PutAll(old(xml.State()), CapturePaymentKids(pp, money, options))
  {
    ghost var m := xml.State();
    var code := Or(Get(options, "currency"), pp.fmt.currency(money));
    xml.TagText(N2OrderTotal, pp.fmt.amount(money), [Attr("currencyID", code)]);
    PutAllOne(m, MoneyLeaf(N2OrderTotal, pp.fmt.amount(money), code));
    var kids := [MoneyLeaf(N2OrderTotal, pp.fmt.amount(money), code)];
    EmitCaptureTotals(xml, pp, options, code);
    PutAllConcat(m, kids, CaptureTotals(pp, options, code));
    kids := kids + CaptureTotals(pp, options, code);
    EmitPaymentItems(xml, pp, options, code);
    PutAllConcat(m, kids, ItemElements(pp, PaymentItems(options), code));
    kids := kids + ItemElements(pp, PaymentItems(options), code);
    xml.TagText(N2NotifyURL, Get(options, "notify_url"), []);
    PutAllSnoc(m, kids, Leaf(N2NotifyURL, Get(options, "notify_url")));
    kids := kids + [Leaf(N2NotifyURL, Get(options, "notify_url"))];
    TagIf(xml, !Blank(pp.applicationId), N2ButtonSource, Slice(ToS(pp.applicationId), 0, 32), []);
    PutAllConcat(m, kids, ButtonSource(pp));
    kids := kids + ButtonSource(pp);
    assert kids == CapturePaymentKids(pp, money, options);
  }

  /** The capture's `n2:PaymentDetails` block. */
  method EmitCapturePaymentDetails(xml: XmlMarkup, pp: PaypalExpressGateway, money: Value, options: Options)
    modifies xml
    ensures xml.State() == Put(old(xml.State()), Node(N2PaymentDetails, [], CapturePaymentKids(pp, money, options)))
  {
    ghost var m := xml.State();
    xml.Open(N2PaymentDetails, []);
    EmitCapturePaymentKids(xml, pp, money, options);
    PutAllInto(m.done, m.open, N2PaymentDetails, [], CapturePaymentKids(pp, money, options));
    xml.Close();
  }

  /** The body of the `n2:DoExpressCheckoutPaymentRequestDetails` block. */
  method EmitCaptureDetailsKids(xml: XmlMarkup, pp: PaypalExpressGateway, action: PaymentKind, money: Value, options: Options)
    modifies xml
    ensures xml.State() == PutAll(old(xml.State()), CaptureDetailsKids(pp, action, money, options))
  {
    ghost var m := xml.State();
    var leaves := [Leaf(N2PaymentAction, ActionValue(action)),
                         Leaf(N2Token, Get(options, "token")),
                         Leaf(N2PayerID, Get(options, "payer_id"))];
    xml.PutEach(leaves);
    EmitCapturePaymentDetails(xml, pp, money, options);
    PutAllSnoc(m, leaves, Node(N2PaymentDetails, [], CapturePaymentKids(pp, money, options)));
    assert leaves + [Node(N2PaymentDetails, [], CapturePaymentKids(pp, money, options))] == CaptureDetailsKids(pp, action, money, options);
  }

  /** The `n2:DoExpressCheckoutPaymentRequestDetails` block. */
  method EmitCaptureDetails(xml: XmlMarkup, pp: PaypalExpressGateway, action: PaymentKind, money: Value, options: Options)
    modifies xml
    ensures xml.State() == Put(old(xml.State()), Node(N2DoExpressCheckoutPaymentRequestDetails, [], CaptureDetailsKids(pp, action, money, options)))
  {
    ghost var m := xml.State();
    xml.Open(N2DoExpressCheckoutPaymentRequestDetails, []);
    EmitCaptureDetailsKids(xml, pp, action, money, options);
    PutAllInto(m.done, m.open, N2DoExpressCheckoutPaymentRequestDetails, [], CaptureDetailsKids(pp, action, money, options));
    xml.Close();
  }

  /** The end of a document's outermost block once its one child is
      written: the document is that single element. */
  method CloseTop(xml: XmlMarkup, ghost outer: Markup, t: Tag, attrs: seq<Attr>, ghost child: Element)
    requires outer == Markup([], Block(t, attrs, [], NoBlock))
    requires xml.State() == Put(outer, child)
    modifies xml
    ensures xml.State() == Markup([Node(t, attrs, [child])], NoBlock)
  {
    PutAllOne(outer, child);
    PutAllInto([], NoBlock, t, attrs, [child]);
    xml.Close();
    assert [] + [Node(t, attrs, [child])] == [Node(t, attrs, [child])];
  }

  /** `build_sale_or_authorization_request(action, money, options)`. */
  method BuildSaleOrAuthorizationRequest(pp: PaypalExpressGateway, action: PaymentKind, money: Value, options: Options)
    returns (body: seq<Element>)
    ensures body == SaleOrAuthorizationRequest(pp, action, money, options)
  {
    var xml := new XmlMarkup();
    if Get(options, "mobile") == Bool(true) {
      xml.Open(DoMobileCheckoutPaymentReq, PaypalNs(pp));
      ghost var outer := xml.State();
      xml.Open(DoMobileCheckoutPaymentRequest, []);
      var kids := [MobileVersion(pp), Leaf(PaymentAction, ActionValue(action)), Leaf(Token, Get(options, "token"))];
      xml.PutEach(kids);
      PutAllInto(outer.done, outer.open, DoMobileCheckoutPaymentRequest, [], kids);
      xml.Close();
      CloseTop(xml, outer, DoMobileCheckoutPaymentReq, PaypalNs(pp), Node(DoMobileCheckoutPaymentRequest, [], kids));
    } else {
      xml.Open(DoExpressCheckoutPaymentReq, PaypalNs(pp));
      ghost var outer := xml.State();
      xml.Open(DoExpressCheckoutPaymentRequest, EbayNs(pp));
      ghost var inner := xml.State();
      xml.TagText(N2Version, Str(pp.apiVersion), []);
      EmitCaptureDetails(xml, pp, action, money, options);
      ghost var kids := PutTwo(inner, Leaf(N2Version, Str(pp.apiVersion)),
        Node(N2DoExpressCheckoutPaymentRequestDetails, [], CaptureDetailsKids(pp, action, money, options)));
      PutAllInto(outer.done, outer.open, DoExpressCheckoutPaymentRequest, EbayNs(pp), kids);
      xml.Close();
      CloseTop(xml, outer, DoExpressCheckoutPaymentReq, PaypalNs(pp), Node(DoExpressCheckoutPaymentRequest, EbayNs(pp), kids));
    }
    body := xml.Target();
  }

  /** `build_get_details_request(token, in_mobile_view)`: nothing is written
      for the mobile view. */
  method BuildGetDetailsRequest(pp: PaypalExpressGateway, token: Value, inMobileView: Value)
    returns (body: seq<Element>)
    ensures body == GetDetailsRequest(pp, token, inMobileView)
  {
    var xml := new XmlMarkup();
    if !Truthy(inMobileView) {
      xml.Open(GetExpressCheckoutDetailsReq, PaypalNs(pp));
      ghost var outer := xml.State();
      xml.Open(GetExpressCheckoutDetailsRequest, EbayNs(pp));
      var kids := [Leaf(N2Version, Str(pp.apiVersion)), Leaf(Token, token)];
      xml.PutEach(kids);
      PutAllInto(outer.done, outer.open, GetExpressCheckoutDetailsRequest, EbayNs(pp), kids);
      xml.Close();
      CloseTop(xml, outer, GetExpressCheckoutDetailsReq, PaypalNs(pp), Node(GetExpressCheckoutDetailsRequest, EbayNs(pp), kids));
    }
    body := xml.Target();
  }

  /** The body of the `SetMobileCheckoutRequestDetails` block. */
  method EmitMobileSetupKids(xml: XmlMarkup, pp: PaypalExpressGateway, money: Value, options: Options)
    modifies xml
    ensures xml.State() == PutAll(old(xml.State()), MobileSetupKids(pp, money, options))
  {
    ghost var m := xml.State();
    var code := Or(Get(options, "currency"), pp.fmt.currency(money));
    var leaves := [Leaf(ReturnURL, Get(options, "return_url")),
      Leaf(CancelURL, Get(options, "cancel_return_url")),
      Leaf(BuyerPhoneNumber, Get(options, "phone_number")),
      Leaf(InvoiceID, Get(options, "order_id")),
      MoneyLeaf(ItemAmount, pp.fmt.amount(money), code),
      Leaf(ItemName, Get(options, "description")),
      Leaf(ItemNumber, Get(options, "item_names"))];
    xml.PutEach(leaves);
    TagUnlessBlank(xml, BuyerEmail, Get(options, "email"));
    PutAllConcat(m, leaves, UnlessBlank(BuyerEmail, Get(options, "email")));
  }

  /** The `SetMobileCheckoutRequestDetails` block. */
  method EmitMobileSetupDetails(xml: XmlMarkup, pp: PaypalExpressGateway, money: Value, options: Options)
    modifies xml
    ensures xml.State() == Put(old(xml.State()), Node(SetMobileCheckoutRequestDetails, MobileDetailsAttrs, MobileSetupKids(pp, money, options)))
  {
    ghost var m := xml.State();
    xml.Open(SetMobileCheckoutRequestDetails, MobileDetailsAttrs);
    EmitMobileSetupKids(xml, pp, money, options);
    PutAllInto(m.done, m.open, SetMobileCheckoutRequestDetails, MobileDetailsAttrs, MobileSetupKids(pp, money, options));
    xml.Close();
  }

  /** The page customisation tags of the desktop setup. */
  method EmitPageStyle(xml: XmlMarkup, options: Options)
    modifies xml
    ensures xml.State() == PutAll(old(xml.State()), PageStyle(options))
  {
    ghost var m := xml.State();
    TagUnlessBlank(xml, N2LocaleCode, Get(options, "locale"));
    TagUnlessBlank(xml, N2PageStyle, Get(options, "page_style"));
    TagUnlessBlank(xml, N2CppImageHeader, Get(options, "header_image"));
    TagUnlessBlank(xml, N2CppHeaderBackColor, Get(options, "header_background_color"));
    TagUnlessBlank(xml, N2CppHeaderBorderColor, Get(options, "header_border_color"));
    TagUnlessBlank(xml, N2CppPayflowColor, Get(options, "background_color"));
    PutAllSplit6(m,
      UnlessBlank(N2LocaleCode, Get(options, "locale")),
      UnlessBlank(N2PageStyle, Get(options, "page_style")),
      UnlessBlank(N2CppImageHeader, Get(options, "header_image")),
      UnlessBlank(N2CppHeaderBackColor, Get(options, "header_background_color")),
      UnlessBlank(N2CppHeaderBorderColor, Get(options, "header_border_color")),
      UnlessBlank(N2CppPayflowColor, Get(options, "background_color")));
  }

  /** `add_address(xml, 'n2:Address', options[:shipping_address] || options[:address])`:
      the common code writes an `n2:Address` block with the children it
      chooses, or nothing. */
  method EmitAddress(xml: XmlMarkup, pp: PaypalExpressGateway, options: Options)
    modifies xml
    ensures xml.State() == PutAll(old(xml.State()), AddressBlock(pp, options))
  {
    ghost var m := xml.State();
    var written := pp.addAddress(Or(Get(options, "shipping_address"), Get(options, "address")));
    if written.Some? {
      xml.Open(N2Address, []);
      xml.PutEach(written.value);
      PutAllInto(m.done, m.open, N2Address, [], written.value);
      xml.Close();
      PutAllOne(m, Node(N2Address, [], written.value));
    }
  }

  /** The body of the desktop setup's `n2:PaymentDetails` block. */
  method EmitSetupPaymentKids(xml: XmlMarkup, pp: PaypalExpressGateway, money: Value, options: Options)
    modifies xml
    ensures xml.State() == PutAll(old(xml.State()), SetupPaymentKids(pp, money, options))
  {
    ghost var m := xml.State();
    var code := Or(Get(options, "currency"), pp.fmt.currency(money));
    var totals := [MoneyLeaf(N2OrderTotal, pp.fmt.amount(money), code),
      MoneyLeaf(N2ItemTotal, pp.fmt.amount(money), code),
      MoneyLeaf(N2ShippingTotal, Str("0.00"), code),
      MoneyLeaf(N2HandlingTotal, Str("0.00"), code),
      MoneyLeaf(N2TaxTotal, Str("0.00"), code)];
    xml.PutEach(totals);
    EmitPaymentItems(xml, pp, options, code);
    PutAllConcat(m, totals, ItemElements(pp, PaymentItems(options), code));
  }

  /** The desktop setup's `n2:PaymentDetails` block. */
  method EmitSetupPaymentDetails(xml: XmlMarkup, pp: PaypalExpressGateway, money: Value, options: Options)
    modifies xml
    ensures xml.State() == Put(old(xml.State()), Node(N2PaymentDetails, [], SetupPaymentKids(pp, money, options)))
  {
    ghost var m := xml.State();
    xml.Open(N2PaymentDetails, []);
    EmitSetupPaymentKids(xml, pp, money, options);
    PutAllInto(m.done, m.open, N2PaymentDetails, [], SetupPaymentKids(pp, money, options));
    xml.Close();
  }

  /** The first part of the desktop setup details: the URLs, the optional
      maximum amount, the description, the invoice and the four flags. */
  method EmitSetupHead(xml: XmlMarkup, pp: PaypalExpressGateway, options: Options)
    modifies xml
    ensures xml.State() == PutAll(old(xml.State()), SetupHead(pp, options))
  {
    ghost var m := xml.State();
    var urls := [Leaf(N2ReturnURL, Get(options, "return_url")), Leaf(N2CancelURL, Get(options, "cancel_return_url"))];
    xml.PutEach(urls);
    var max := Get(options, "max_amount");
    TagIf(xml, Truthy(max), N2MaxAmount, pp.fmt.amount(max), [Attr("currencyID", Or(Get(options, "currency"), pp.fmt.currency(max)))]);
    PutAllConcat(m, urls, MaxAmount(pp, options));
    var noShipping := if Truthy(Get(options, "no_shipping")) then "1" else "0";
    var addressOverride := if Truthy(Get(options, "address_override")) then "1" else "0";
    var rest := [Leaf(N2OrderDescription, Get(options, "description")),
      Leaf(N2InvoiceID, Get(options, "order_id")),
      Leaf(N2ReqConfirmShipping, Num(0)),
      Leaf(N2ReqBillingAddress, Num(0)),
      Leaf(N2NoShipping, Str(noShipping)),
      Leaf(N2AddressOverride, Str(addressOverride))];
    xml.PutEach(rest);
    PutAllConcat(m, urls + MaxAmount(pp, options), rest);
  }

  /** The body of the `n2:SetExpressCheckoutRequestDetails` block. */
  method EmitSetupDetailsKids(xml: XmlMarkup, pp: PaypalExpressGateway, action: PaymentKind, money: Value, options: Options)
    modifies xml
    ensures xml.State() == PutAll(old(xml.State()), SetupDetailsKids(pp, action, money, options))
  {
    ghost var m := xml.State();
    EmitSetupHead(xml, pp, options);
    ghost var kids := SetupHead(pp, options);
    EmitPageStyle(xml, options);
    PutAllConcat(m, kids, PageStyle(options));
    kids := kids + PageStyle(options);
    EmitAddress(xml, pp, options);
    PutAllConcat(m, kids, AddressBlock(pp, options));
    kids := kids + AddressBlock(pp, options);
    xml.PutEach(SetupChoices(action));
    PutAllConcat(m, kids, SetupChoices(action));
    kids := kids + SetupChoices(action);
    TagUnlessBlank(xml, N2BuyerEmail, Get(options, "email"));
    PutAllConcat(m, kids, UnlessBlank(N2BuyerEmail, Get(options, "email")));
    kids := kids + UnlessBlank(N2BuyerEmail, Get(options, "email"));
    EmitSetupPaymentDetails(xml, pp, money, options);
    PutAllSnoc(m, kids, Node(N2PaymentDetails, [], SetupPaymentKids(pp, money, options)));
  }

  /** The `n2:SetExpressCheckoutRequestDetails` block. */
  method EmitSetupDetails(xml: XmlMarkup, pp: PaypalExpressGateway, action: PaymentKind, money: Value, options: Options)
    modifies xml
    ensures xml.State() == Put(old(xml.State()), Node(N2SetExpressCheckoutRequestDetails, [], SetupDetailsKids(pp, action, money, options)))
  {
    ghost var m := xml.State();
    xml.Open(N2SetExpressCheckoutRequestDetails, []);
    EmitSetupDetailsKids(xml, pp, action, money, options);
    PutAllInto(m.done, m.open, N2SetExpressCheckoutRequestDetails, [], SetupDetailsKids(pp, action, money, options));
    xml.Close();
  }

  /** `build_setup_request(action, money, options)`. */
  method BuildSetupRequest(pp: PaypalExpressGateway, action: PaymentKind, money: Value, options: Options)
    returns (body: seq<Element>)
    ensures body == SetupRequest(pp, action, money, options)
  {
    var xml := new XmlMarkup();
    if Truthy(Get(options, "mobile")) {
      xml.Open(SetMobileCheckoutReq, PaypalNs(pp));
      ghost var outer := xml.State();
      xml.Open(SetMobileCheckoutRequest, []);
      ghost var inner := xml.State();
      xml.TagText(Version, Str(pp.mobileApiVersion), [Attr("xmlns", Str(EblBaseNamespace))]);
      EmitMobileSetupDetails(xml, pp, money, options);
      ghost var kids := PutTwo(inner, MobileVersion(pp),
        Node(SetMobileCheckoutRequestDetails, MobileDetailsAttrs, MobileSetupKids(pp, money, options)));
      PutAllInto(outer.done, outer.open, SetMobileCheckoutRequest, [], kids);
      xml.Close();
      CloseTop(xml, outer, SetMobileCheckoutReq, PaypalNs(pp), Node(SetMobileCheckoutRequest, [], kids));
    } else {
      xml.Open(SetExpressCheckoutReq, PaypalNs(pp));
      ghost var outer := xml.State();
      xml.Open(SetExpressCheckoutRequest, EbayNs(pp));
      ghost var inner := xml.State();
      xml.TagText(N2Version, Str(pp.apiVersion), []);
      EmitSetupDetails(xml, pp, action, money, options);
      ghost var kids := PutTwo(inner, Leaf(N2Version, Str(pp.apiVersion)),
        Node(N2SetExpressCheckoutRequestDetails, [], SetupDetailsKids(pp, action, money, options)));
      PutAllInto(outer.done, outer.open, SetExpressCheckoutRequest, EbayNs(pp), kids);
      xml.Close();
      CloseTop(xml, outer, SetExpressCheckoutReq, PaypalNs(pp), Node(SetExpressCheckoutRequest, EbayNs(pp), kids));
    }
    body := xml.Target();
  }

}
