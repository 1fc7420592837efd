/** What the PayPal Express documents promise, stated over the document
    functions the builders are proved to write: which elements each request
    holds, with what content, how often and in what order.  Most facts are
    stated with `WithTag(kids, t)`, the elements of tag t in document order,
    so one equation gives the count, the text and the attributes at once.
    Each such fact is proved for one tag at a time by picking, among the
    parts a list of children is made of, the only part that can hold the
    tag; the lemmas stated for a reader gather these per-tag facts. */
module PaypalExpressProperties {
  import opened RubyValues
  import opened Gateway
  import opened Xml
  import opened PaypalExpress

  /** The children of the request element inside a document's single root
      element (`...Req` > `...Request` > these); empty for any other shape. */
  function RequestBody(doc: seq<Element>): seq<Element> {
    if |doc| == 1 && |Kids(doc[0])| == 1 then Kids(Kids(doc[0])[0]) else []
  }

  /** The first `limit` characters of s, or all of s when it is shorter. */
  function Prefix(s: string, limit: nat): (r: string)
    ensures r <= s
    ensures |r| == if |s| <= limit then |s| else limit
  {
    if |s| <= limit then s else s[..limit]
  }

  // ---------------------------------------------------------------------
  // Filtering the parts of a document

  lemma WithTagOpt(c: bool, e: Element, t: Tag)
    ensures WithTag(Opt(c, e), t) == if c && e.tag == t then [e] else []
  {
    if c && e.tag == t {
      WithTagUnique([e], 0, t);
    } else {
      WithTagNone(Opt(c, e), t);
    }
  }

  lemma OptNoTag(c: bool, e: Element, t: Tag)
    requires e.tag != t
    ensures NoTag(Opt(c, e), t)
  {
  }

  lemma OptWithTag(c: bool, e: Element)
    ensures WithTag(Opt(c, e), e.tag) == Opt(c, e)
  {
    WithTagOpt(c, e, e.tag);
  }

  lemma WithTagOne(e: Element)
    ensures WithTag([e], e.tag) == [e]
  {
    WithTagUnique([e], 0, e.tag);
  }

  lemma ItemsNoTag(pp: PaypalExpressGateway, items: seq<Value>, code: Value, t: Tag)
    requires t != N2PaymentDetailsItem
    ensures NoTag(ItemElements(pp, items, code), t)
  {
  }

  /** The line items are all `n2:PaymentDetailsItem` elements. */
  lemma ItemsWithTag(pp: PaypalExpressGateway, items: seq<Value>, code: Value)
    ensures WithTag(ItemElements(pp, items, code), N2PaymentDetailsItem) == ItemElements(pp, items, code)
  {
    WithTagAll(ItemElements(pp, items, code), N2PaymentDetailsItem);
  }

  // Picking one optional element out of six whose tags differ: the
  // filtered list is that element, when it is present.

  lemma OptPick0(c0: bool, c1: bool, c2: bool, c3: bool, c4: bool, c5: bool,
                  e0: Element, e1: Element, e2: Element, e3: Element, e4: Element, e5: Element)
    requires e1.tag != e0.tag
    requires e2.tag != e0.tag
    requires e3.tag != e0.tag
    requires e4.tag != e0.tag
    requires e5.tag != e0.tag
    ensures WithTag(Opt(c0, e0) + Opt(c1, e1) + Opt(c2, e2) + Opt(c3, e3) + Opt(c4, e4) + Opt(c5, e5), e0.tag) == Opt(c0, e0)
  {
    OptNoTag(c1, e1, e0.tag);
    OptNoTag(c2, e2, e0.tag);
    OptNoTag(c3, e3, e0.tag);
    OptNoTag(c4, e4, e0.tag);
    OptNoTag(c5, e5, e0.tag);
    PickOfSix(Opt(c0, e0), Opt(c1, e1), Opt(c2, e2), Opt(c3, e3), Opt(c4, e4), Opt(c5, e5), 0, e0.tag);
    OptWithTag(c0, e0);
  }

  lemma OptPick1(c0: bool, c1: bool, c2: bool, c3: bool, c4: bool, c5: bool,
                  e0: Element, e1: Element, e2: Element, e3: Element, e4: Element, e5: Element)
    requires e0.tag != e1.tag
    requires e2.tag != e1.tag
    requires e3.tag != e1.tag
    requires e4.tag != e1.tag
    requires e5.tag != e1.tag
    ensures WithTag(Opt(c0, e0) + Opt(c1, e1) + Opt(c2, e2) + Opt(c3, e3) + Opt(c4, e4) + Opt(c5, e5), e1.tag) == Opt(c1, e1)
  {
    OptNoTag(c0, e0, e1.tag);
    OptNoTag(c2, e2, e1.tag);
    OptNoTag(c3, e3, e1.tag);
    OptNoTag(c4, e4, e1.tag);
    OptNoTag(c5, e5, e1.tag);
    PickOfSix(Opt(c0, e0), Opt(c1, e1), Opt(c2, e2), Opt(c3, e3), Opt(c4, e4), Opt(c5, e5), 1, e1.tag);
    OptWithTag(c1, e1);
  }

  lemma OptPick2(c0: bool, c1: bool, c2: bool, c3: bool, c4: bool, c5: bool,
                  e0: Element, e1: Element, e2: Element, e3: Element, e4: Element, e5: Element)
    requires e0.tag != e2.tag
    requires e1.tag != e2.tag
    requires e3.tag != e2.tag
    requires e4.tag != e2.tag
    requires e5.tag != e2.tag
    ensures WithTag(Opt(c0, e0) + Opt(c1, e1) + Opt(c2, e2) + Opt(c3, e3) + Opt(c4, e4) + Opt(c5, e5), e2.tag) == Opt(c2, e2)
  {
    OptNoTag(c0, e0, e2.tag);
    OptNoTag(c1, e1, e2.tag);
    OptNoTag(c3, e3, e2.tag);
    OptNoTag(c4, e4, e2.tag);
    OptNoTag(c5, e5, e2.tag);
    PickOfSix(Opt(c0, e0), Opt(c1, e1), Opt(c2, e2), Opt(c3, e3), Opt(c4, e4), Opt(c5, e5), 2, e2.tag);
    OptWithTag(c2, e2);
  }

  lemma OptPick3(c0: bool, c1: bool, c2: bool, c3: bool, c4: bool, c5: bool,
                  e0: Element, e1: Element, e2: Element, e3: Element, e4: Element, e5: Element)
    requires e0.tag != e3.tag
    requires e1.tag != e3.tag
    requires e2.tag != e3.tag
    requires e4.tag != e3.tag
    requires e5.tag != e3.tag
    ensures WithTag(Opt(c0, e0) + Opt(c1, e1) + Opt(c2, e2) + Opt(c3, e3) + Opt(c4, e4) + Opt(c5, e5), e3.tag) == Opt(c3, e3)
  {
    OptNoTag(c0, e0, e3.tag);
    OptNoTag(c1, e1, e3.tag);
    OptNoTag(c2, e2, e3.tag);
    OptNoTag(c4, e4, e3.tag);
    OptNoTag(c5, e5, e3.tag);
    PickOfSix(Opt(c0, e0), Opt(c1, e1), Opt(c2, e2), Opt(c3, e3), Opt(c4, e4), Opt(c5, e5), 3, e3.tag);
    OptWithTag(c3, e3);
  }

  lemma OptPick4(c0: bool, c1: bool, c2: bool, c3: bool, c4: bool, c5: bool,
                  e0: Element, e1: Element, e2: Element, e3: Element, e4: Element, e5: Element)
    requires e0.tag != e4.tag
    requires e1.tag != e4.tag
    requires e2.tag != e4.tag
    requires e3.tag != e4.tag
    requires e5.tag != e4.tag
    ensures WithTag(Opt(c0, e0) + Opt(c1, e1) + Opt(c2, e2) + Opt(c3, e3) + Opt(c4, e4) + Opt(c5, e5), e4.tag) == Opt(c4, e4)
  {
    OptNoTag(c0, e0, e4.tag);
    OptNoTag(c1, e1, e4.tag);
    OptNoTag(c2, e2, e4.tag);
    OptNoTag(c3, e3, e4.tag);
    OptNoTag(c5, e5, e4.tag);
    PickOfSix(Opt(c0, e0), Opt(c1, e1), Opt(c2, e2), Opt(c3, e3), Opt(c4, e4), Opt(c5, e5), 4, e4.tag);
    OptWithTag(c4, e4);
  }

  lemma OptPick5(c0: bool, c1: bool, c2: bool, c3: bool, c4: bool, c5: bool,
                  e0: Element, e1: Element, e2: Element, e3: Element, e4: Element, e5: Element)
    requires e0.tag != e5.tag
    requires e1.tag != e5.tag
    requires e2.tag != e5.tag
    requires e3.tag != e5.tag
    requires e4.tag != e5.tag
    ensures WithTag(Opt(c0, e0) + Opt(c1, e1) + Opt(c2, e2) + Opt(c3, e3) + Opt(c4, e4) + Opt(c5, e5), e5.tag) == Opt(c5, e5)
  {
    OptNoTag(c0, e0, e5.tag);
    OptNoTag(c1, e1, e5.tag);
    OptNoTag(c2, e2, e5.tag);
    OptNoTag(c3, e3, e5.tag);
    OptNoTag(c4, e4, e5.tag);
    PickOfSix(Opt(c0, e0), Opt(c1, e1), Opt(c2, e2), Opt(c3, e3), Opt(c4, e4), Opt(c5, e5), 5, e5.tag);
    OptWithTag(c5, e5);
  }

  // ---------------------------------------------------------------------
  // One line item (both the capture and the setup write ItemElement)

  lemma ItemName(pp: PaypalExpressGateway, item: Value, code: Value)
    ensures WithTag(ItemKids(pp, item, code), N2Name) == Opt(Truthy(Field(item, "name")), Leaf(N2Name, Field(item, "name")))
  {
    OptPick0(Truthy(Field(item, "name")), Truthy(Field(item, "number")), Truthy(Field(item, "quantity")), Truthy(Field(item, "amount")), Truthy(Field(item, "tax")), true,
             Leaf(N2Name, Field(item, "name")),
             Leaf(N2Number, Field(item, "number")),
             Leaf(N2Quantity, Field(item, "quantity")),
             MoneyLeaf(N2Amount, pp.fmt.amount(Field(item, "amount")), code),
             MoneyLeaf(N2Tax, pp.fmt.amount(Field(item, "tax")), code),
             Leaf(N2Description, Field(item, "description")));
  }

  lemma ItemNumber(pp: PaypalExpressGateway, item: Value, code: Value)
    ensures WithTag(ItemKids(pp, item, code), N2Number) == Opt(Truthy(Field(item, "number")), Leaf(N2Number, Field(item, "number")))
  {
    OptPick1(Truthy(Field(item, "name")), Truthy(Field(item, "number")), Truthy(Field(item, "quantity")), Truthy(Field(item, "amount")), Truthy(Field(item, "tax")), true,
             Leaf(N2Name, Field(item, "name")),
             Leaf(N2Number, Field(item, "number")),
             Leaf(N2Quantity, Field(item, "quantity")),
             MoneyLeaf(N2Amount, pp.fmt.amount(Field(item, "amount")), code),
             MoneyLeaf(N2Tax, pp.fmt.amount(Field(item, "tax")), code),
             Leaf(N2Description, Field(item, "description")));
  }

  lemma ItemQuantity(pp: PaypalExpressGateway, item: Value, code: Value)
    ensures WithTag(ItemKids(pp, item, code), N2Quantity) == Opt(Truthy(Field(item, "quantity")), Leaf(N2Quantity, Field(item, "quantity")))
  {
    OptPick2(Truthy(Field(item, "name")), Truthy(Field(item, "number")), Truthy(Field(item, "quantity")), Truthy(Field(item, "amount")), Truthy(Field(item, "tax")), true,
             Leaf(N2Name, Field(item, "name")),
             Leaf(N2Number, Field(item, "number")),
             Leaf(N2Quantity, Field(item, "quantity")),
             MoneyLeaf(N2Amount, pp.fmt.amount(Field(item, "amount")), code),
             MoneyLeaf(N2Tax, pp.fmt.amount(Field(item, "tax")), code),
             Leaf(N2Description, Field(item, "description")));
  }

  lemma ItemAmount(pp: PaypalExpressGateway, item: Value, code: Value)
    ensures WithTag(ItemKids(pp, item, code), N2Amount) == Opt(Truthy(Field(item, "amount")), MoneyLeaf(N2Amount, pp.fmt.amount(Field(item, "amount")), code))
  {
    OptPick3(Truthy(Field(item, "name")), Truthy(Field(item, "number")), Truthy(Field(item, "quantity")), Truthy(Field(item, "amount")), Truthy(Field(item, "tax")), true,
             Leaf(N2Name, Field(item, "name")),
             Leaf(N2Number, Field(item, "number")),
             Leaf(N2Quantity, Field(item, "quantity")),
             MoneyLeaf(N2Amount, pp.fmt.amount(Field(item, "amount")), code),
             MoneyLeaf(N2Tax, pp.fmt.amount(Field(item, "tax")), code),
             Leaf(N2Description, Field(item, "description")));
  }

  lemma ItemTax(pp: PaypalExpressGateway, item: Value, code: Value)
    ensures WithTag(ItemKids(pp, item, code), N2Tax) == Opt(Truthy(Field(item, "tax")), MoneyLeaf(N2Tax, pp.fmt.amount(Field(item, "tax")), code))
  {
    OptPick4(Truthy(Field(item, "name")), Truthy(Field(item, "number")), Truthy(Field(item, "quantity")), Truthy(Field(item, "amount")), Truthy(Field(item, "tax")), true,
             Leaf(N2Name, Field(item, "name")),
             Leaf(N2Number, Field(item, "number")),
             Leaf(N2Quantity, Field(item, "quantity")),
             MoneyLeaf(N2Amount, pp.fmt.amount(Field(item, "amount")), code),
             MoneyLeaf(N2Tax, pp.fmt.amount(Field(item, "tax")), code),
             Leaf(N2Description, Field(item, "description")));
  }

  lemma ItemDescription(pp: PaypalExpressGateway, item: Value, code: Value)
    ensures WithTag(ItemKids(pp, item, code), N2Description) == [Leaf(N2Description, Field(item, "description"))]
  {
    OptPick5(Truthy(Field(item, "name")), Truthy(Field(item, "number")), Truthy(Field(item, "quantity")), Truthy(Field(item, "amount")), Truthy(Field(item, "tax")), true,
             Leaf(N2Name, Field(item, "name")),
             Leaf(N2Number, Field(item, "number")),
             Leaf(N2Quantity, Field(item, "quantity")),
             MoneyLeaf(N2Amount, pp.fmt.amount(Field(item, "amount")), code),
             MoneyLeaf(N2Tax, pp.fmt.amount(Field(item, "tax")), code),
             Leaf(N2Description, Field(item, "description")));
  }

  /** Each line item names its optional fields only when they are given,
      at most once each, and always ends with its description. */
  lemma ItemShape(pp: PaypalExpressGateway, item: Value, code: Value)
    ensures var kids := ItemKids(pp, item, code);
      |kids| >= 1 && kids[|kids| - 1] == Leaf(N2Description, Field(item, "description")) &&
      WithTag(kids, N2Description) == [Leaf(N2Description, Field(item, "description"))] &&
      WithTag(kids, N2Name) == Opt(Truthy(Field(item, "name")), Leaf(N2Name, Field(item, "name"))) &&
      WithTag(kids, N2Number) == Opt(Truthy(Field(item, "number")), Leaf(N2Number, Field(item, "number"))) &&
      WithTag(kids, N2Quantity) == Opt(Truthy(Field(item, "quantity")), Leaf(N2Quantity, Field(item, "quantity"))) &&
      WithTag(kids, N2Amount) ==
        Opt(Truthy(Field(item, "amount")), MoneyLeaf(N2Amount, pp.fmt.amount(Field(item, "amount")), code)) &&
      WithTag(kids, N2Tax) ==
        Opt(Truthy(Field(item, "tax")), MoneyLeaf(N2Tax, pp.fmt.amount(Field(item, "tax")), code))
  {
    ItemName(pp, item, code);
    ItemNumber(pp, item, code);
    ItemQuantity(pp, item, code);
    ItemAmount(pp, item, code);
    ItemTax(pp, item, code);
    ItemDescription(pp, item, code);
  }

  // ---------------------------------------------------------------------
  // build_get_details_request and the shapes of the capture

  /** The details request holds the API version and the token, in that
      order and nothing else; in the mobile view there is no document. */
  lemma DetailsRequestShape(pp: PaypalExpressGateway, token: Value, inMobileView: Value)
    ensures Truthy(inMobileView) <==> GetDetailsRequest(pp, token, inMobileView) == []
    ensures !Truthy(inMobileView) ==>
      var doc := GetDetailsRequest(pp, token, inMobileView);
      var body := RequestBody(doc);
      |doc| == 1 && doc[0].tag == GetExpressCheckoutDetailsReq && doc[0].attrs == PaypalNs(pp) &&
      Tags(body) == [N2Version, Token] &&
      body[0].content == Text(Str(pp.apiVersion)) && body[1].content == Text(token)
  {
    TagsOfTwo(Leaf(N2Version, Str(pp.apiVersion)), Leaf(Token, token));
  }

  /** With `:mobile => true` the capture holds only the version, the
      payment action and the token. */
  lemma MobileCaptureShape(pp: PaypalExpressGateway, action: PaymentKind, money: Value, options: Options)
    requires IsMobile(options)
    ensures var doc := SaleOrAuthorizationRequest(pp, action, money, options);
      var body := RequestBody(doc);
      |doc| == 1 && doc[0].tag == DoMobileCheckoutPaymentReq &&
      Tags(body) == [Version, PaymentAction, Token] &&
      body[0].content == Text(Str(pp.mobileApiVersion)) &&
      body[1].content == Text(ActionValue(action)) &&
      body[2].content == Text(Get(options, "token"))
  {
    TagsOfThree(MobileVersion(pp), Leaf(PaymentAction, ActionValue(action)), Leaf(Token, Get(options, "token")));
  }

  /** The capture's details: the payment action, the token, the payer and
      the payment details, in that order. */
  lemma CaptureDetailsShape(pp: PaypalExpressGateway, action: PaymentKind, money: Value, options: Options)
    ensures var details := CaptureDetailsKids(pp, action, money, options);
      Tags(details) == [N2PaymentAction, N2Token, N2PayerID, N2PaymentDetails] &&
      details[0].content == Text(ActionValue(action)) &&
      details[1].content == Text(Get(options, "token")) &&
      details[2].content == Text(Get(options, "payer_id")) &&
      Kids(details[3]) == CapturePaymentKids(pp, money, options)
  {
    TagsOfFour(Leaf(N2PaymentAction, ActionValue(action)), Leaf(N2Token, Get(options, "token")),
               Leaf(N2PayerID, Get(options, "payer_id")),
               Node(N2PaymentDetails, [], CapturePaymentKids(pp, money, options)));
  }

  /** Otherwise the capture's details hold the payment action, the token,
      the payer and the payment details, in that order. */
  lemma DesktopCaptureShape(pp: PaypalExpressGateway, action: PaymentKind, money: Value, options: Options)
    requires !IsMobile(options)
    ensures var doc := SaleOrAuthorizationRequest(pp, action, money, options);
      var body := RequestBody(doc);
      |doc| == 1 && doc[0].tag == DoExpressCheckoutPaymentReq &&
      Tags(body) == [N2Version, N2DoExpressCheckoutPaymentRequestDetails] &&
      body[0].content == Text(Str(pp.apiVersion)) &&
      Kids(body[1]) == CaptureDetailsKids(pp, action, money, options)
  {
    TagsOfTwo(Leaf(N2Version, Str(pp.apiVersion)),
              Node(N2DoExpressCheckoutPaymentRequestDetails, [], CaptureDetailsKids(pp, action, money, options)));
  }

  // ---------------------------------------------------------------------
  // The capture's n2:PaymentDetails

  /** The four breakdown totals, over abstract amounts. */
  lemma BreakdownNoTag(a: Value, b: Value, c: Value, d: Value, code: Value, t: Tag)
    requires t != N2ItemTotal && t != N2ShippingTotal && t != N2HandlingTotal && t != N2TaxTotal
    ensures NoTag([MoneyLeaf(N2ItemTotal, a, code), MoneyLeaf(N2ShippingTotal, b, code),
                   MoneyLeaf(N2HandlingTotal, c, code), MoneyLeaf(N2TaxTotal, d, code)], t)
  {
  }

  lemma BreakdownNone(a: Value, b: Value, c: Value, d: Value, code: Value, t: Tag)
    requires t != N2ItemTotal && t != N2ShippingTotal && t != N2HandlingTotal && t != N2TaxTotal
    ensures WithTag([MoneyLeaf(N2ItemTotal, a, code), MoneyLeaf(N2ShippingTotal, b, code),
                     MoneyLeaf(N2HandlingTotal, c, code), MoneyLeaf(N2TaxTotal, d, code)], t) == []
  {
    BreakdownNoTag(a, b, c, d, code, t);
    WithTagNone([MoneyLeaf(N2ItemTotal, a, code), MoneyLeaf(N2ShippingTotal, b, code),
                 MoneyLeaf(N2HandlingTotal, c, code), MoneyLeaf(N2TaxTotal, d, code)], t);
  }

  lemma BreakdownItemTotal(a: Value, b: Value, c: Value, d: Value, code: Value)
    ensures WithTag([MoneyLeaf(N2ItemTotal, a, code), MoneyLeaf(N2ShippingTotal, b, code),
                     MoneyLeaf(N2HandlingTotal, c, code), MoneyLeaf(N2TaxTotal, d, code)], N2ItemTotal) ==
            [MoneyLeaf(N2ItemTotal, a, code)]
  {
    WithTagUnique([MoneyLeaf(N2ItemTotal, a, code), MoneyLeaf(N2ShippingTotal, b, code),
                   MoneyLeaf(N2HandlingTotal, c, code), MoneyLeaf(N2TaxTotal, d, code)], 0, N2ItemTotal);
  }

  lemma BreakdownShippingTotal(a: Value, b: Value, c: Value, d: Value, code: Value)
    ensures WithTag([MoneyLeaf(N2ItemTotal, a, code), MoneyLeaf(N2ShippingTotal, b, code),
                     MoneyLeaf(N2HandlingTotal, c, code), MoneyLeaf(N2TaxTotal, d, code)], N2ShippingTotal) ==
            [MoneyLeaf(N2ShippingTotal, b, code)]
  {
    WithTagUnique([MoneyLeaf(N2ItemTotal, a, code), MoneyLeaf(N2ShippingTotal, b, code),
                   MoneyLeaf(N2HandlingTotal, c, code), MoneyLeaf(N2TaxTotal, d, code)], 1, N2ShippingTotal);
  }

  lemma BreakdownHandlingTotal(a: Value, b: Value, c: Value, d: Value, code: Value)
    ensures WithTag([MoneyLeaf(N2ItemTotal, a, code), MoneyLeaf(N2ShippingTotal, b, code),
                     MoneyLeaf(N2HandlingTotal, c, code), MoneyLeaf(N2TaxTotal, d, code)], N2HandlingTotal) ==
            [MoneyLeaf(N2HandlingTotal, c, code)]
  {
    WithTagUnique([MoneyLeaf(N2ItemTotal, a, code), MoneyLeaf(N2ShippingTotal, b, code),
                   MoneyLeaf(N2HandlingTotal, c, code), MoneyLeaf(N2TaxTotal, d, code)], 2, N2HandlingTotal);
  }

  lemma BreakdownTaxTotal(a: Value, b: Value, c: Value, d: Value, code: Value)
    ensures WithTag([MoneyLeaf(N2ItemTotal, a, code), MoneyLeaf(N2ShippingTotal, b, code),
                     MoneyLeaf(N2HandlingTotal, c, code), MoneyLeaf(N2TaxTotal, d, code)], N2TaxTotal) ==
            [MoneyLeaf(N2TaxTotal, d, code)]
  {
    WithTagUnique([MoneyLeaf(N2ItemTotal, a, code), MoneyLeaf(N2ShippingTotal, b, code),
                   MoneyLeaf(N2HandlingTotal, c, code), MoneyLeaf(N2TaxTotal, d, code)], 3, N2TaxTotal);
  }

  lemma CaptureTotalsNoTag(pp: PaypalExpressGateway, options: Options, code: Value, t: Tag)
    requires t != N2ItemTotal && t != N2ShippingTotal && t != N2HandlingTotal && t != N2TaxTotal
    ensures NoTag(CaptureTotals(pp, options, code), t)
  {
    BreakdownNoTag(pp.fmt.amount(Get(options, "subtotal")), pp.fmt.amount(Get(options, "shipping")),
                   pp.fmt.amount(Get(options, "handling")), pp.fmt.amount(Get(options, "tax")), code, t);
  }

  /** Picking one part out of the capture's payment details, over abstract
      parts: the order total, the breakdown, the items, the notify URL and
      the button source. */
  lemma KidsPickOrder(order: Element, totals: seq<Element>, items: seq<Element>, notify: Element, bs: seq<Element>)
    requires NoTag(totals, order.tag) && NoTag(items, order.tag) && notify.tag != order.tag && NoTag(bs, order.tag)
    ensures WithTag([order] + totals + items + [notify] + bs, order.tag) == [order]
  {
    PickOfFive([order], totals, items, [notify], bs, 0, order.tag);
    WithTagOne(order);
  }

  lemma KidsPickTotals(order: Element, totals: seq<Element>, items: seq<Element>, notify: Element, bs: seq<Element>, t: Tag)
    requires order.tag != t && NoTag(items, t) && notify.tag != t && NoTag(bs, t)
    ensures WithTag([order] + totals + items + [notify] + bs, t) == WithTag(totals, t)
  {
    PickOfFive([order], totals, items, [notify], bs, 1, t);
  }

  lemma KidsPickItems(order: Element, totals: seq<Element>, items: seq<Element>, notify: Element, bs: seq<Element>, t: Tag)
    requires order.tag != t && NoTag(totals, t) && notify.tag != t && NoTag(bs, t)
    ensures WithTag([order] + totals + items + [notify] + bs, t) == WithTag(items, t)
  {
    PickOfFive([order], totals, items, [notify], bs, 2, t);
  }

  lemma KidsPickNotify(order: Element, totals: seq<Element>, items: seq<Element>, notify: Element, bs: seq<Element>)
    requires order.tag != notify.tag && NoTag(totals, notify.tag) && NoTag(items, notify.tag) && NoTag(bs, notify.tag)
    ensures WithTag([order] + totals + items + [notify] + bs, notify.tag) == [notify]
  {
    PickOfFive([order], totals, items, [notify], bs, 3, notify.tag);
    WithTagOne(notify);
  }

  lemma KidsPickButtonSource(order: Element, totals: seq<Element>, items: seq<Element>, notify: Element, bs: seq<Element>, t: Tag)
    requires order.tag != t && NoTag(totals, t) && NoTag(items, t) && notify.tag != t
    ensures WithTag([order] + totals + items + [notify] + bs, t) == WithTag(bs, t)
  {
    PickOfFive([order], totals, items, [notify], bs, 4, t);
  }

  lemma CaptureOrderTotal(pp: PaypalExpressGateway, money: Value, options: Options)
    ensures WithTag(CapturePaymentKids(pp, money, options), N2OrderTotal) ==
            [MoneyLeaf(N2OrderTotal, pp.fmt.amount(money), CurrencyCode(pp, money, options))]
  {
    var code := CurrencyCode(pp, money, options);
    var t := N2OrderTotal;
    CaptureTotalsNoTag(pp, options, code, t);
    ItemsNoTag(pp, PaymentItems(options), code, t);
    OptNoTag(!Blank(pp.applicationId), Leaf(N2ButtonSource, ButtonSourceValue(pp)), t);
    KidsPickOrder(MoneyLeaf(N2OrderTotal, pp.fmt.amount(money), code), CaptureTotals(pp, options, code),
                  ItemElements(pp, PaymentItems(options), code), Leaf(N2NotifyURL, Get(options, "notify_url")),
                  ButtonSource(pp));
  }

  /** The capture's payment details keep, under a breakdown tag, what the
      breakdown keeps. */
  lemma CaptureBreakdown(pp: PaypalExpressGateway, money: Value, options: Options, t: Tag)
    requires t != N2OrderTotal && t != N2PaymentDetailsItem && t != N2NotifyURL && t != N2ButtonSource
    ensures var code := CurrencyCode(pp, money, options);
      WithTag(CapturePaymentKids(pp, money, options), t) == WithTag(CaptureTotals(pp, options, code), t)
  {
    var code := CurrencyCode(pp, money, options);
    ItemsNoTag(pp, PaymentItems(options), code, t);
    OptNoTag(!Blank(pp.applicationId), Leaf(N2ButtonSource, ButtonSourceValue(pp)), t);
    KidsPickTotals(MoneyLeaf(N2OrderTotal, pp.fmt.amount(money), code), CaptureTotals(pp, options, code),
                   ItemElements(pp, PaymentItems(options), code), Leaf(N2NotifyURL, Get(options, "notify_url")),
                   ButtonSource(pp), t);
  }

  lemma CaptureItemTotal(pp: PaypalExpressGateway, money: Value, options: Options)
    ensures WithTag(CapturePaymentKids(pp, money, options), N2ItemTotal) ==
      if HasAllTotals(options)
      then [MoneyLeaf(N2ItemTotal, pp.fmt.amount(Get(options, "subtotal")), CurrencyCode(pp, money, options))]
      else []
  {
    CaptureBreakdown(pp, money, options, N2ItemTotal);
    BreakdownItemTotal(pp.fmt.amount(Get(options, "subtotal")), pp.fmt.amount(Get(options, "shipping")),
                       pp.fmt.amount(Get(options, "handling")), pp.fmt.amount(Get(options, "tax")),
                       CurrencyCode(pp, money, options));
  }

  lemma CaptureShippingTotal(pp: PaypalExpressGateway, money: Value, options: Options)
    ensures WithTag(CapturePaymentKids(pp, money, options), N2ShippingTotal) ==
      if HasAllTotals(options)
      then [MoneyLeaf(N2ShippingTotal, pp.fmt.amount(Get(options, "shipping")), CurrencyCode(pp, money, options))]
      else []
  {
    CaptureBreakdown(pp, money, options, N2ShippingTotal);
    BreakdownShippingTotal(pp.fmt.amount(Get(options, "subtotal")), pp.fmt.amount(Get(options, "shipping")),
                           pp.fmt.amount(Get(options, "handling")), pp.fmt.amount(Get(options, "tax")),
                           CurrencyCode(pp, money, options));
  }

  lemma CaptureHandlingTotal(pp: PaypalExpressGateway, money: Value, options: Options)
    ensures WithTag(CapturePaymentKids(pp, money, options), N2HandlingTotal) ==
      if HasAllTotals(options)
      then [MoneyLeaf(N2HandlingTotal, pp.fmt.amount(Get(options, "handling")), CurrencyCode(pp, money, options))]
      else []
  {
    CaptureBreakdown(pp, money, options, N2HandlingTotal);
    BreakdownHandlingTotal(pp.fmt.amount(Get(options, "subtotal")), pp.fmt.amount(Get(options, "shipping")),
                           pp.fmt.amount(Get(options, "handling")), pp.fmt.amount(Get(options, "tax")),
                           CurrencyCode(pp, money, options));
  }

  lemma CaptureTaxTotal(pp: PaypalExpressGateway, money: Value, options: Options)
    ensures WithTag(CapturePaymentKids(pp, money, options), N2TaxTotal) ==
      if HasAllTotals(options)
      then [MoneyLeaf(N2TaxTotal, pp.fmt.amount(Get(options, "tax")), CurrencyCode(pp, money, options))]
      else []
  {
    CaptureBreakdown(pp, money, options, N2TaxTotal);
    BreakdownTaxTotal(pp.fmt.amount(Get(options, "subtotal")), pp.fmt.amount(Get(options, "shipping")),
                      pp.fmt.amount(Get(options, "handling")), pp.fmt.amount(Get(options, "tax")),
                      CurrencyCode(pp, money, options));
  }

  /** The order total is always sent; the four breakdown totals are sent
      all together, and only when all four options are given; every amount
      carries the same currency code, `options[:currency] || currency(money)`. */
  lemma CaptureTotalsAllOrNothing(pp: PaypalExpressGateway, money: Value, options: Options)
    ensures var code := Or(Get(options, "currency"), pp.fmt.currency(money));
      var kids := CapturePaymentKids(pp, money, options);
      WithTag(kids, N2OrderTotal) == [MoneyLeaf(N2OrderTotal, pp.fmt.amount(money), code)] &&
      WithTag(kids, N2ItemTotal) ==
        (if HasAllTotals(options) then [MoneyLeaf(N2ItemTotal, pp.fmt.amount(Get(options, "subtotal")), code)] else []) &&
      WithTag(kids, N2ShippingTotal) ==
        (if HasAllTotals(options) then [MoneyLeaf(N2ShippingTotal, pp.fmt.amount(Get(options, "shipping")), code)] else []) &&
      WithTag(kids, N2HandlingTotal) ==
        (if HasAllTotals(options) then [MoneyLeaf(N2HandlingTotal, pp.fmt.amount(Get(options, "handling")), code)] else []) &&
      WithTag(kids, N2TaxTotal) ==
        (if HasAllTotals(options) then [MoneyLeaf(N2TaxTotal, pp.fmt.amount(Get(options, "tax")), code)] else [])
  {
    CaptureOrderTotal(pp, money, options);
    CaptureItemTotal(pp, money, options);
    CaptureShippingTotal(pp, money, options);
    CaptureHandlingTotal(pp, money, options);
    CaptureTaxTotal(pp, money, options);
  }

  /** The capture lists one `n2:PaymentDetailsItem` per line item, in the
      order of `:paymentDetailsItems`. */
  lemma CaptureItemsInOrder(pp: PaypalExpressGateway, money: Value, options: Options)
    ensures var code := CurrencyCode(pp, money, options);
      var items := WithTag(CapturePaymentKids(pp, money, options), N2PaymentDetailsItem);
      |items| == |PaymentItems(options)| &&
      forall i :: 0 <= i < |items| ==> items[i] == ItemElement(pp, PaymentItems(options)[i], code)
  {
    var code := CurrencyCode(pp, money, options);
    var t := N2PaymentDetailsItem;
    CaptureTotalsNoTag(pp, options, code, t);
    OptNoTag(!Blank(pp.applicationId), Leaf(N2ButtonSource, ButtonSourceValue(pp)), t);
    KidsPickItems(MoneyLeaf(N2OrderTotal, pp.fmt.amount(money), code), CaptureTotals(pp, options, code),
                  ItemElements(pp, PaymentItems(options), code), Leaf(N2NotifyURL, Get(options, "notify_url")),
                  ButtonSource(pp), t);
    ItemsWithTag(pp, PaymentItems(options), code);
  }

  lemma CaptureNotifyURL(pp: PaypalExpressGateway, money: Value, options: Options)
    ensures WithTag(CapturePaymentKids(pp, money, options), N2NotifyURL) == [Leaf(N2NotifyURL, Get(options, "notify_url"))]
  {
    var code := CurrencyCode(pp, money, options);
    var t := N2NotifyURL;
    CaptureTotalsNoTag(pp, options, code, t);
    ItemsNoTag(pp, PaymentItems(options), code, t);
    OptNoTag(!Blank(pp.applicationId), Leaf(N2ButtonSource, ButtonSourceValue(pp)), t);
    KidsPickNotify(MoneyLeaf(N2OrderTotal, pp.fmt.amount(money), code), CaptureTotals(pp, options, code),
                   ItemElements(pp, PaymentItems(options), code), Leaf(N2NotifyURL, Get(options, "notify_url")),
                   ButtonSource(pp));
  }

  lemma CaptureButtonSource(pp: PaypalExpressGateway, money: Value, options: Options)
    ensures WithTag(CapturePaymentKids(pp, money, options), N2ButtonSource) == ButtonSource(pp)
  {
    var code := CurrencyCode(pp, money, options);
    var t := N2ButtonSource;
    CaptureTotalsNoTag(pp, options, code, t);
    ItemsNoTag(pp, PaymentItems(options), code, t);
    KidsPickButtonSource(MoneyLeaf(N2OrderTotal, pp.fmt.amount(money), code), CaptureTotals(pp, options, code),
                         ItemElements(pp, PaymentItems(options), code), Leaf(N2NotifyURL, Get(options, "notify_url")),
                         ButtonSource(pp), t);
    OptWithTag(!Blank(pp.applicationId), Leaf(N2ButtonSource, ButtonSourceValue(pp)));
  }

  /** The button source is the application id cut to 32 characters. */
  lemma ButtonSourcePrefix(pp: PaypalExpressGateway)
    ensures ButtonSourceValue(pp) == Str(Prefix(ToS(pp.applicationId), 32))
  {
    var s := ToS(pp.applicationId);
    if |s| <= 32 {
      assert s[0..] == s;
    } else {
      assert s[0..32] == s[..32];
    }
  }

  /** The notify URL is sent exactly once; the button source is sent
      exactly when the application id is not blank, as the first 32
      characters of its string form. */
  lemma CaptureNotifyAndButtonSource(pp: PaypalExpressGateway, money: Value, options: Options)
    ensures var kids := CapturePaymentKids(pp, money, options);
      WithTag(kids, N2NotifyURL) == [Leaf(N2NotifyURL, Get(options, "notify_url"))] &&
      WithTag(kids, N2ButtonSource) ==
        if Blank(pp.applicationId) then []
        else [Leaf(N2ButtonSource, Str(Prefix(ToS(pp.applicationId), 32)))]
  {
    CaptureNotifyURL(pp, money, options);
    CaptureButtonSource(pp, money, options);
    ButtonSourcePrefix(pp);
  }

  // ---------------------------------------------------------------------
  // build_setup_request: the desktop n2:SetExpressCheckoutRequestDetails

  /** The tags of each part of the desktop setup details. */
  predicate HeadTag(t: Tag) {
    t.N2ReturnURL? || t.N2CancelURL? || t.N2MaxAmount? || t.N2OrderDescription? || t.N2InvoiceID? ||
    t.N2ReqConfirmShipping? || t.N2ReqBillingAddress? || t.N2NoShipping? || t.N2AddressOverride?
  }

  predicate PageTag(t: Tag) {
    t.N2LocaleCode? || t.N2PageStyle? || t.N2CppImageHeader? || t.N2CppHeaderBackColor? ||
    t.N2CppHeaderBorderColor? || t.N2CppPayflowColor?
  }

  predicate ChoiceTag(t: Tag) {
    t.N2PaymentAction? || t.N2SolutionType? || t.N2LandingPage?
  }

  // The head of the setup details, stated over abstract values: the two
  // URLs, the optional maximum and six fixed leaves.

  lemma HeadNoTagOver(u0: Value, u1: Value, max: seq<Element>, v0: Value, v1: Value, v2: Value, v3: Value, v4: Value, v5: Value, t: Tag)
    requires NoTag(max, t)
    requires t != N2ReturnURL && t != N2CancelURL && t != N2OrderDescription && t != N2InvoiceID
    requires t != N2ReqConfirmShipping && t != N2ReqBillingAddress && t != N2NoShipping && t != N2AddressOverride
    ensures NoTag([Leaf(N2ReturnURL, u0), Leaf(N2CancelURL, u1)] + max +
                  [Leaf(N2OrderDescription, v0), Leaf(N2InvoiceID, v1), Leaf(N2ReqConfirmShipping, v2),
                     Leaf(N2ReqBillingAddress, v3), Leaf(N2NoShipping, v4), Leaf(N2AddressOverride, v5)], t)
  {
    NoTagAppend([Leaf(N2ReturnURL, u0), Leaf(N2CancelURL, u1)], max, t);
    NoTagAppend([Leaf(N2ReturnURL, u0), Leaf(N2CancelURL, u1)] + max,
                [Leaf(N2OrderDescription, v0), Leaf(N2InvoiceID, v1), Leaf(N2ReqConfirmShipping, v2),
                     Leaf(N2ReqBillingAddress, v3), Leaf(N2NoShipping, v4), Leaf(N2AddressOverride, v5)], t);
  }

  lemma HeadNoTag(pp: PaypalExpressGateway, options: Options, t: Tag)
    requires !HeadTag(t)
    ensures NoTag(SetupHead(pp, options), t)
  {
    HeadNoTagAt(pp, options, t);
  }

  lemma HeadNoTagAt(pp: PaypalExpressGateway, options: Options, t: Tag)
    requires t != N2ReturnURL && t != N2CancelURL && t != N2MaxAmount && t != N2OrderDescription && t != N2InvoiceID
    requires t != N2ReqConfirmShipping && t != N2ReqBillingAddress && t != N2NoShipping && t != N2AddressOverride
    ensures NoTag(SetupHead(pp, options), t)
  {
    OptNoTag(Truthy(Get(options, "max_amount")), MoneyLeaf(N2MaxAmount, pp.fmt.amount(Get(options, "max_amount")), Or(Get(options, "currency"), pp.fmt.currency(Get(options, "max_amount")))), t);
    HeadNoTagOver(Get(options, "return_url"), Get(options, "cancel_return_url"), MaxAmount(pp, options),
      Get(options, "description"), Get(options, "order_id"), Num(0), Num(0),
      Flag(Get(options, "no_shipping")), Flag(Get(options, "address_override")), t);
  }

  lemma NoTagOfSixOpts(c0: bool, c1: bool, c2: bool, c3: bool, c4: bool, c5: bool,
                       e0: Element, e1: Element, e2: Element, e3: Element, e4: Element, e5: Element, t: Tag)
    requires e0.tag != t && e1.tag != t && e2.tag != t && e3.tag != t && e4.tag != t && e5.tag != t
    ensures NoTag(Opt(c0, e0) + Opt(c1, e1) + Opt(c2, e2) + Opt(c3, e3) + Opt(c4, e4) + Opt(c5, e5), t)
  {
    OptNoTag(c0, e0, t);
    OptNoTag(c1, e1, t);
    OptNoTag(c2, e2, t);
    OptNoTag(c3, e3, t);
    OptNoTag(c4, e4, t);
    OptNoTag(c5, e5, t);
    NoTagAppend(Opt(c0, e0), Opt(c1, e1), t);
    NoTagAppend(Opt(c0, e0) + Opt(c1, e1), Opt(c2, e2), t);
    NoTagAppend(Opt(c0, e0) + Opt(c1, e1) + Opt(c2, e2), Opt(c3, e3), t);
    NoTagAppend(Opt(c0, e0) + Opt(c1, e1) + Opt(c2, e2) + Opt(c3, e3), Opt(c4, e4), t);
    NoTagAppend(Opt(c0, e0) + Opt(c1, e1) + Opt(c2, e2) + Opt(c3, e3) + Opt(c4, e4), Opt(c5, e5), t);
  }

  lemma PageStyleNoTag(options: Options, t: Tag)
    requires !PageTag(t)
    ensures NoTag(PageStyle(options), t)
  {
    PageStyleNoTagAt(options, t);
  }

  lemma PageStyleNoTagAt(options: Options, t: Tag)
    requires t != N2LocaleCode && t != N2PageStyle && t != N2CppImageHeader && t != N2CppHeaderBackColor && t != N2CppHeaderBorderColor && t != N2CppPayflowColor
    ensures NoTag(PageStyle(options), t)
  {
    NoTagOfSixOpts(!Blank(Get(options, "locale")), !Blank(Get(options, "page_style")), !Blank(Get(options, "header_image")), !Blank(Get(options, "header_background_color")), !Blank(Get(options, "header_border_color")), !Blank(Get(options, "background_color")),
      Leaf(N2LocaleCode, Get(options, "locale")),
      Leaf(N2PageStyle, Get(options, "page_style")),
      Leaf(N2CppImageHeader, Get(options, "header_image")),
      Leaf(N2CppHeaderBackColor, Get(options, "header_background_color")),
      Leaf(N2CppHeaderBorderColor, Get(options, "header_border_color")),
      Leaf(N2CppPayflowColor, Get(options, "background_color")), t);
  }

  lemma PageLocaleCode(options: Options)
    ensures WithTag(PageStyle(options), N2LocaleCode) == UnlessBlank(N2LocaleCode, Get(options, "locale"))
  {
    OptPick0(!Blank(Get(options, "locale")), !Blank(Get(options, "page_style")), !Blank(Get(options, "header_image")), !Blank(Get(options, "header_background_color")), !Blank(Get(options, "header_border_color")), !Blank(Get(options, "background_color")),
      Leaf(N2LocaleCode, Get(options, "locale")),
      Leaf(N2PageStyle, Get(options, "page_style")),
      Leaf(N2CppImageHeader, Get(options, "header_image")),
      Leaf(N2CppHeaderBackColor, Get(options, "header_background_color")),
      Leaf(N2CppHeaderBorderColor, Get(options, "header_border_color")),
      Leaf(N2CppPayflowColor, Get(options, "background_color")));
  }

  lemma PagePageStyle(options: Options)
    ensures WithTag(PageStyle(options), N2PageStyle) == UnlessBlank(N2PageStyle, Get(options, "page_style"))
  {
    OptPick1(!Blank(Get(options, "locale")), !Blank(Get(options, "page_style")), !Blank(Get(options, "header_image")), !Blank(Get(options, "header_background_color")), !Blank(Get(options, "header_border_color")), !Blank(Get(options, "background_color")),
      Leaf(N2LocaleCode, Get(options, "locale")),
      Leaf(N2PageStyle, Get(options, "page_style")),
      Leaf(N2CppImageHeader, Get(options, "header_image")),
      Leaf(N2CppHeaderBackColor, Get(options, "header_background_color")),
      Leaf(N2CppHeaderBorderColor, Get(options, "header_border_color")),
      Leaf(N2CppPayflowColor, Get(options, "background_color")));
  }

  lemma PageImageHeader(options: Options)
    ensures WithTag(PageStyle(options), N2CppImageHeader) == UnlessBlank(N2CppImageHeader, Get(options, "header_image"))
  {
    OptPick2(!Blank(Get(options, "locale")), !Blank(Get(options, "page_style")), !Blank(Get(options, "header_image")), !Blank(Get(options, "header_background_color")), !Blank(Get(options, "header_border_color")), !Blank(Get(options, "background_color")),
      Leaf(N2LocaleCode, Get(options, "locale")),
      Leaf(N2PageStyle, Get(options, "page_style")),
      Leaf(N2CppImageHeader, Get(options, "header_image")),
      Leaf(N2CppHeaderBackColor, Get(options, "header_background_color")),
      Leaf(N2CppHeaderBorderColor, Get(options, "header_border_color")),
      Leaf(N2CppPayflowColor, Get(options, "background_color")));
  }

  lemma PageHeaderBackColor(options: Options)
    ensures WithTag(PageStyle(options), N2CppHeaderBackColor) == UnlessBlank(N2CppHeaderBackColor, Get(options, "header_background_color"))
  {
    OptPick3(!Blank(Get(options, "locale")), !Blank(Get(options, "page_style")), !Blank(Get(options, "header_image")), !Blank(Get(options, "header_background_color")), !Blank(Get(options, "header_border_color")), !Blank(Get(options, "background_color")),
      Leaf(N2LocaleCode, Get(options, "locale")),
      Leaf(N2PageStyle, Get(options, "page_style")),
      Leaf(N2CppImageHeader, Get(options, "header_image")),
      Leaf(N2CppHeaderBackColor, Get(options, "header_background_color")),
      Leaf(N2CppHeaderBorderColor, Get(options, "header_border_color")),
      Leaf(N2CppPayflowColor, Get(options, "background_color")));
  }

  lemma PageHeaderBorderColor(options: Options)
    ensures WithTag(PageStyle(options), N2CppHeaderBorderColor) == UnlessBlank(N2CppHeaderBorderColor, Get(options, "header_border_color"))
  {
    OptPick4(!Blank(Get(options, "locale")), !Blank(Get(options, "page_style")), !Blank(Get(options, "header_image")), !Blank(Get(options, "header_background_color")), !Blank(Get(options, "header_border_color")), !Blank(Get(options, "background_color")),
      Leaf(N2LocaleCode, Get(options, "locale")),
      Leaf(N2PageStyle, Get(options, "page_style")),
      Leaf(N2CppImageHeader, Get(options, "header_image")),
      Leaf(N2CppHeaderBackColor, Get(options, "header_background_color")),
      Leaf(N2CppHeaderBorderColor, Get(options, "header_border_color")),
      Leaf(N2CppPayflowColor, Get(options, "background_color")));
  }

  lemma PagePayflowColor(options: Options)
    ensures WithTag(PageStyle(options), N2CppPayflowColor) == UnlessBlank(N2CppPayflowColor, Get(options, "background_color"))
  {
    OptPick5(!Blank(Get(options, "locale")), !Blank(Get(options, "page_style")), !Blank(Get(options, "header_image")), !Blank(Get(options, "header_background_color")), !Blank(Get(options, "header_border_color")), !Blank(Get(options, "background_color")),
      Leaf(N2LocaleCode, Get(options, "locale")),
      Leaf(N2PageStyle, Get(options, "page_style")),
      Leaf(N2CppImageHeader, Get(options, "header_image")),
      Leaf(N2CppHeaderBackColor, Get(options, "header_background_color")),
      Leaf(N2CppHeaderBorderColor, Get(options, "header_border_color")),
      Leaf(N2CppPayflowColor, Get(options, "background_color")));
  }

  lemma AddressNoTag(pp: PaypalExpressGateway, options: Options, t: Tag)
    requires t != N2Address
    ensures NoTag(AddressBlock(pp, options), t)
  {
  }

  lemma ChoicesNoTag(action: PaymentKind, t: Tag)
    requires !ChoiceTag(t)
    ensures NoTag(SetupChoices(action), t)
  {
  }

  lemma EmailNoTag(options: Options, t: Tag)
    requires t != N2BuyerEmail
    ensures NoTag(UnlessBlank(N2BuyerEmail, Get(options, "email")), t)
  {
    OptNoTag(!Blank(Get(options, "email")), Leaf(N2BuyerEmail, Get(options, "email")), t);
  }

  lemma PaymentDetailsNoTag(pp: PaypalExpressGateway, money: Value, options: Options, t: Tag)
    requires t != N2PaymentDetails
    ensures NoTag([Node(N2PaymentDetails, [], SetupPaymentKids(pp, money, options))], t)
  {
  }

  // Filtering the setup details for a tag of one of its six parts is
  // filtering that part.
  lemma DetailsHead(pp: PaypalExpressGateway, action: PaymentKind, money: Value, options: Options, t: Tag)
    requires !PageTag(t) && t != N2Address && !ChoiceTag(t) && t != N2BuyerEmail && t != N2PaymentDetails
    ensures WithTag(SetupDetailsKids(pp, action, money, options), t) == WithTag(SetupHead(pp, options), t)
  {
    PageStyleNoTag(options, t);
    AddressNoTag(pp, options, t);
    ChoicesNoTag(action, t);
    EmailNoTag(options, t);
    PaymentDetailsNoTag(pp, money, options, t);
    PickOfSix(SetupHead(pp, options), PageStyle(options), AddressBlock(pp, options),
              SetupChoices(action), UnlessBlank(N2BuyerEmail, Get(options, "email")), [Node(N2PaymentDetails, [], SetupPaymentKids(pp, money, options))], 0, t);
  }

  lemma DetailsPage(pp: PaypalExpressGateway, action: PaymentKind, money: Value, options: Options, t: Tag)
    requires !HeadTag(t) && t != N2Address && !ChoiceTag(t) && t != N2BuyerEmail && t != N2PaymentDetails
    ensures WithTag(SetupDetailsKids(pp, action, money, options), t) == WithTag(PageStyle(options), t)
  {
    HeadNoTag(pp, options, t);
    AddressNoTag(pp, options, t);
    ChoicesNoTag(action, t);
    EmailNoTag(options, t);
    PaymentDetailsNoTag(pp, money, options, t);
    PickOfSix(SetupHead(pp, options), PageStyle(options), AddressBlock(pp, options),
              SetupChoices(action), UnlessBlank(N2BuyerEmail, Get(options, "email")), [Node(N2PaymentDetails, [], SetupPaymentKids(pp, money, options))], 1, t);
  }

  lemma DetailsAddress(pp: PaypalExpressGateway, action: PaymentKind, money: Value, options: Options, t: Tag)
    requires !HeadTag(t) && !PageTag(t) && !ChoiceTag(t) && t != N2BuyerEmail && t != N2PaymentDetails
    ensures WithTag(SetupDetailsKids(pp, action, money, options), t) == WithTag(AddressBlock(pp, options), t)
  {
    HeadNoTag(pp, options, t);
    PageStyleNoTag(options, t);
    ChoicesNoTag(action, t);
    EmailNoTag(options, t);
    PaymentDetailsNoTag(pp, money, options, t);
    PickOfSix(SetupHead(pp, options), PageStyle(options), AddressBlock(pp, options),
              SetupChoices(action), UnlessBlank(N2BuyerEmail, Get(options, "email")), [Node(N2PaymentDetails, [], SetupPaymentKids(pp, money, options))], 2, t);
  }

  lemma DetailsChoice(pp: PaypalExpressGateway, action: PaymentKind, money: Value, options: Options, t: Tag)
    requires !HeadTag(t) && !PageTag(t) && t != N2Address && t != N2BuyerEmail && t != N2PaymentDetails
    ensures WithTag(SetupDetailsKids(pp, action, money, options), t) == WithTag(SetupChoices(action), t)
  {
    HeadNoTag(pp, options, t);
    PageStyleNoTag(options, t);
    AddressNoTag(pp, options, t);
    EmailNoTag(options, t);
    PaymentDetailsNoTag(pp, money, options, t);
    PickOfSix(SetupHead(pp, options), PageStyle(options), AddressBlock(pp, options),
              SetupChoices(action), UnlessBlank(N2BuyerEmail, Get(options, "email")), [Node(N2PaymentDetails, [], SetupPaymentKids(pp, money, options))], 3, t);
  }

  lemma DetailsEmail(pp: PaypalExpressGateway, action: PaymentKind, money: Value, options: Options, t: Tag)
    requires !HeadTag(t) && !PageTag(t) && t != N2Address && !ChoiceTag(t) && t != N2PaymentDetails
    ensures WithTag(SetupDetailsKids(pp, action, money, options), t) == WithTag(UnlessBlank(N2BuyerEmail, Get(options, "email")), t)
  {
    HeadNoTag(pp, options, t);
    PageStyleNoTag(options, t);
    AddressNoTag(pp, options, t);
    ChoicesNoTag(action, t);
    PaymentDetailsNoTag(pp, money, options, t);
    PickOfSix(SetupHead(pp, options), PageStyle(options), AddressBlock(pp, options),
              SetupChoices(action), UnlessBlank(N2BuyerEmail, Get(options, "email")), [Node(N2PaymentDetails, [], SetupPaymentKids(pp, money, options))], 4, t);
  }

  lemma DetailsPayment(pp: PaypalExpressGateway, action: PaymentKind, money: Value, options: Options, t: Tag)
    requires !HeadTag(t) && !PageTag(t) && t != N2Address && !ChoiceTag(t) && t != N2BuyerEmail
    ensures WithTag(SetupDetailsKids(pp, action, money, options), t) == WithTag([Node(N2PaymentDetails, [], SetupPaymentKids(pp, money, options))], t)
  {
    HeadNoTag(pp, options, t);
    PageStyleNoTag(options, t);
    AddressNoTag(pp, options, t);
    ChoicesNoTag(action, t);
    EmailNoTag(options, t);
    PickOfSix(SetupHead(pp, options), PageStyle(options), AddressBlock(pp, options),
              SetupChoices(action), UnlessBlank(N2BuyerEmail, Get(options, "email")), [Node(N2PaymentDetails, [], SetupPaymentKids(pp, money, options))], 5, t);
  }

  lemma HeadMaxAmountOver(u0: Value, u1: Value, max: seq<Element>, v0: Value, v1: Value, v2: Value, v3: Value, v4: Value, v5: Value)
    ensures WithTag([Leaf(N2ReturnURL, u0), Leaf(N2CancelURL, u1)] + max +
                    [Leaf(N2OrderDescription, v0), Leaf(N2InvoiceID, v1), Leaf(N2ReqConfirmShipping, v2),
                     Leaf(N2ReqBillingAddress, v3), Leaf(N2NoShipping, v4), Leaf(N2AddressOverride, v5)], N2MaxAmount) == WithTag(max, N2MaxAmount)
  {
    PickOfThree([Leaf(N2ReturnURL, u0), Leaf(N2CancelURL, u1)], max,
                [Leaf(N2OrderDescription, v0), Leaf(N2InvoiceID, v1), Leaf(N2ReqConfirmShipping, v2),
                     Leaf(N2ReqBillingAddress, v3), Leaf(N2NoShipping, v4), Leaf(N2AddressOverride, v5)], 1, N2MaxAmount);
  }

  lemma HeadMaxAmount(pp: PaypalExpressGateway, options: Options)
    ensures WithTag(SetupHead(pp, options), N2MaxAmount) == MaxAmount(pp, options)
  {
    HeadMaxAmountOver(Get(options, "return_url"), Get(options, "cancel_return_url"), MaxAmount(pp, options),
      Get(options, "description"), Get(options, "order_id"), Num(0), Num(0),
      Flag(Get(options, "no_shipping")), Flag(Get(options, "address_override")));
    OptWithTag(Truthy(Get(options, "max_amount")), MoneyLeaf(N2MaxAmount, pp.fmt.amount(Get(options, "max_amount")), Or(Get(options, "currency"), pp.fmt.currency(Get(options, "max_amount")))));
  }

  lemma TailReqConfirmShipping(v0: Value, v1: Value, v2: Value, v3: Value, v4: Value, v5: Value)
    ensures WithTag([Leaf(N2OrderDescription, v0), Leaf(N2InvoiceID, v1), Leaf(N2ReqConfirmShipping, v2),
                     Leaf(N2ReqBillingAddress, v3), Leaf(N2NoShipping, v4), Leaf(N2AddressOverride, v5)], N2ReqConfirmShipping) == [Leaf(N2ReqConfirmShipping, v2)]
  {
    WithTagUnique([Leaf(N2OrderDescription, v0), Leaf(N2InvoiceID, v1), Leaf(N2ReqConfirmShipping, v2),
                     Leaf(N2ReqBillingAddress, v3), Leaf(N2NoShipping, v4), Leaf(N2AddressOverride, v5)], 2, N2ReqConfirmShipping);
  }

  lemma HeadReqConfirmShippingOver(u0: Value, u1: Value, max: seq<Element>, v0: Value, v1: Value, v2: Value, v3: Value, v4: Value, v5: Value)
    requires NoTag(max, N2ReqConfirmShipping)
    ensures WithTag([Leaf(N2ReturnURL, u0), Leaf(N2CancelURL, u1)] + max +
                    [Leaf(N2OrderDescription, v0), Leaf(N2InvoiceID, v1), Leaf(N2ReqConfirmShipping, v2),
                     Leaf(N2ReqBillingAddress, v3), Leaf(N2NoShipping, v4), Leaf(N2AddressOverride, v5)], N2ReqConfirmShipping) == [Leaf(N2ReqConfirmShipping, v2)]
  {
    PickOfThree([Leaf(N2ReturnURL, u0), Leaf(N2CancelURL, u1)], max,
                [Leaf(N2OrderDescription, v0), Leaf(N2InvoiceID, v1), Leaf(N2ReqConfirmShipping, v2),
                     Leaf(N2ReqBillingAddress, v3), Leaf(N2NoShipping, v4), Leaf(N2AddressOverride, v5)], 2, N2ReqConfirmShipping);
    TailReqConfirmShipping(v0, v1, v2, v3, v4, v5);
  }

  lemma TailReqBillingAddress(v0: Value, v1: Value, v2: Value, v3: Value, v4: Value, v5: Value)
    ensures WithTag([Leaf(N2OrderDescription, v0), Leaf(N2InvoiceID, v1), Leaf(N2ReqConfirmShipping, v2),
                     Leaf(N2ReqBillingAddress, v3), Leaf(N2NoShipping, v4), Leaf(N2AddressOverride, v5)], N2ReqBillingAddress) == [Leaf(N2ReqBillingAddress, v3)]
  {
    WithTagUnique([Leaf(N2OrderDescription, v0), Leaf(N2InvoiceID, v1), Leaf(N2ReqConfirmShipping, v2),
                     Leaf(N2ReqBillingAddress, v3), Leaf(N2NoShipping, v4), Leaf(N2AddressOverride, v5)], 3, N2ReqBillingAddress);
  }

  lemma HeadReqBillingAddressOver(u0: Value, u1: Value, max: seq<Element>, v0: Value, v1: Value, v2: Value, v3: Value, v4: Value, v5: Value)
    requires NoTag(max, N2ReqBillingAddress)
    ensures WithTag([Leaf(N2ReturnURL, u0), Leaf(N2CancelURL, u1)] + max +
                    [Leaf(N2OrderDescription, v0), Leaf(N2InvoiceID, v1), Leaf(N2ReqConfirmShipping, v2),
                     Leaf(N2ReqBillingAddress, v3), Leaf(N2NoShipping, v4), Leaf(N2AddressOverride, v5)], N2ReqBillingAddress) == [Leaf(N2ReqBillingAddress, v3)]
  {
    PickOfThree([Leaf(N2ReturnURL, u0), Leaf(N2CancelURL, u1)], max,
                [Leaf(N2OrderDescription, v0), Leaf(N2InvoiceID, v1), Leaf(N2ReqConfirmShipping, v2),
                     Leaf(N2ReqBillingAddress, v3), Leaf(N2NoShipping, v4), Leaf(N2AddressOverride, v5)], 2, N2ReqBillingAddress);
    TailReqBillingAddress(v0, v1, v2, v3, v4, v5);
  }

  lemma TailNoShipping(v0: Value, v1: Value, v2: Value, v3: Value, v4: Value, v5: Value)
    ensures WithTag([Leaf(N2OrderDescription, v0), Leaf(N2InvoiceID, v1), Leaf(N2ReqConfirmShipping, v2),
                     Leaf(N2ReqBillingAddress, v3), Leaf(N2NoShipping, v4), Leaf(N2AddressOverride, v5)], N2NoShipping) == [Leaf(N2NoShipping, v4)]
  {
    WithTagUnique([Leaf(N2OrderDescription, v0), Leaf(N2InvoiceID, v1), Leaf(N2ReqConfirmShipping, v2),
                     Leaf(N2ReqBillingAddress, v3), Leaf(N2NoShipping, v4), Leaf(N2AddressOverride, v5)], 4, N2NoShipping);
  }

  lemma HeadNoShippingOver(u0: Value, u1: Value, max: seq<Element>, v0: Value, v1: Value, v2: Value, v3: Value, v4: Value, v5: Value)
    requires NoTag(max, N2NoShipping)
    ensures WithTag([Leaf(N2ReturnURL, u0), Leaf(N2CancelURL, u1)] + max +
                    [Leaf(N2OrderDescription, v0), Leaf(N2InvoiceID, v1), Leaf(N2ReqConfirmShipping, v2),
                     Leaf(N2ReqBillingAddress, v3), Leaf(N2NoShipping, v4), Leaf(N2AddressOverride, v5)], N2NoShipping) == [Leaf(N2NoShipping, v4)]
  {
    PickOfThree([Leaf(N2ReturnURL, u0), Leaf(N2CancelURL, u1)], max,
                [Leaf(N2OrderDescription, v0), Leaf(N2InvoiceID, v1), Leaf(N2ReqConfirmShipping, v2),
                     Leaf(N2ReqBillingAddress, v3), Leaf(N2NoShipping, v4), Leaf(N2AddressOverride, v5)], 2, N2NoShipping);
    TailNoShipping(v0, v1, v2, v3, v4, v5);
  }

  lemma TailAddressOverride(v0: Value, v1: Value, v2: Value, v3: Value, v4: Value, v5: Value)
    ensures WithTag([Leaf(N2OrderDescription, v0), Leaf(N2InvoiceID, v1), Leaf(N2ReqConfirmShipping, v2),
                     Leaf(N2ReqBillingAddress, v3), Leaf(N2NoShipping, v4), Leaf(N2AddressOverride, v5)], N2AddressOverride) == [Leaf(N2AddressOverride, v5)]
  {
    WithTagUnique([Leaf(N2OrderDescription, v0), Leaf(N2InvoiceID, v1), Leaf(N2ReqConfirmShipping, v2),
                     Leaf(N2ReqBillingAddress, v3), Leaf(N2NoShipping, v4), Leaf(N2AddressOverride, v5)], 5, N2AddressOverride);
  }

  lemma HeadAddressOverrideOver(u0: Value, u1: Value, max: seq<Element>, v0: Value, v1: Value, v2: Value, v3: Value, v4: Value, v5: Value)
    requires NoTag(max, N2AddressOverride)
    ensures WithTag([Leaf(N2ReturnURL, u0), Leaf(N2CancelURL, u1)] + max +
                    [Leaf(N2OrderDescription, v0), Leaf(N2InvoiceID, v1), Leaf(N2ReqConfirmShipping, v2),
                     Leaf(N2ReqBillingAddress, v3), Leaf(N2NoShipping, v4), Leaf(N2AddressOverride, v5)], N2AddressOverride) == [Leaf(N2AddressOverride, v5)]
  {
    PickOfThree([Leaf(N2ReturnURL, u0), Leaf(N2CancelURL, u1)], max,
                [Leaf(N2OrderDescription, v0), Leaf(N2InvoiceID, v1), Leaf(N2ReqConfirmShipping, v2),
                     Leaf(N2ReqBillingAddress, v3), Leaf(N2NoShipping, v4), Leaf(N2AddressOverride, v5)], 2, N2AddressOverride);
    TailAddressOverride(v0, v1, v2, v3, v4, v5);
  }

  lemma SetupNoShipping(pp: PaypalExpressGateway, action: PaymentKind, money: Value, options: Options)
    ensures WithTag(SetupDetailsKids(pp, action, money, options), N2NoShipping) ==
            [Leaf(N2NoShipping, Str(if Truthy(Get(options, "no_shipping")) then "1" else "0"))]
  {
    DetailsHead(pp, action, money, options, N2NoShipping);
    OptNoTag(Truthy(Get(options, "max_amount")), MoneyLeaf(N2MaxAmount, pp.fmt.amount(Get(options, "max_amount")), Or(Get(options, "currency"), pp.fmt.currency(Get(options, "max_amount")))), N2NoShipping);
    HeadNoShippingOver(Get(options, "return_url"), Get(options, "cancel_return_url"), MaxAmount(pp, options),
      Get(options, "description"), Get(options, "order_id"), Num(0), Num(0),
      Flag(Get(options, "no_shipping")), Flag(Get(options, "address_override")));
  }

  lemma SetupAddressOverride(pp: PaypalExpressGateway, action: PaymentKind, money: Value, options: Options)
    ensures WithTag(SetupDetailsKids(pp, action, money, options), N2AddressOverride) ==
            [Leaf(N2AddressOverride, Str(if Truthy(Get(options, "address_override")) then "1" else "0"))]
  {
    DetailsHead(pp, action, money, options, N2AddressOverride);
    OptNoTag(Truthy(Get(options, "max_amount")), MoneyLeaf(N2MaxAmount, pp.fmt.amount(Get(options, "max_amount")), Or(Get(options, "currency"), pp.fmt.currency(Get(options, "max_amount")))), N2AddressOverride);
    HeadAddressOverrideOver(Get(options, "return_url"), Get(options, "cancel_return_url"), MaxAmount(pp, options),
      Get(options, "description"), Get(options, "order_id"), Num(0), Num(0),
      Flag(Get(options, "no_shipping")), Flag(Get(options, "address_override")));
  }

  lemma SetupReqConfirmShipping(pp: PaypalExpressGateway, action: PaymentKind, money: Value, options: Options)
    ensures WithTag(SetupDetailsKids(pp, action, money, options), N2ReqConfirmShipping) ==
            [Leaf(N2ReqConfirmShipping, Num(0))]
  {
    DetailsHead(pp, action, money, options, N2ReqConfirmShipping);
    OptNoTag(Truthy(Get(options, "max_amount")), MoneyLeaf(N2MaxAmount, pp.fmt.amount(Get(options, "max_amount")), Or(Get(options, "currency"), pp.fmt.currency(Get(options, "max_amount")))), N2ReqConfirmShipping);
    HeadReqConfirmShippingOver(Get(options, "return_url"), Get(options, "cancel_return_url"), MaxAmount(pp, options),
      Get(options, "description"), Get(options, "order_id"), Num(0), Num(0),
      Flag(Get(options, "no_shipping")), Flag(Get(options, "address_override")));
  }

  lemma SetupReqBillingAddress(pp: PaypalExpressGateway, action: PaymentKind, money: Value, options: Options)
    ensures WithTag(SetupDetailsKids(pp, action, money, options), N2ReqBillingAddress) ==
            [Leaf(N2ReqBillingAddress, Num(0))]
  {
    DetailsHead(pp, action, money, options, N2ReqBillingAddress);
    OptNoTag(Truthy(Get(options, "max_amount")), MoneyLeaf(N2MaxAmount, pp.fmt.amount(Get(options, "max_amount")), Or(Get(options, "currency"), pp.fmt.currency(Get(options, "max_amount")))), N2ReqBillingAddress);
    HeadReqBillingAddressOver(Get(options, "return_url"), Get(options, "cancel_return_url"), MaxAmount(pp, options),
      Get(options, "description"), Get(options, "order_id"), Num(0), Num(0),
      Flag(Get(options, "no_shipping")), Flag(Get(options, "address_override")));
  }

  /** `n2:NoShipping` and `n2:AddressOverride` are sent once each, as `'1'`
      when their option is truthy and `'0'` otherwise. */
  lemma SetupFlags(pp: PaypalExpressGateway, action: PaymentKind, money: Value, options: Options)
    ensures var kids := SetupDetailsKids(pp, action, money, options);
      WithTag(kids, N2NoShipping) ==
        [Leaf(N2NoShipping, Str(if Truthy(Get(options, "no_shipping")) then "1" else "0"))] &&
      WithTag(kids, N2AddressOverride) ==
        [Leaf(N2AddressOverride, Str(if Truthy(Get(options, "address_override")) then "1" else "0"))]
  {
    SetupNoShipping(pp, action, money, options);
    SetupAddressOverride(pp, action, money, options);
  }

  /** Neither a shipping-address confirmation nor a billing address is
      asked for: both flags are sent once, as 0. */
  lemma SetupNoConfirmations(pp: PaypalExpressGateway, action: PaymentKind, money: Value, options: Options)
    ensures var kids := SetupDetailsKids(pp, action, money, options);
      WithTag(kids, N2ReqConfirmShipping) == [Leaf(N2ReqConfirmShipping, Num(0))] &&
      WithTag(kids, N2ReqBillingAddress) == [Leaf(N2ReqBillingAddress, Num(0))]
  {
    SetupReqConfirmShipping(pp, action, money, options);
    SetupReqBillingAddress(pp, action, money, options);
  }

  /** `n2:MaxAmount` is sent only when `:max_amount` is given, in the
      currency of the options or else of the maximum itself. */
  lemma SetupMaxAmountOnlyWhenGiven(pp: PaypalExpressGateway, action: PaymentKind, money: Value, options: Options)
    ensures var max := Get(options, "max_amount");
      WithTag(SetupDetailsKids(pp, action, money, options), N2MaxAmount) ==
        if Truthy(max) then [MoneyLeaf(N2MaxAmount, pp.fmt.amount(max), Or(Get(options, "currency"), pp.fmt.currency(max)))]
        else []
  {
    DetailsHead(pp, action, money, options, N2MaxAmount);
    HeadMaxAmount(pp, options);
  }

  lemma SetupLocaleCode(pp: PaypalExpressGateway, action: PaymentKind, money: Value, options: Options)
    ensures WithTag(SetupDetailsKids(pp, action, money, options), N2LocaleCode) ==
            UnlessBlank(N2LocaleCode, Get(options, "locale"))
  {
    DetailsPage(pp, action, money, options, N2LocaleCode);
    PageLocaleCode(options);
  }

  lemma SetupPageStyle(pp: PaypalExpressGateway, action: PaymentKind, money: Value, options: Options)
    ensures WithTag(SetupDetailsKids(pp, action, money, options), N2PageStyle) ==
            UnlessBlank(N2PageStyle, Get(options, "page_style"))
  {
    DetailsPage(pp, action, money, options, N2PageStyle);
    PagePageStyle(options);
  }

  lemma SetupImageHeader(pp: PaypalExpressGateway, action: PaymentKind, money: Value, options: Options)
    ensures WithTag(SetupDetailsKids(pp, action, money, options), N2CppImageHeader) ==
            UnlessBlank(N2CppImageHeader, Get(options, "header_image"))
  {
    DetailsPage(pp, action, money, options, N2CppImageHeader);
    PageImageHeader(options);
  }

  lemma SetupHeaderBackColor(pp: PaypalExpressGateway, action: PaymentKind, money: Value, options: Options)
    ensures WithTag(SetupDetailsKids(pp, action, money, options), N2CppHeaderBackColor) ==
            UnlessBlank(N2CppHeaderBackColor, Get(options, "header_background_color"))
  {
    DetailsPage(pp, action, money, options, N2CppHeaderBackColor);
    PageHeaderBackColor(options);
  }

  lemma SetupHeaderBorderColor(pp: PaypalExpressGateway, action: PaymentKind, money: Value, options: Options)
    ensures WithTag(SetupDetailsKids(pp, action, money, options), N2CppHeaderBorderColor) ==
            UnlessBlank(N2CppHeaderBorderColor, Get(options, "header_border_color"))
  {
    DetailsPage(pp, action, money, options, N2CppHeaderBorderColor);
    PageHeaderBorderColor(options);
  }

  lemma SetupPayflowColor(pp: PaypalExpressGateway, action: PaymentKind, money: Value, options: Options)
    ensures WithTag(SetupDetailsKids(pp, action, money, options), N2CppPayflowColor) ==
            UnlessBlank(N2CppPayflowColor, Get(options, "background_color"))
  {
    DetailsPage(pp, action, money, options, N2CppPayflowColor);
    PagePayflowColor(options);
  }

  /** The locale, the page style and the four `cpp-*` customisations are
      each sent once when their option is not blank, and left out when it
      is. */
  lemma SetupPageStyleUnlessBlank(pp: PaypalExpressGateway, action: PaymentKind, money: Value, options: Options)
    ensures var kids := SetupDetailsKids(pp, action, money, options);
      WithTag(kids, N2LocaleCode) == UnlessBlank(N2LocaleCode, Get(options, "locale")) &&
      WithTag(kids, N2PageStyle) == UnlessBlank(N2PageStyle, Get(options, "page_style")) &&
      WithTag(kids, N2CppImageHeader) == UnlessBlank(N2CppImageHeader, Get(options, "header_image")) &&
      WithTag(kids, N2CppHeaderBackColor) == UnlessBlank(N2CppHeaderBackColor, Get(options, "header_background_color")) &&
      WithTag(kids, N2CppHeaderBorderColor) == UnlessBlank(N2CppHeaderBorderColor, Get(options, "header_border_color")) &&
      WithTag(kids, N2CppPayflowColor) == UnlessBlank(N2CppPayflowColor, Get(options, "background_color"))
  {
    SetupLocaleCode(pp, action, money, options);
    SetupPageStyle(pp, action, money, options);
    SetupImageHeader(pp, action, money, options);
    SetupHeaderBackColor(pp, action, money, options);
    SetupHeaderBorderColor(pp, action, money, options);
    SetupPayflowColor(pp, action, money, options);
  }

  lemma AddressWithTag(pp: PaypalExpressGateway, options: Options)
    ensures var written := pp.addAddress(Or(Get(options, "shipping_address"), Get(options, "address")));
      WithTag(AddressBlock(pp, options), N2Address) == if written.Some? then [Node(N2Address, [], written.value)] else []
  {
    WithTagAll(AddressBlock(pp, options), N2Address);
  }

  /** The address written by `add_address`, if any, is the only
      `n2:Address`. */
  lemma SetupAddress(pp: PaypalExpressGateway, action: PaymentKind, money: Value, options: Options)
    ensures var written := pp.addAddress(Or(Get(options, "shipping_address"), Get(options, "address")));
      WithTag(SetupDetailsKids(pp, action, money, options), N2Address) ==
        if written.Some? then [Node(N2Address, [], written.value)] else []
  {
    DetailsAddress(pp, action, money, options, N2Address);
    AddressWithTag(pp, options);
  }

  lemma ChoiceOf(action: PaymentKind, i: nat, t: Tag)
    requires i < 3 && t == [N2PaymentAction, N2SolutionType, N2LandingPage][i]
    ensures WithTag(SetupChoices(action), t) == [SetupChoices(action)[i]]
  {
    WithTagUnique(SetupChoices(action), i, t);
  }

  lemma SetupPaymentAction(pp: PaypalExpressGateway, action: PaymentKind, money: Value, options: Options)
    ensures WithTag(SetupDetailsKids(pp, action, money, options), N2PaymentAction) ==
            [Leaf(N2PaymentAction, ActionValue(action))]
  {
    DetailsChoice(pp, action, money, options, N2PaymentAction);
    ChoiceOf(action, 0, N2PaymentAction);
  }

  lemma SetupSolutionType(pp: PaypalExpressGateway, action: PaymentKind, money: Value, options: Options)
    ensures WithTag(SetupDetailsKids(pp, action, money, options), N2SolutionType) ==
            [Leaf(N2SolutionType, Str("Sole"))]
  {
    DetailsChoice(pp, action, money, options, N2SolutionType);
    ChoiceOf(action, 1, N2SolutionType);
  }

  lemma SetupLandingPage(pp: PaypalExpressGateway, action: PaymentKind, money: Value, options: Options)
    ensures WithTag(SetupDetailsKids(pp, action, money, options), N2LandingPage) ==
            [Leaf(N2LandingPage, Str("Login"))]
  {
    DetailsChoice(pp, action, money, options, N2LandingPage);
    ChoiceOf(action, 2, N2LandingPage);
  }

  /** The payment action is the one asked for; the checkout is always a
      sole (guest) checkout landing on the login page. */
  lemma SetupFixedChoices(pp: PaypalExpressGateway, action: PaymentKind, money: Value, options: Options)
    ensures var kids := SetupDetailsKids(pp, action, money, options);
      WithTag(kids, N2PaymentAction) == [Leaf(N2PaymentAction, ActionValue(action))] &&
      WithTag(kids, N2SolutionType) == [Leaf(N2SolutionType, Str("Sole"))] &&
      WithTag(kids, N2LandingPage) == [Leaf(N2LandingPage, Str("Login"))]
  {
    SetupPaymentAction(pp, action, money, options);
    SetupSolutionType(pp, action, money, options);
    SetupLandingPage(pp, action, money, options);
  }

  /** `n2:BuyerEmail` is sent once when `:email` is not blank, and left out
      when it is. */
  lemma SetupBuyerEmailUnlessBlank(pp: PaypalExpressGateway, action: PaymentKind, money: Value, options: Options)
    ensures WithTag(SetupDetailsKids(pp, action, money, options), N2BuyerEmail) ==
      if Blank(Get(options, "email")) then [] else [Leaf(N2BuyerEmail, Get(options, "email"))]
  {
    DetailsEmail(pp, action, money, options, N2BuyerEmail);
    OptWithTag(!Blank(Get(options, "email")), Leaf(N2BuyerEmail, Get(options, "email")));
  }

  // ---------------------------------------------------------------------
  // build_setup_request: the desktop n2:PaymentDetails

  /** The five totals of the setup's payment details. */
  function SetupTotals(pp: PaypalExpressGateway, money: Value, code: Value): seq<Element> {
    [MoneyLeaf(N2OrderTotal, pp.fmt.amount(money), code),
     MoneyLeaf(N2ItemTotal, pp.fmt.amount(money), code),
     MoneyLeaf(N2ShippingTotal, Str("0.00"), code),
     MoneyLeaf(N2HandlingTotal, Str("0.00"), code),
     MoneyLeaf(N2TaxTotal, Str("0.00"), code)]
  }

  lemma TotalsOrderTotal(amt: Value, code: Value)
    ensures WithTag([MoneyLeaf(N2OrderTotal, amt, code), MoneyLeaf(N2ItemTotal, amt, code),
                     MoneyLeaf(N2ShippingTotal, Str("0.00"), code), MoneyLeaf(N2HandlingTotal, Str("0.00"), code),
                     MoneyLeaf(N2TaxTotal, Str("0.00"), code)], N2OrderTotal) == [MoneyLeaf(N2OrderTotal, amt, code)]
  {
    WithTagUnique([MoneyLeaf(N2OrderTotal, amt, code), MoneyLeaf(N2ItemTotal, amt, code),
                     MoneyLeaf(N2ShippingTotal, Str("0.00"), code), MoneyLeaf(N2HandlingTotal, Str("0.00"), code),
                     MoneyLeaf(N2TaxTotal, Str("0.00"), code)], 0, N2OrderTotal);
  }

  lemma SetupOrderTotal(pp: PaypalExpressGateway, money: Value, options: Options)
    ensures WithTag(SetupPaymentKids(pp, money, options), N2OrderTotal) ==
            [MoneyLeaf(N2OrderTotal, pp.fmt.amount(money), Or(Get(options, "currency"), pp.fmt.currency(money)))]
  {
    var code := CurrencyCode(pp, money, options);
    ItemsNoTag(pp, PaymentItems(options), code, N2OrderTotal);
    PickOfTwo(SetupTotals(pp, money, code), ItemElements(pp, PaymentItems(options), code), 0, N2OrderTotal);
    TotalsOrderTotal(pp.fmt.amount(money), code);
  }

  lemma TotalsItemTotal(amt: Value, code: Value)
    ensures WithTag([MoneyLeaf(N2OrderTotal, amt, code), MoneyLeaf(N2ItemTotal, amt, code),
                     MoneyLeaf(N2ShippingTotal, Str("0.00"), code), MoneyLeaf(N2HandlingTotal, Str("0.00"), code),
                     MoneyLeaf(N2TaxTotal, Str("0.00"), code)], N2ItemTotal) == [MoneyLeaf(N2ItemTotal, amt, code)]
  {
    WithTagUnique([MoneyLeaf(N2OrderTotal, amt, code), MoneyLeaf(N2ItemTotal, amt, code),
                     MoneyLeaf(N2ShippingTotal, Str("0.00"), code), MoneyLeaf(N2HandlingTotal, Str("0.00"), code),
                     MoneyLeaf(N2TaxTotal, Str("0.00"), code)], 1, N2ItemTotal);
  }

  lemma SetupItemTotal(pp: PaypalExpressGateway, money: Value, options: Options)
    ensures WithTag(SetupPaymentKids(pp, money, options), N2ItemTotal) ==
            [MoneyLeaf(N2ItemTotal, pp.fmt.amount(money), Or(Get(options, "currency"), pp.fmt.currency(money)))]
  {
    var code := CurrencyCode(pp, money, options);
    ItemsNoTag(pp, PaymentItems(options), code, N2ItemTotal);
    PickOfTwo(SetupTotals(pp, money, code), ItemElements(pp, PaymentItems(options), code), 0, N2ItemTotal);
    TotalsItemTotal(pp.fmt.amount(money), code);
  }

  lemma TotalsShippingTotal(amt: Value, code: Value)
    ensures WithTag([MoneyLeaf(N2OrderTotal, amt, code), MoneyLeaf(N2ItemTotal, amt, code),
                     MoneyLeaf(N2ShippingTotal, Str("0.00"), code), MoneyLeaf(N2HandlingTotal, Str("0.00"), code),
                     MoneyLeaf(N2TaxTotal, Str("0.00"), code)], N2ShippingTotal) == [MoneyLeaf(N2ShippingTotal, Str("0.00"), code)]
  {
    WithTagUnique([MoneyLeaf(N2OrderTotal, amt, code), MoneyLeaf(N2ItemTotal, amt, code),
                     MoneyLeaf(N2ShippingTotal, Str("0.00"), code), MoneyLeaf(N2HandlingTotal, Str("0.00"), code),
                     MoneyLeaf(N2TaxTotal, Str("0.00"), code)], 2, N2ShippingTotal);
  }

  lemma SetupShippingTotal(pp: PaypalExpressGateway, money: Value, options: Options)
    ensures WithTag(SetupPaymentKids(pp, money, options), N2ShippingTotal) ==
            [MoneyLeaf(N2ShippingTotal, Str("0.00"), Or(Get(options, "currency"), pp.fmt.currency(money)))]
  {
    var code := CurrencyCode(pp, money, options);
    ItemsNoTag(pp, PaymentItems(options), code, N2ShippingTotal);
    PickOfTwo(SetupTotals(pp, money, code), ItemElements(pp, PaymentItems(options), code), 0, N2ShippingTotal);
    TotalsShippingTotal(pp.fmt.amount(money), code);
  }

  lemma TotalsHandlingTotal(amt: Value, code: Value)
    ensures WithTag([MoneyLeaf(N2OrderTotal, amt, code), MoneyLeaf(N2ItemTotal, amt, code),
                     MoneyLeaf(N2ShippingTotal, Str("0.00"), code), MoneyLeaf(N2HandlingTotal, Str("0.00"), code),
                     MoneyLeaf(N2TaxTotal, Str("0.00"), code)], N2HandlingTotal) == [MoneyLeaf(N2HandlingTotal, Str("0.00"), code)]
  {
    WithTagUnique([MoneyLeaf(N2OrderTotal, amt, code), MoneyLeaf(N2ItemTotal, amt, code),
                     MoneyLeaf(N2ShippingTotal, Str("0.00"), code), MoneyLeaf(N2HandlingTotal, Str("0.00"), code),
                     MoneyLeaf(N2TaxTotal, Str("0.00"), code)], 3, N2HandlingTotal);
  }

  lemma SetupHandlingTotal(pp: PaypalExpressGateway, money: Value, options: Options)
    ensures WithTag(SetupPaymentKids(pp, money, options), N2HandlingTotal) ==
            [MoneyLeaf(N2HandlingTotal, Str("0.00"), Or(Get(options, "currency"), pp.fmt.currency(money)))]
  {
    var code := CurrencyCode(pp, money, options);
    ItemsNoTag(pp, PaymentItems(options), code, N2HandlingTotal);
    PickOfTwo(SetupTotals(pp, money, code), ItemElements(pp, PaymentItems(options), code), 0, N2HandlingTotal);
    TotalsHandlingTotal(pp.fmt.amount(money), code);
  }

  lemma TotalsTaxTotal(amt: Value, code: Value)
    ensures WithTag([MoneyLeaf(N2OrderTotal, amt, code), MoneyLeaf(N2ItemTotal, amt, code),
                     MoneyLeaf(N2ShippingTotal, Str("0.00"), code), MoneyLeaf(N2HandlingTotal, Str("0.00"), code),
                     MoneyLeaf(N2TaxTotal, Str("0.00"), code)], N2TaxTotal) == [MoneyLeaf(N2TaxTotal, Str("0.00"), code)]
  {
    WithTagUnique([MoneyLeaf(N2OrderTotal, amt, code), MoneyLeaf(N2ItemTotal, amt, code),
                     MoneyLeaf(N2ShippingTotal, Str("0.00"), code), MoneyLeaf(N2HandlingTotal, Str("0.00"), code),
                     MoneyLeaf(N2TaxTotal, Str("0.00"), code)], 4, N2TaxTotal);
  }

  lemma SetupTaxTotal(pp: PaypalExpressGateway, money: Value, options: Options)
    ensures WithTag(SetupPaymentKids(pp, money, options), N2TaxTotal) ==
            [MoneyLeaf(N2TaxTotal, Str("0.00"), Or(Get(options, "currency"), pp.fmt.currency(money)))]
  {
    var code := CurrencyCode(pp, money, options);
    ItemsNoTag(pp, PaymentItems(options), code, N2TaxTotal);
    PickOfTwo(SetupTotals(pp, money, code), ItemElements(pp, PaymentItems(options), code), 0, N2TaxTotal);
    TotalsTaxTotal(pp.fmt.amount(money), code);
  }

  /** The setup's payment details hold the order total, an item total equal
      to it, and shipping, handling and tax fixed at 0.00, once each and in
      the same currency. */
  lemma SetupPaymentTotals(pp: PaypalExpressGateway, money: Value, options: Options)
    ensures var code := Or(Get(options, "currency"), pp.fmt.currency(money));
      var kids := SetupPaymentKids(pp, money, options);
      WithTag(kids, N2OrderTotal) == [MoneyLeaf(N2OrderTotal, pp.fmt.amount(money), code)] &&
      WithTag(kids, N2ItemTotal) == [MoneyLeaf(N2ItemTotal, pp.fmt.amount(money), code)] &&
      WithTag(kids, N2ShippingTotal) == [MoneyLeaf(N2ShippingTotal, Str("0.00"), code)] &&
      WithTag(kids, N2HandlingTotal) == [MoneyLeaf(N2HandlingTotal, Str("0.00"), code)] &&
      WithTag(kids, N2TaxTotal) == [MoneyLeaf(N2TaxTotal, Str("0.00"), code)]
  {
    SetupOrderTotal(pp, money, options);
    SetupItemTotal(pp, money, options);
    SetupShippingTotal(pp, money, options);
    SetupHandlingTotal(pp, money, options);
    SetupTaxTotal(pp, money, options);
  }

  /** The setup lists one `n2:PaymentDetailsItem` per line item, in the
      order of `:paymentDetailsItems`, after the totals. */
  lemma SetupItemsInOrder(pp: PaypalExpressGateway, money: Value, options: Options)
    ensures var code := CurrencyCode(pp, money, options);
      var items := WithTag(SetupPaymentKids(pp, money, options), N2PaymentDetailsItem);
      |items| == |PaymentItems(options)| &&
      forall i :: 0 <= i < |items| ==> items[i] == ItemElement(pp, PaymentItems(options)[i], code)
  {
    var code := CurrencyCode(pp, money, options);
    PickOfTwo(SetupTotals(pp, money, code), ItemElements(pp, PaymentItems(options), code), 1, N2PaymentDetailsItem);
    ItemsWithTag(pp, PaymentItems(options), code);
  }

  /** The payment details close the setup details, once. */
  lemma SetupPaymentDetails(pp: PaypalExpressGateway, action: PaymentKind, money: Value, options: Options)
    ensures WithTag(SetupDetailsKids(pp, action, money, options), N2PaymentDetails) ==
            [Node(N2PaymentDetails, [], SetupPaymentKids(pp, money, options))]
    ensures var kids := SetupDetailsKids(pp, action, money, options);
      kids[|kids| - 1] == Node(N2PaymentDetails, [], SetupPaymentKids(pp, money, options))
  {
    DetailsPayment(pp, action, money, options, N2PaymentDetails);
    WithTagOne(Node(N2PaymentDetails, [], SetupPaymentKids(pp, money, options)));
  }

  // ---------------------------------------------------------------------
  // The two shapes of the setup request, and the commands

  /** A truthy `:mobile` gives the mobile setup document (version and
      mobile details); otherwise the desktop one (version and express
      checkout details). */
  lemma SetupRequestShape(pp: PaypalExpressGateway, action: PaymentKind, money: Value, options: Options)
    ensures var doc := SetupRequest(pp, action, money, options);
      var body := RequestBody(doc);
      |doc| == 1 &&
      (Truthy(Get(options, "mobile")) ==>
        doc[0].tag == SetMobileCheckoutReq &&
        Tags(body) == [Version, SetMobileCheckoutRequestDetails] &&
        body[1].attrs == MobileDetailsAttrs &&
        Kids(body[1]) == MobileSetupKids(pp, money, options)) &&
      (!Truthy(Get(options, "mobile")) ==>
        doc[0].tag == SetExpressCheckoutReq &&
        Tags(body) == [N2Version, N2SetExpressCheckoutRequestDetails] &&
        body[0].content == Text(Str(pp.apiVersion)) &&
        Kids(body[1]) == SetupDetailsKids(pp, action, money, options))
  {
    if Truthy(Get(options, "mobile")) {
      TagsOfTwo(MobileVersion(pp), Node(SetMobileCheckoutRequestDetails, MobileDetailsAttrs, MobileSetupKids(pp, money, options)));
    } else {
      TagsOfTwo(Leaf(N2Version, Str(pp.apiVersion)),
                Node(N2SetExpressCheckoutRequestDetails, [], SetupDetailsKids(pp, action, money, options)));
    }
  }

  /** The root element of a document, when it has exactly one. */
  function Root(doc: seq<Element>): Option<Tag> {
    if |doc| == 1 then Some(doc[0].tag) else None
  }

  /** `setup_authorization` always commits `SetExpressCheckout`, but any
      truthy `:mobile` still makes the document the mobile one. */
  lemma SetupAuthorizationCommand(pp: PaypalExpressGateway, money: Value, options: Options)
    ensures var r := SetupAuthorization(pp, money, options);
      r.Commit? ==>
        r.command == "SetExpressCheckout" &&
        (Root(r.request) == Some(SetMobileCheckoutReq) <==> Truthy(Get(options, "mobile")))
  {
    SetupRequestShape(pp, Authorization, money, options);
  }

  /** `setup_purchase` picks the command on `:mobile == true` but the
      document on a truthy `:mobile`: a truthy value other than true sends
      the mobile document under the desktop command. */
  lemma SetupPurchaseCommand(pp: PaypalExpressGateway, money: Value, options: Options)
    ensures var r := SetupPurchase(pp, money, options);
      r.Commit? ==>
        (r.command == "SetMobileCheckout" ==> Root(r.request) == Some(SetMobileCheckoutReq)) &&
        (Truthy(Get(options, "mobile")) && !IsMobile(options) ==>
          r.command == "SetExpressCheckout" && Root(r.request) == Some(SetMobileCheckoutReq)) &&
        (!Truthy(Get(options, "mobile")) ==>
          r.command == "SetExpressCheckout" && Root(r.request) == Some(SetExpressCheckoutReq))
  {
    SetupRequestShape(pp, Sale, money, options);
  }

  /** The capture command and its document always agree: the mobile
      command goes with the mobile document and only with it. */
  lemma CaptureCommandMatchesDocument(pp: PaypalExpressGateway, money: Value, options: Options)
    ensures var r := Authorize(pp, money, options);
      r.Commit? ==> (r.command == "DoMobileCheckoutPayment" <==> Root(r.request) == Some(DoMobileCheckoutPaymentReq))
    ensures var r := Purchase(pp, money, options);
      r.Commit? ==> (r.command == "DoMobileCheckoutPayment" <==> Root(r.request) == Some(DoMobileCheckoutPaymentReq))
  {
  }
}
