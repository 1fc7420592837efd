/** The XML that the PayPal Express adapter writes, as an element tree, and
    the `Builder::XmlMarkup` object it writes it with.  A `tag!` call with a
    text argument makes a leaf; a `tag!` call with a block opens an element,
    the block's calls fill it, and the end of the block closes it.  Text
    rendering, indentation and escaping are not modelled: a leaf keeps the
    Ruby value it was given. */
module Xml {
  import opened RubyValues

  /** The element names the adapter uses.  `N2` stands for the `n2:` prefix
      of the eBay namespace. */
  datatype Tag =
    // GetExpressCheckoutDetails
    | GetExpressCheckoutDetailsReq | GetExpressCheckoutDetailsRequest | Token
    // DoMobileCheckoutPayment
    | DoMobileCheckoutPaymentReq | DoMobileCheckoutPaymentRequest | Version | PaymentAction
    // DoExpressCheckoutPayment
    | DoExpressCheckoutPaymentReq | DoExpressCheckoutPaymentRequest | N2Version
    | N2DoExpressCheckoutPaymentRequestDetails | N2PaymentAction | N2Token | N2PayerID
    | N2PaymentDetails | N2OrderTotal | N2ItemTotal | N2ShippingTotal | N2HandlingTotal | N2TaxTotal
    | N2PaymentDetailsItem | N2Name | N2Number | N2Quantity | N2Amount | N2Tax | N2Description
    | N2NotifyURL | N2ButtonSource
    // SetMobileCheckout
    | SetMobileCheckoutReq | SetMobileCheckoutRequest | SetMobileCheckoutRequestDetails
    | ReturnURL | CancelURL | BuyerPhoneNumber | InvoiceID | ItemAmount | ItemName | ItemNumber | BuyerEmail
    // SetExpressCheckout
    | SetExpressCheckoutReq | SetExpressCheckoutRequest | N2SetExpressCheckoutRequestDetails
    | N2ReturnURL | N2CancelURL | N2MaxAmount | N2OrderDescription | N2InvoiceID
    | N2ReqConfirmShipping | N2ReqBillingAddress | N2NoShipping | N2AddressOverride | N2LocaleCode
    | N2PageStyle | N2CppImageHeader | N2CppHeaderBackColor | N2CppHeaderBorderColor | N2CppPayflowColor
    | N2Address | N2SolutionType | N2LandingPage | N2BuyerEmail
    // any element written by code outside this model (the address block)
    | Other(name: string)

  /** The name written on the wire. */
  function TagName(t: Tag): string {
    match t
    case GetExpressCheckoutDetailsReq => "GetExpressCheckoutDetailsReq"
    case GetExpressCheckoutDetailsRequest => "GetExpressCheckoutDetailsRequest"
    case Token => "Token"
    case DoMobileCheckoutPaymentReq => "DoMobileCheckoutPaymentReq"
    case DoMobileCheckoutPaymentRequest => "DoMobileCheckoutPaymentRequest"
    case Version => "Version"
    case PaymentAction => "PaymentAction"
    case DoExpressCheckoutPaymentReq => "DoExpressCheckoutPaymentReq"
    case DoExpressCheckoutPaymentRequest => "DoExpressCheckoutPaymentRequest"
    case N2Version => "n2:Version"
    case N2DoExpressCheckoutPaymentRequestDetails => "n2:DoExpressCheckoutPaymentRequestDetails"
    case N2PaymentAction => "n2:PaymentAction"
    case N2Token => "n2:Token"
    case N2PayerID => "n2:PayerID"
    case N2PaymentDetails => "n2:PaymentDetails"
    case N2OrderTotal => "n2:OrderTotal"
    case N2ItemTotal => "n2:ItemTotal"
    case N2ShippingTotal => "n2:ShippingTotal"
    case N2HandlingTotal => "n2:HandlingTotal"
    case N2TaxTotal => "n2:TaxTotal"
    case N2PaymentDetailsItem => "n2:PaymentDetailsItem"
    case N2Name => "n2:Name"
    case N2Number => "n2:Number"
    case N2Quantity => "n2:Quantity"
    case N2Amount => "n2:Amount"
    case N2Tax => "n2:Tax"
    case N2Description => "n2:Description"
    case N2NotifyURL => "n2:NotifyURL"
    case N2ButtonSource => "n2:ButtonSource"
    case SetMobileCheckoutReq => "SetMobileCheckoutReq"
    case SetMobileCheckoutRequest => "SetMobileCheckoutRequest"
    case SetMobileCheckoutRequestDetails => "SetMobileCheckoutRequestDetails"
    case ReturnURL => "ReturnURL"
    case CancelURL => "CancelURL"
    case BuyerPhoneNumber => "BuyerPhone.PhoneNumber"
    case InvoiceID => "InvoiceID"
    case ItemAmount => "ItemAmount"
    case ItemName => "ItemName"
    case ItemNumber => "ItemNumber"
    case BuyerEmail => "BuyerEmail"
    case SetExpressCheckoutReq => "SetExpressCheckoutReq"
    case SetExpressCheckoutRequest => "SetExpressCheckoutRequest"
    case N2SetExpressCheckoutRequestDetails => "n2:SetExpressCheckoutRequestDetails"
    case N2ReturnURL => "n2:ReturnURL"
    case N2CancelURL => "n2:CancelURL"
    case N2MaxAmount => "n2:MaxAmount"
    case N2OrderDescription => "n2:OrderDescription"
    case N2InvoiceID => "n2:InvoiceID"
    case N2ReqConfirmShipping => "n2:ReqConfirmShipping"
    case N2ReqBillingAddress => "n2:ReqBillingAddress"
    case N2NoShipping => "n2:NoShipping"
    case N2AddressOverride => "n2:AddressOverride"
    case N2LocaleCode => "n2:LocaleCode"
    case N2PageStyle => "n2:PageStyle"
    case N2CppImageHeader => "n2:cpp-image-header"
    case N2CppHeaderBackColor => "n2:cpp-header-back-color"
    case N2CppHeaderBorderColor => "n2:cpp-header-border-color"
    case N2CppPayflowColor => "n2:cpp-payflow-color"
    case N2Address => "n2:Address"
    case N2SolutionType => "n2:SolutionType"
    case N2LandingPage => "n2:LandingPage"
    case N2BuyerEmail => "n2:BuyerEmail"
    case Other(name) => name
  }

  /** An attribute, `name => value`, in the order the call lists them. */
  datatype Attr = Attr(name: string, value: Value)

  /** What an element holds: the text argument of `tag!` (nil for an empty
      element) or the elements its block wrote, in order. */
  datatype Content = Text(value: Value) | Children(kids: seq<Element>)

  datatype Element = Element(tag: Tag, attrs: seq<Attr>, content: Content)

  /** `xml.tag! t, v`: a leaf without attributes. */
  function Leaf(t: Tag, v: Value): Element {
    Element(t, [], Text(v))
  }

  /** `xml.tag! t, v, 'currencyID' => code`: an amount. */
  function MoneyLeaf(t: Tag, v: Value, code: Value): Element {
    Element(t, [Attr("currencyID", code)], Text(v))
  }

  /** `xml.tag! t, attrs do ... end`. */
  function Node(t: Tag, attrs: seq<Attr>, kids: seq<Element>): Element {
    Element(t, attrs, Children(kids))
  }

  /** An element's children; a leaf has none. */
  function Kids(e: Element): seq<Element> {
    if e.content.Children? then e.content.kids else []
  }

  /** The tags of a sequence of elements, in order. */
  function Tags(es: seq<Element>): (r: seq<Tag>)
    ensures |r| == |es| && forall i :: 0 <= i < |es| ==> r[i] == es[i].tag
  {
    seq(|es|, i requires 0 <= i < |es| => es[i].tag)
  }

  lemma TagsOfTwo(a: Element, b: Element)
    ensures Tags([a, b]) == [a.tag, b.tag]
  {
  }

  lemma TagsOfThree(a: Element, b: Element, c: Element)
    ensures Tags([a, b, c]) == [a.tag, b.tag, c.tag]
  {
  }

  lemma TagsOfFour(a: Element, b: Element, c: Element, d: Element)
    ensures Tags([a, b, c, d]) == [a.tag, b.tag, c.tag, d.tag]
  {
  }

  /** The elements of `es` that carry tag t, in order. */
  function WithTag(es: seq<Element>, t: Tag): (r: seq<Element>)
    ensures |r| <= |es|
    decreases |es|
  {
    if |es| == 0 then []
    else (if es[0].tag == t then [es[0]] else []) + WithTag(es[1..], t)
  }

  /** Filtering by tag distributes over concatenation. */
  lemma {:induction false} WithTagAppend(a: seq<Element>, b: seq<Element>, t: Tag)
    ensures WithTag(a + b, t) == WithTag(a, t) + WithTag(b, t)
    decreases |a|
  {
    if a != [] {
      assert (a + b)[1..] == a[1..] + b;
      WithTagAppend(a[1..], b, t);
    } else {
      assert a + b == b;
    }
  }

  /** A sequence with no element of tag t has nothing to keep. */
  lemma {:induction false} WithTagNone(es: seq<Element>, t: Tag)
    requires NoTag(es, t)
    ensures WithTag(es, t) == []
    decreases |es|
  {
    if es != [] {
      WithTagNone(es[1..], t);
    }
  }

  /** A sequence with exactly one element of tag t keeps that one. */
  lemma WithTagUnique(es: seq<Element>, i: nat, t: Tag)
    requires i < |es| && es[i].tag == t
    requires forall j :: 0 <= j < |es| && j != i ==> es[j].tag != t
    ensures WithTag(es, t) == [es[i]]
  {
    assert es == es[..i] + ([es[i]] + es[i + 1..]);
    WithTagAppend(es[..i], [es[i]] + es[i + 1..], t);
    WithTagAppend([es[i]], es[i + 1..], t);
    WithTagNone(es[..i], t);
    WithTagNone(es[i + 1..], t);
    assert [es[i]][1..] == [];
  }

  /** A sequence whose every element carries tag t is kept whole. */
  lemma {:induction false} WithTagAll(es: seq<Element>, t: Tag)
    requires forall i :: 0 <= i < |es| ==> es[i].tag == t
    ensures WithTag(es, t) == es
    decreases |es|
  {
    if es != [] {
      WithTagAll(es[1..], t);
      assert [es[0]] + es[1..] == es;
    }
  }

  /** No element of `es` carries tag t. */
  predicate NoTag(es: seq<Element>, t: Tag) {
    forall i :: 0 <= i < |es| ==> es[i].tag != t
  }

  lemma NoTagAppend(a: seq<Element>, b: seq<Element>, t: Tag)
    requires NoTag(a, t) && NoTag(b, t)
    ensures NoTag(a + b, t)
  {
  }

  // A document's children are usually written as a concatenation of parts
  // (a fixed element, an optional one, a loop's output).  To filter such a
  // concatenation for a tag that occurs in one part only, the lemmas below
  // work on the parts as a list, `Concat(ps)`, and pick part k.

  /** The concatenation of the parts, left to right. */
  function Concat(ps: seq<seq<Element>>): (r: seq<Element>)
    decreases |ps|
  {
    if |ps| == 0 then [] else Concat(ps[..|ps| - 1]) + ps[|ps| - 1]
  }

  lemma ConcatTwo(a: seq<Element>, b: seq<Element>)
    ensures Concat([a, b]) == a + b
  {
    assert [a, b][..1] == [a];
    assert [a][..0] == [];
    assert Concat([a]) == a by {
      assert [] + a == a;
    }
  }

  lemma ConcatThree(a: seq<Element>, b: seq<Element>, c: seq<Element>)
    ensures Concat([a, b, c]) == a + b + c
  {
    assert [a, b, c][..2] == [a, b];
    ConcatTwo(a, b);
  }

  lemma ConcatFive(a: seq<Element>, b: seq<Element>, c: seq<Element>, d: seq<Element>, e: seq<Element>)
    ensures Concat([a, b, c, d, e]) == a + b + c + d + e
  {
    assert [a, b, c, d, e][..4] == [a, b, c, d];
    assert [a, b, c, d][..3] == [a, b, c];
    ConcatThree(a, b, c);
  }

  lemma ConcatSix(a: seq<Element>, b: seq<Element>, c: seq<Element>, d: seq<Element>, e: seq<Element>, f: seq<Element>)
    ensures Concat([a, b, c, d, e, f]) == a + b + c + d + e + f
  {
    assert [a, b, c, d, e, f][..5] == [a, b, c, d, e];
    ConcatFive(a, b, c, d, e);
  }

  /** Parts without tag t contribute nothing to the filter. */
  lemma {:induction false} WithTagConcatNone(ps: seq<seq<Element>>, t: Tag)
    requires forall j :: 0 <= j < |ps| ==> NoTag(ps[j], t)
    ensures WithTag(Concat(ps), t) == []
    decreases |ps|
  {
    if |ps| > 0 {
      var init, last := ps[..|ps| - 1], ps[|ps| - 1];
      WithTagConcatNone(init, t);
      WithTagAppend(Concat(init), last, t);
      WithTagNone(last, t);
    }
  }

  /** When only part k may carry tag t, filtering the whole is filtering
      part k. */
  lemma {:induction false} WithTagConcat(ps: seq<seq<Element>>, k: nat, t: Tag)
    requires k < |ps|
    requires forall j :: 0 <= j < |ps| && j != k ==> NoTag(ps[j], t)
    ensures WithTag(Concat(ps), t) == WithTag(ps[k], t)
    decreases |ps|
  {
    var init, last := ps[..|ps| - 1], ps[|ps| - 1];
    WithTagAppend(Concat(init), last, t);
    if k == |ps| - 1 {
      WithTagConcatNone(init, t);
      assert [] + WithTag(last, t) == WithTag(last, t);
    } else {
      WithTagConcat(init, k, t);
      WithTagNone(last, t);
      assert WithTag(init[k], t) + [] == WithTag(init[k], t);
    }
  }

  lemma PickOfTwo(a: seq<Element>, b: seq<Element>, k: nat, t: Tag)
    requires k < 2
    requires k != 0 ==> NoTag(a, t)
    requires k != 1 ==> NoTag(b, t)
    ensures k == 0 ==> WithTag(a + b, t) == WithTag(a, t)
    ensures k == 1 ==> WithTag(a + b, t) == WithTag(b, t)
  {
    ConcatTwo(a, b);
    WithTagConcat([a, b], k, t);
  }

  lemma PickOfThree(a: seq<Element>, b: seq<Element>, c: seq<Element>, k: nat, t: Tag)
    requires k < 3
    requires k != 0 ==> NoTag(a, t)
    requires k != 1 ==> NoTag(b, t)
    requires k != 2 ==> NoTag(c, t)
    ensures k == 0 ==> WithTag(a + b + c, t) == WithTag(a, t)
    ensures k == 1 ==> WithTag(a + b + c, t) == WithTag(b, t)
    ensures k == 2 ==> WithTag(a + b + c, t) == WithTag(c, t)
  {
    ConcatThree(a, b, c);
    WithTagConcat([a, b, c], k, t);
  }

  lemma PickOfFive(a: seq<Element>, b: seq<Element>, c: seq<Element>, d: seq<Element>, e: seq<Element>, k: nat, t: Tag)
    requires k < 5
    requires k != 0 ==> NoTag(a, t)
    requires k != 1 ==> NoTag(b, t)
    requires k != 2 ==> NoTag(c, t)
    requires k != 3 ==> NoTag(d, t)
    requires k != 4 ==> NoTag(e, t)
    ensures k == 0 ==> WithTag(a + b + c + d + e, t) == WithTag(a, t)
    ensures k == 1 ==> WithTag(a + b + c + d + e, t) == WithTag(b, t)
    ensures k == 2 ==> WithTag(a + b + c + d + e, t) == WithTag(c, t)
    ensures k == 3 ==> WithTag(a + b + c + d + e, t) == WithTag(d, t)
    ensures k == 4 ==> WithTag(a + b + c + d + e, t) == WithTag(e, t)
  {
    ConcatFive(a, b, c, d, e);
    WithTagConcat([a, b, c, d, e], k, t);
  }

  lemma PickOfSix(a: seq<Element>, b: seq<Element>, c: seq<Element>, d: seq<Element>, e: seq<Element>, f: seq<Element>,
                  k: nat, t: Tag)
    requires k < 6
    requires k != 0 ==> NoTag(a, t)
    requires k != 1 ==> NoTag(b, t)
    requires k != 2 ==> NoTag(c, t)
    requires k != 3 ==> NoTag(d, t)
    requires k != 4 ==> NoTag(e, t)
    requires k != 5 ==> NoTag(f, t)
    ensures k == 0 ==> WithTag(a + b + c + d + e + f, t) == WithTag(a, t)
    ensures k == 1 ==> WithTag(a + b + c + d + e + f, t) == WithTag(b, t)
    ensures k == 2 ==> WithTag(a + b + c + d + e + f, t) == WithTag(c, t)
    ensures k == 3 ==> WithTag(a + b + c + d + e + f, t) == WithTag(d, t)
    ensures k == 4 ==> WithTag(a + b + c + d + e + f, t) == WithTag(e, t)
    ensures k == 5 ==> WithTag(a + b + c + d + e + f, t) == WithTag(f, t)
  {
    ConcatSix(a, b, c, d, e, f);
    WithTagConcat([a, b, c, d, e, f], k, t);
  }

  /** The blocks still being written, innermost first: each with its tag,
      its attributes and the children written so far. */
  datatype Blocks = NoBlock | Block(tag: Tag, attrs: seq<Attr>, kids: seq<Element>, outer: Blocks)

  /** The state of a markup buffer: the finished top-level elements and the
      open blocks. */
  datatype Markup = Markup(done: seq<Element>, open: Blocks)

  /** Writing a finished element: it becomes the last child of the innermost
      open block, or a new top-level element when no block is open. */
  function Put(m: Markup, e: Element): (r: Markup)
    ensures r.open.NoBlock? <==> m.open.NoBlock?
  {
    match m.open
    case NoBlock => Markup(m.done + [e], NoBlock)
    case Block(t, attrs, kids, outer) => Markup(m.done, Block(t, attrs, kids + [e], outer))
  }

  /** Writing several finished elements, one after another. */
  function PutAll(m: Markup, es: seq<Element>): Markup
    decreases |es|
  {
    if es == [] then m else PutAll(Put(m, es[0]), es[1..])
  }

  /** Writing elements one after another into the innermost open block (or at
      top level) appends them all, in order, there. */
  lemma {:induction false} PutAllAppends(m: Markup, es: seq<Element>)
    ensures m.open.NoBlock? ==> PutAll(m, es) == Markup(m.done + es, NoBlock)
    ensures m.open.Block? ==>
      PutAll(m, es) == Markup(m.done, Block(m.open.tag, m.open.attrs, m.open.kids + es, m.open.outer))
    decreases |es|
  {
    if es == [] {
      assert m.done + es == m.done;
      assert m.open.Block? ==> m.open.kids + es == m.open.kids;
    } else {
      PutAllAppends(Put(m, es[0]), es[1..]);
      assert m.done + [es[0]] + es[1..] == m.done + es;
      assert m.open.Block? ==> m.open.kids + [es[0]] + es[1..] == m.open.kids + es;
    }
  }

  /** Writing elements into a block just opened makes them its children. */
  lemma PutAllInto(done: seq<Element>, outer: Blocks, t: Tag, attrs: seq<Attr>, es: seq<Element>)
    ensures PutAll(Markup(done, Block(t, attrs, [], outer)), es) == Markup(done, Block(t, attrs, es, outer))
  {
    PutAllAppends(Markup(done, Block(t, attrs, [], outer)), es);
    assert [] + es == es;
  }

  /** Writing a concatenation is writing its parts one after another. */
  lemma {:induction false} PutAllConcat(m: Markup, a: seq<Element>, b: seq<Element>)
    ensures PutAll(m, a + b) == PutAll(PutAll(m, a), b)
    decreases |a|
  {
    if a == [] {
      assert a + b == b;
    } else {
      assert (a + b)[0] == a[0] && (a + b)[1..] == a[1..] + b;
      PutAllConcat(Put(m, a[0]), a[1..], b);
    }
  }

  /** Two writes in a row are one write of the pair. */
  lemma PutTwo(m: Markup, a: Element, b: Element) returns (es: seq<Element>)
    ensures es == [a, b]
    ensures PutAll(m, es) == Put(Put(m, a), b)
  {
    es := [a, b];
    assert es[1..] == [b];
    PutAllOne(Put(m, a), b);
  }

  /** Writing one element. */
  lemma PutAllOne(m: Markup, e: Element)
    ensures PutAll(m, [e]) == Put(m, e)
  {
    assert [e][1..] == [];
  }

  /** Writing one more element after a sequence of them. */
  lemma PutAllSnoc(m: Markup, es: seq<Element>, e: Element)
    ensures PutAll(m, es + [e]) == Put(PutAll(m, es), e)
  {
    PutAllConcat(m, es, [e]);
    assert [e][1..] == [];
  }

  /** Six writes in a row are one write of their concatenation. */
  lemma PutAllSplit6(m: Markup, a: seq<Element>, b: seq<Element>, c: seq<Element>,
                     d: seq<Element>, e: seq<Element>, f: seq<Element>)
    ensures PutAll(m, a + b + c + d + e + f) ==
      PutAll(PutAll(PutAll(PutAll(PutAll(PutAll(m, a), b), c), d), e), f)
  {
    PutAllConcat(m, a + b + c + d + e, f);
    PutAllConcat(m, a + b + c + d, e);
    PutAllConcat(m, a + b + c, d);
    PutAllConcat(m, a + b, c);
    PutAllConcat(m, a, b);
  }

  /** `Builder::XmlMarkup.new`: a buffer that elements are written into as
      the calls happen. */
  class XmlMarkup {
    var done: seq<Element>
    var open: Blocks

    function State(): Markup
      reads this
    {
      Markup(done, open)
    }

    constructor ()
      ensures State() == Markup([], NoBlock)
    {
      done := [];
      open := NoBlock;
    }

    /** `tag!(t, text, attrs)` without a block: a leaf. */
    method TagText(t: Tag, text: Value, attrs: seq<Attr>)
      modifies this
      ensures State() == Put(old(State()), Element(t, attrs, Text(text)))
    {
      var m := Put(Markup(done, open), Element(t, attrs, Text(text)));
      done, open := m.done, m.open;
    }

    /** The start of `tag!(t, attrs) do ... end`. */
    method Open(t: Tag, attrs: seq<Attr>)
      modifies this
      ensures State() == Markup(old(done), Block(t, attrs, [], old(open)))
    {
      open := Block(t, attrs, [], open);
    }

    /** The end of the block: the innermost open element is finished and
        written where it stands. */
    method Close()
      requires open.Block?
      modifies this
      ensures State() == Put(Markup(old(done), old(open).outer), Node(old(open).tag, old(open).attrs, old(open).kids))
    {
      var m := Put(Markup(done, open.outer), Node(open.tag, open.attrs, open.kids));
      done, open := m.done, m.open;
    }

    /** Writes finished elements one after another, as code outside the
        adapter (the address block) does with the same buffer. */
    method PutEach(es: seq<Element>)
      modifies this
      ensures State() == PutAll(old(State()), es)
    {
      var i := 0;
      while i < |es|
        invariant 0 <= i <= |es|
        invariant PutAll(State(), es[i..]) == PutAll(old(State()), es)
      {
        assert es[i..][1..] == es[i + 1..];
        TagOf(es[i]);
        i := i + 1;
      }
      assert es[i..] == [];
    }

    /** Writes one finished element. */
    method TagOf(e: Element)
      modifies this
      ensures State() == Put(old(State()), e)
    {
      var m := Put(Markup(done, open), e);
      done, open := m.done, m.open;
    }

    /** `xml.target!`: the document written so far. */
    method Target() returns (r: seq<Element>)
      requires open == NoBlock
      ensures r == done
    {
      r := done;
    }
  }
}
