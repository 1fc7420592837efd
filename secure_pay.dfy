/** The SecurePay form adapter.  A purchase fills a flat, ordered `post` hash
    from the card and the options, posts it as `key=value&...` and reads a
    comma-separated reply; when the sale is approved but the address check
    fails, the sale is voided with a second post that reuses the same hash. */
module SecurePay {
  import opened RubyValues
  import opened RubyStrings
  import opened OrderedHash
  import opened Gateway

  // Response codes.
  const Approved := 1
  const Declined := 2
  const ErrorCode := 3
  const FraudReviewCode := 4

  /** CVV and AVS result codes that explain a decline. */
  const CardCodeErrors: set<string> := {"N", "S"}
  const AvsErrors: set<string> := {"A", "E", "N", "R", "W", "Z"}

  /** The transaction types `commit` is called with. */
  datatype Action = SALE | VOID | CREDIT

  function ActionName(a: Action): string {
    match a
    case SALE => "SALE"
    case VOID => "VOID"
    case CREDIT => "CREDIT"
  }

  /** The symbols the adapter uses as keys of its `post` hash. */
  datatype Key =
    | TrType | MerchId | TransKey | CcMethod | AvsReq
    | Comment1 | Comment2
    | CcNumber | Cvv2 | Year | Month | Name
    | Street | Zip | City | State
    | Email
    | Recurring | RecAmount | Timeframe
    | Amount | TestRequest
    | VoidRecNum | TransId | CardNum

  /** `key.to_s` for a field symbol. */
  function KeyName(k: Key): string {
    match k
    case TrType => "tr_type"
    case MerchId => "merch_id"
    case TransKey => "transkey"
    case CcMethod => "cc_method"
    case AvsReq => "avsreq"
    case Comment1 => "comment1"
    case Comment2 => "comment2"
    case CcNumber => "cc_number"
    case Cvv2 => "cvv2"
    case Year => "year"
    case Month => "month"
    case Name => "name"
    case Street => "street"
    case Zip => "zip"
    case City => "city"
    case State => "state"
    case Email => "email"
    case Recurring => "recurring"
    case RecAmount => "rec_amount"
    case Timeframe => "timeframe"
    case Amount => "amount"
    case TestRequest => "test_request"
    case VoidRecNum => "voidrecnum"
    case TransId => "trans_id"
    case CardNum => "card_num"
  }

  /** No field name holds `&` or `=`, so a body splits back into its pairs. */
  lemma KeyNamesPlain(k: Key)
    ensures '&' !in KeyName(k) && '=' !in KeyName(k)
  {
    if Stage(k) <= 1 {
      EarlyKeyNamesPlain(k);
    } else if Stage(k) <= 3 {
      CardKeyNamesPlain(k);
    } else {
      LateKeyNamesPlain(k);
    }
  }

  lemma EarlyKeyNamesPlain(k: Key)
    requires Stage(k) <= 1
    ensures '&' !in KeyName(k) && '=' !in KeyName(k)
  {
  }

  lemma CardKeyNamesPlain(k: Key)
    requires 2 <= Stage(k) <= 3
    ensures '&' !in KeyName(k) && '=' !in KeyName(k)
  {
  }

  lemma LateKeyNamesPlain(k: Key)
    requires 4 <= Stage(k)
    ensures '&' !in KeyName(k) && '=' !in KeyName(k)
  {
  }

  /** A `post` hash: symbol keys in insertion order. */
  type Post = Hash<Key>

  const EmptyPost: Post := Hash([], map[])

  const TestUrl: string := "https://www.securepay.com/secure1/index.asp"
  const LiveUrl: string := "https://www.securepay.com/secure1/index.asp"

  /** A configured gateway.  `options` is `@options` (`:login`, `:password`,
      `:test`); `testMode` is the base class's `test?`; `escape` is
      `CGI.escape`; `cvvMessage` and `avsMessage` are the message tables of
      the CVV and AVS results (their entries as strings), keyed by the AVS
      result's code; `validAvsCodes` is the `VALID_AVS_CODES` list, compared
      with the AVS result's code (see `AvsResultCode`), where None stands
      for a nil code. */
  datatype SecurePayGateway = SecurePayGateway(
    options: Options,
    testMode: bool,
    fmt: Formatter,
    escape: string -> string,
    cvvMessage: string -> string,
    avsMessage: string -> string,
    validAvsCodes: set<Option<string>>)

  /** The card fields the adapter reads. */
  datatype CreditCard = CreditCard(
    number: Value,
    verificationValue: Value,
    year: Value,
    month: int,
    firstName: Value,
    lastName: Value)

  /** The hash `parse` builds; nil fields are None.  `parse` never writes
      `:card_code`, which `message_from` consults. */
  datatype Parsed = Parsed(
    responseCode: int,
    transactionId: Option<string>,
    reasonText: Option<string>,
    avsCode: Option<string>,
    voidrecnum: Option<string>,
    cardCode: Option<string>)

  /** A gateway `Response`: success, message, params (None for `{}`) and the
      options it was built with; `avsCode` is the code of its `AVSResult`. */
  datatype Response = Response(
    success: bool,
    message: string,
    params: Option<Parsed>,
    test: bool,
    authorization: Option<string>,
    fraudReview: bool,
    avsCode: Option<string>,
    voidrecnum: Option<string>)

  /** What an operation comes to: a response, an exception out of `ssl_post`,
      or an exception out of `requires!`. */
  datatype Outcome = Completed(response: Response) | TransportFailure | MissingParameter(key: string)

  // ---------------------------------------------------------------------
  // The reply

  function FieldAt(fields: seq<string>, i: nat): Option<string> {
    if i < |fields| then Some(fields[i]) else None
  }

  /** A reply opens with the field "N" exactly when it is "N" or starts "N,". */
  predicate DeclinedReply(data: string) {
    data == "N" || (|data| >= 2 && data[..2] == "N,")
  }

  lemma {:induction false} FirstFieldIsN(s: string)
    ensures SplitAll(s, ',')[0] == "N" <==> DeclinedReply(s)
  {
    if s != [] && s[0] != ',' {
      var rest := SplitAll(s[1..], ',');
      assert SplitAll(s, ',')[0] == [s[0]] + rest[0];
      FirstFieldEmpty(s[1..], ',');
      var f := [s[0]] + rest[0];
      if f == "N" {
        assert |rest[0]| == 0 && f[0] == s[0];
      }
      if s[0] == 'N' && |s| >= 2 {
        assert s[..2] == [s[0], s[1]];
      }
    }
  }

  /** Dropping trailing empty fields never removes a non-empty first field. */
  lemma SplitFirstField(s: string)
    ensures (|Split(s, ',')| > 0 && Split(s, ',')[0] == "N") <==> SplitAll(s, ',')[0] == "N"
  {
    var xs := SplitAll(s, ',');
    var r := Split(s, ',');
    if |r| > 0 {
      assert r[0] == xs[0];
    } else {
      assert xs[0] == "";
    }
  }

  /** `parse(data)`: the reply split on `,`; field 0 gives the response code
      (0 when it is "N", 1 otherwise, a missing field included), fields 1 to 4
      the transaction id, reason text, AVS code and void record number. */
  function Parse(data: string): (r: Parsed)
    ensures r.responseCode == 0 || r.responseCode == 1
    ensures r.responseCode == 0 <==> DeclinedReply(data)
    ensures r.cardCode == None
  {
    var fields := Split(data, ',');
    FirstFieldIsN(data);
    SplitFirstField(data);
    Parsed(
      if FieldAt(fields, 0) == Some("N") then 0 else 1,
      FieldAt(fields, 1),
      FieldAt(fields, 2),
      FieldAt(fields, 3),
      FieldAt(fields, 4),
      None)
  }

  /** A reply of comma-free fields is read back position by position: field
      0 decides the code, and fields 1 to 4 are the transaction id, reason
      text, AVS code and void record number when that position survives
      Ruby's dropping of trailing empty fields, and nil otherwise.  An empty
      field before a non-empty one is kept as "". */
  lemma ParseFields(xs: seq<string>)
    requires |xs| >= 1
    requires forall i :: 0 <= i < |xs| ==> ',' !in xs[i]
    ensures var r := Parse(Join(xs, ','));
      var kept := |DropTrailingEmpty(xs)|;
      (r.responseCode == 0 <==> xs[0] == "N") &&
      r.transactionId == (if 1 < kept then Some(xs[1]) else None) &&
      r.reasonText == (if 2 < kept then Some(xs[2]) else None) &&
      r.avsCode == (if 3 < kept then Some(xs[3]) else None) &&
      r.voidrecnum == (if 4 < kept then Some(xs[4]) else None)
  {
    var data := Join(xs, ',');
    SplitAllJoin(xs, ',');
    FirstFieldIsN(data);
    SplitFirstField(data);
  }

  /** A reply of five or more fields, the last one non-empty, fills every
      position. */
  lemma ParseFullReply(xs: seq<string>)
    requires |xs| >= 5 && xs[|xs| - 1] != ""
    requires forall i :: 0 <= i < |xs| ==> ',' !in xs[i]
    ensures Parse(Join(xs, ',')) ==
      Parsed(if xs[0] == "N" then 0 else 1, Some(xs[1]), Some(xs[2]), Some(xs[3]), Some(xs[4]), None)
  {
    ParseFields(xs);
  }

  /** The reply "Y,1,OK,X," loses its empty last field, so its void record
      number is nil. */
  lemma ParseTrailingEmpty()
    ensures var r := Parse(Join(["Y", "1", "OK", "X", ""], ','));
      r.avsCode == Some("X") && r.voidrecnum == None
  {
    var xs := ["Y", "1", "OK", "X", ""];
    ParseFields(xs);
    assert DropTrailingEmpty(xs) == xs[..4];
  }

  /** The reply "Y,1,,X,5" keeps its empty reason text as "". */
  lemma ParseInnerEmpty()
    ensures var r := Parse(Join(["Y", "1", "", "X", "5"], ','));
      r.reasonText == Some("") && r.voidrecnum == Some("5")
  {
    ParseFields(["Y", "1", "", "X", "5"]);
  }

  /** A reply without a comma carries no transaction id, reason, AVS code or
      void record number: the missing positions are nil, not an error. */
  lemma ParseSingleField(data: string)
    requires ',' !in data
    ensures var r := Parse(data);
      r.transactionId == None && r.reasonText == None && r.avsCode == None && r.voidrecnum == None
    ensures Parse(data).responseCode == 0 <==> data == "N"
  {
    SplitAllNoSep(data, ',');
    assert |Split(data, ',')| <= 1;
  }

  /** `success?`. */
  predicate Success(p: Parsed) {
    p.responseCode == Approved
  }

  /** `fraud_review?`. */
  predicate FraudReview(p: Parsed) {
    p.responseCode == FraudReviewCode
  }

  /** `message_from(results)`: for a DECLINED code, the CVV message of a card
      code error or else the AVS message of an AVS error; otherwise the reason
      text, or "" when it is nil. */
  function MessageFrom(gw: SecurePayGateway, p: Parsed): (m: string)
    ensures p.responseCode != Declined ==> m == p.reasonText.GetOr("")
    ensures p.responseCode == Declined && p.cardCode.Some? && p.cardCode.value in CardCodeErrors ==>
      m == gw.cvvMessage(p.cardCode.value)
    ensures (p.responseCode == Declined && !(p.cardCode.Some? && p.cardCode.value in CardCodeErrors) &&
             p.avsCode.Some? && p.avsCode.value in AvsErrors) ==> m == gw.avsMessage(p.avsCode.value)
    ensures (p.responseCode == Declined && !(p.cardCode.Some? && p.cardCode.value in CardCodeErrors) &&
             !(p.avsCode.Some? && p.avsCode.value in AvsErrors)) ==> m == p.reasonText.GetOr("")
  {
    if p.responseCode == Declined && p.cardCode.Some? && p.cardCode.value in CardCodeErrors then
      gw.cvvMessage(p.cardCode.value)
    else if p.responseCode == Declined && p.avsCode.Some? && p.avsCode.value in AvsErrors then
      gw.avsMessage(p.avsCode.value)
    else
      p.reasonText.GetOr("")
  }

  /** The code `AVSResult.new(:code => c)` keeps: nil for a blank code, the
      upper-case form of any other. */
  function AvsResultCode(code: Option<string>): (r: Option<string>)
    ensures r.None? <==> (code.None? || Blank(Str(code.value)))
    ensures r.Some? ==> r.value == Upcase(code.value)
  {
    if code.None? || Blank(Str(code.value)) then None else Some(Upcase(code.value))
  }

  /** A code the AVS result kept is already in its normal form. */
  lemma AvsResultCodeStable(code: Option<string>)
    ensures AvsResultCode(AvsResultCode(code)) == AvsResultCode(code)
  {
    if code.Some? {
      UpcaseBlank(code.value);
      UpcaseIdempotent(code.value);
    }
  }

  /** A lower-case code is kept as its capital, a blank one as nil. */
  lemma AvsResultCodeExamples()
    ensures AvsResultCode(Some("y")) == Some("Y")
    ensures AvsResultCode(Some(" ")) == None
  {
    assert "y"[0] == 'y' && !IsRegexSpace("y"[0]);
    assert Upcase("y")[0] == 'Y';
    assert Upcase("y") == "Y";
  }

  /** A lower-case AVS code counts as its capital: with "Y" among the valid
      codes, the approved reply "Y,1,OK,y,5" needs no VOID. */
  lemma LowerCaseAvsCodeAccepted(gw: SecurePayGateway, options: Options)
    requires Some("Y") in gw.validAvsCodes
    ensures var sale := CommitResponse(gw, Join(["Y", "1", "OK", "y", "5"], ','));
      sale.avsCode == Some("Y") && !NeedsVoid(gw, options, sale)
  {
    var data := Join(["Y", "1", "OK", "y", "5"], ',');
    ParseFields(["Y", "1", "OK", "y", "5"]);
    AvsResultCodeExamples();
    assert Parse(data).avsCode == Some("y");
    assert CommitResponse(gw, data).avsCode == Some("Y");
  }

  /** A blank AVS code is nil for the AVS result, not the blank string. */
  lemma BlankAvsCodeIsNil(gw: SecurePayGateway)
    ensures CommitResponse(gw, Join(["Y", "1", "OK", " ", "5"], ',')).avsCode == None
  {
    var data := Join(["Y", "1", "OK", " ", "5"], ',');
    ParseFields(["Y", "1", "OK", " ", "5"]);
    AvsResultCodeExamples();
    assert Parse(data).avsCode == Some(" ");
  }

  /** The response `commit` builds from a reply body.  It succeeds exactly
      when the reply does not open with the field "N"; it is never a fraud
      review; its message is always the reason text (the DECLINED branch of
      `message_from` cannot be reached from `parse`); it is a test response
      when the gateway is in test mode or the message mentions TESTMODE. */
  function CommitResponse(gw: SecurePayGateway, data: string): (r: Response)
    ensures r.success <==> !DeclinedReply(data)
    ensures !r.fraudReview
    ensures r.message == Parse(data).reasonText.GetOr("")
    ensures r.test <==> gw.testMode || Contains(r.message, "TESTMODE")
    ensures r.params == Some(Parse(data))
    ensures r.authorization == Parse(data).transactionId && r.avsCode == AvsResultCode(Parse(data).avsCode)
    ensures r.voidrecnum == Some(Strip(Parse(data).voidrecnum.GetOr("")))
  {
    var p := Parse(data);
    var message := MessageFrom(gw, p);
    Response(
      Success(p),
      message,
      Some(p),
      gw.testMode || Contains(message, "TESTMODE"),
      p.transactionId,
      FraudReview(p),
      AvsResultCode(p.avsCode),
      Some(Strip(ToS(if p.voidrecnum.Some? then Str(p.voidrecnum.value) else Nil))))
  }

  /** The outcome of one `commit` given what `ssl_post` did. */
  function Exchange(gw: SecurePayGateway, reply: Reply): (r: Outcome)
    ensures r.TransportFailure? <==> reply.Failed?
    ensures reply.Delivered? ==> r == Completed(CommitResponse(gw, reply.body))
  {
    match reply
    case Failed => TransportFailure
    case Delivered(data) => Completed(CommitResponse(gw, data))
  }

  // ---------------------------------------------------------------------
  // The request

  /** `test? ? test_url : live_url`: both name the same address. */
  function Url(gw: SecurePayGateway): (r: string)
    ensures r == TestUrl && r == LiveUrl
  {
    if gw.testMode then TestUrl else LiveUrl
  }

  const FixedKeys: seq<Key> := [TrType, MerchId, TransKey, CcMethod, AvsReq]

  /** The hash `post_data` starts from: the action, the login and password,
      the entry method and the AVS request flag, in that order. */
  function FixedFields(gw: SecurePayGateway, action: Action): Post {
    Hash(FixedKeys, map[
      TrType := Str(ActionName(action)),
      MerchId := Get(gw.options, "login"),
      TransKey := Get(gw.options, "password"),
      CcMethod := Str("DataEntry"),
      AvsReq := Str("1")])
  }

  /** The fixed fields hold each of their five keys once, the action first. */
  lemma FixedFieldsFacts(gw: SecurePayGateway, action: Action)
    ensures var r := FixedFields(gw, action);
      WellFormed(r) && r.keys == FixedKeys && Lookup(r, TrType) == Str(ActionName(action))
  {
    FixedKeysDistinct();
    var r := FixedFields(gw, action);
    assert forall k :: k in r.vals <==> k in FixedKeys;
  }

  lemma FixedKeysDistinct()
    ensures forall i, j :: 0 <= i < j < |FixedKeys| ==> FixedKeys[i] != FixedKeys[j]
  {
  }

  /** The pairs `post_data` serialises: the fixed fields merged with the
      parameters. */
  function PostPairs(gw: SecurePayGateway, action: Action, params: Post): Post {
    Merge(FixedFields(gw, action), params)
  }

  /** `"#{key}=#{CGI.escape(value.to_s)}"` for every pair, in order. */
  function Encode(gw: SecurePayGateway, h: Post): (r: seq<string>)
    ensures |r| == |h.keys|
  {
    seq(|h.keys|, i requires 0 <= i < |h.keys| => KeyName(h.keys[i]) + "=" + gw.escape(ToS(Lookup(h, h.keys[i]))))
  }

  /** `post_data(action, parameters)`. */
  function PostData(gw: SecurePayGateway, action: Action, params: Post): string {
    Join(Encode(gw, PostPairs(gw, action, params)), '&')
  }

  /** The body of a post, field by field: when the escaped values contain
      no `&` (the parameter names never do), splitting the body on `&` gives
      one `key=value` field per pair. */
  lemma PostDataSplits(gw: SecurePayGateway, action: Action, params: Post)
    requires forall s :: '&' !in gw.escape(s)
    ensures SplitAll(PostData(gw, action, params), '&') == Encode(gw, PostPairs(gw, action, params))
  {
    var pairs := PostPairs(gw, action, params);
    var enc := Encode(gw, pairs);
    FixedFieldsFacts(gw, action);
    StoreAllKeys(FixedFields(gw, action), params.keys, params.vals);
    forall i | 0 <= i < |enc| ensures '&' !in enc[i] {
      KeyNamesPlain(pairs.keys[i]);
      assert '&' !in gw.escape(ToS(Lookup(pairs, pairs.keys[i])));
    }
    SplitAllJoin(enc, '&');
  }

  /** The pairs of a post: the first five are the fixed fields, each
      overridden by a parameter of the same key; every later pair comes from
      the parameters; every parameter is present with its value; no key
      occurs twice. */
  lemma PostPairsFacts(gw: SecurePayGateway, action: Action, params: Post)
    ensures var pairs := PostPairs(gw, action, params);
      |pairs.keys| >= 5 && pairs.keys[..5] == FixedKeys && WellFormed(pairs)
    ensures forall k :: (Lookup(PostPairs(gw, action, params), k) ==
      if k in params.keys then Lookup(params, k) else Lookup(FixedFields(gw, action), k))
    ensures forall i :: 5 <= i < |PostPairs(gw, action, params).keys| ==> PostPairs(gw, action, params).keys[i] in params.keys
    ensures forall k :: k in params.keys ==> HasKey(PostPairs(gw, action, params), k)
  {
    FixedFieldsFacts(gw, action);
    MergeFacts(FixedFields(gw, action), params);
  }

  /** Without a `tr_type` parameter, the body opens with the action. */
  lemma PostDataLeadsWithAction(gw: SecurePayGateway, action: Action, params: Post)
    requires TrType !in params.keys
    requires forall s :: '&' !in gw.escape(s)
    ensures SplitAll(PostData(gw, action, params), '&')[0] == "tr_type=" + gw.escape(ActionName(action))
  {
    PostDataSplits(gw, action, params);
    var pairs := PostPairs(gw, action, params);
    LeadingPair(gw, action, params);
    var e := gw.escape(ActionName(action));
    assert KeyName(TrType) == "tr_type" && ToS(Str(ActionName(action))) == ActionName(action);
    assert Encode(gw, pairs)[0] == "tr_type" + "=" + e;
    assert "tr_type" + "=" + e == "tr_type=" + e by {
      AppendAssoc("tr_type", "=", e);
    }
  }

  /** Without a `tr_type` parameter, the first pair is the action. */
  lemma LeadingPair(gw: SecurePayGateway, action: Action, params: Post)
    requires TrType !in params.keys
    ensures var pairs := PostPairs(gw, action, params);
      |pairs.keys| > 0 && pairs.keys[0] == TrType && Lookup(pairs, TrType) == Str(ActionName(action))
  {
    FixedFieldsFacts(gw, action);
    var pairs := PostPairs(gw, action, params);
    MergeFacts(FixedFields(gw, action), params);
    assert pairs.keys[0] == pairs.keys[..5][0];
  }

  /** h and r have the same keys and values outside `ks`. */
  ghost predicate SameOutside(h: Post, r: Post, ks: set<Key>) {
    forall k :: k !in ks ==> (HasKey(r, k) <==> HasKey(h, k)) && Lookup(r, k) == Lookup(h, k)
  }

  /** Every key of h belongs to a stage before stage i. */
  ghost predicate Below(h: Post, i: nat) {
    forall k :: k in h.vals ==> Stage(k) < i
  }

  /** A hash below stage i holds no key of stage i or later. */
  lemma BelowAbsent(h: Post, i: nat, k: Key)
    requires Below(h, i) && Stage(k) >= i
    ensures !HasKey(h, k)
  {
  }

  /** A hash below stage i is below every later stage. */
  lemma BelowLater(h: Post, i: nat, j: nat)
    requires Below(h, i) && i <= j
    ensures Below(h, j)
  {
  }

  /** Storing a key of a stage before i keeps a hash below stage i. */
  lemma StoreBelow(h: Post, k: Key, v: Value, i: nat)
    requires Below(h, i) && Stage(k) < i
    ensures Below(Store(h, k, v), i)
  {
  }

  /** The stage of `purchase` that writes a key: 1 the invoice, 2 the card,
      3 the address, 4 the e-mail, 5 the recurring data, 6 `commit`; 0 for
      the fixed fields of `post_data` and 7 for the keys of void and credit. */
  function Stage(k: Key): nat {
    match k
    case TrType | MerchId | TransKey | CcMethod | AvsReq => 0
    case Comment1 | Comment2 => 1
    case CcNumber | Cvv2 | Year | Month | Name => 2
    case Street | Zip | City | State => 3
    case Email => 4
    case Recurring | RecAmount | Timeframe => 5
    case Amount | TestRequest => 6
    case VoidRecNum | TransId | CardNum => 7
  }

  /** `add_invoice`. */
  function WithInvoice(h: Post, options: Options): Post {
    Store(Store(h, Comment1, Get(options, "order_id")), Comment2, Get(options, "description"))
  }

  const InvoiceKeys: seq<Key> := [Comment1, Comment2]
  const InvoiceSet: set<Key> := {Comment1, Comment2}

  /** `add_invoice` writes the order id and the description and nothing else;
      new keys go to the end in that order. */
  lemma InvoiceFields(h: Post, options: Options)
    ensures var r := WithInvoice(h, options);
      HasKey(r, Comment1) && Lookup(r, Comment1) == Get(options, "order_id") &&
      HasKey(r, Comment2) && Lookup(r, Comment2) == Get(options, "description") &&
      SameOutside(h, r, InvoiceSet)
  {
  }

  /** `add_invoice` adds `comment1` then `comment2`. */
  lemma InvoiceOrder(h: Post, options: Options)
    requires Below(h, 1)
    ensures WithInvoice(h, options).keys == h.keys + InvoiceKeys && Below(WithInvoice(h, options), 2)
  {
  }

  lemma InvoiceWellFormed(h: Post, options: Options)
    requires WellFormed(h)
    ensures WellFormed(WithInvoice(h, options))
  {
    StoreWellFormed(h, Comment1, Get(options, "order_id"));
    StoreWellFormed(Store(h, Comment1, Get(options, "order_id")), Comment2, Get(options, "description"));
  }

  /** `creditcard.verification_value?`: a verification value that is not blank. */
  predicate HasVerificationValue(card: CreditCard) {
    !Blank(card.verificationValue)
  }

  /** `add_creditcard`. */
  function WithCreditCard(h: Post, card: CreditCard): Post {
    PutCard(h, card.number, if HasVerificationValue(card) then Some(card.verificationValue) else None,
            Slice(ToS(card.year), 2, 2), Str(TwoDigits(card.month)), Str(ToS(card.firstName) + " " + ToS(card.lastName)))
  }

  /** The stores of `add_creditcard`, given the values it writes; `cvv2` is
      written only when there is one. */
  function PutCard(h: Post, number: Value, cvv: Option<Value>, year: Value, month: Value, name: Value): Post {
    var h1 := Store(h, CcNumber, number);
    var h2 := if cvv.Some? then Store(h1, Cvv2, cvv.value) else h1;
    Store(Store(Store(h2, Year, year), Month, month), Name, name)
  }

  const CardSet: set<Key> := {CcNumber, Cvv2, Year, Month, Name}

  /** The keys `add_creditcard` writes, in order. */
  function CardKeys(card: CreditCard): seq<Key> {
    if HasVerificationValue(card) then [CcNumber, Cvv2, Year, Month, Name] else [CcNumber, Year, Month, Name]
  }

  /** `add_creditcard` writes the card number, `cvv2` only when there is a
      verification value, characters 2 and 3 of the year, the month padded
      to two digits and "first last" as the name; nothing else. */
  lemma CreditCardFields(h: Post, card: CreditCard)
    ensures var r := WithCreditCard(h, card);
      HasKey(r, CcNumber) && Lookup(r, CcNumber) == card.number &&
      (HasKey(r, Cvv2) <==> HasKey(h, Cvv2) || HasVerificationValue(card)) &&
      Lookup(r, Cvv2) == (if HasVerificationValue(card) then card.verificationValue else Lookup(h, Cvv2)) &&
      HasKey(r, Year) && Lookup(r, Year) == Slice(ToS(card.year), 2, 2) &&
      HasKey(r, Month) && Lookup(r, Month) == Str(TwoDigits(card.month)) &&
      HasKey(r, Name) && Lookup(r, Name) == Str(ToS(card.firstName) + " " + ToS(card.lastName)) &&
      SameOutside(h, r, CardSet)
  {
  }

  /** `add_creditcard` adds its keys in the order it writes them. */
  lemma CreditCardOrder(h: Post, card: CreditCard)
    requires Below(h, 2)
    ensures WithCreditCard(h, card).keys == h.keys + CardKeys(card) && Below(WithCreditCard(h, card), 3)
  {
    PutCardOrder(h, card.number, if HasVerificationValue(card) then Some(card.verificationValue) else None,
                 Slice(ToS(card.year), 2, 2), Str(TwoDigits(card.month)), Str(ToS(card.firstName) + " " + ToS(card.lastName)));
  }

  lemma PutCardOrder(h: Post, number: Value, cvv: Option<Value>, year: Value, month: Value, name: Value)
    requires Below(h, 2)
    ensures var r := PutCard(h, number, cvv, year, month, name);
      r.keys == h.keys + (if cvv.Some? then [CcNumber, Cvv2, Year, Month, Name] else [CcNumber, Year, Month, Name]) &&
      Below(r, 3)
  {
    CardAbsent(h);
    PutCardBelow(h, number, cvv, year, month, name);
    var h1 := Store(h, CcNumber, number);
    var h2 := if cvv.Some? then Store(h1, Cvv2, cvv.value) else h1;
    assert h2.keys == h.keys + (if cvv.Some? then [CcNumber, Cvv2] else [CcNumber]);
  }

  /** A hash below the card stage holds none of the card's keys. */
  lemma CardAbsent(h: Post)
    requires Below(h, 2)
    ensures !HasKey(h, CcNumber) && !HasKey(h, Cvv2) && !HasKey(h, Year) && !HasKey(h, Month) && !HasKey(h, Name)
  {
  }

  lemma PutCardBelow(h: Post, number: Value, cvv: Option<Value>, year: Value, month: Value, name: Value)
    requires Below(h, 2)
    ensures Below(PutCard(h, number, cvv, year, month, name), 3)
  {
  }

  lemma CreditCardWellFormed(h: Post, card: CreditCard)
    requires WellFormed(h)
    ensures WellFormed(WithCreditCard(h, card))
  {
    var h1 := Store(h, CcNumber, card.number);
    var h2 := if HasVerificationValue(card) then Store(h1, Cvv2, card.verificationValue) else h1;
    var h3 := Store(h2, Year, Slice(ToS(card.year), 2, 2));
    var h4 := Store(h3, Month, Str(TwoDigits(card.month)));
    StoreWellFormed(h, CcNumber, card.number);
    if HasVerificationValue(card) {
      StoreWellFormed(h1, Cvv2, card.verificationValue);
    }
    StoreWellFormed(h2, Year, Slice(ToS(card.year), 2, 2));
    StoreWellFormed(h3, Month, Str(TwoDigits(card.month)));
    StoreWellFormed(h4, Name, Str(ToS(card.firstName) + " " + ToS(card.lastName)));
  }

  /** `add_customer_data`. */
  function WithCustomerData(h: Post, options: Options): Post {
    Store(h, Email, Get(options, "email"))
  }

  /** `add_customer_data` writes the e-mail address, nothing else. */
  lemma CustomerDataFields(h: Post, options: Options)
    ensures var r := WithCustomerData(h, options);
      HasKey(r, Email) && Lookup(r, Email) == Get(options, "email") &&
      SameOutside(h, r, {Email})
  {
  }

  /** `add_customer_data` adds `email`. */
  lemma CustomerDataOrder(h: Post, options: Options)
    requires Below(h, 4)
    ensures WithCustomerData(h, options).keys == h.keys + [Email] && Below(WithCustomerData(h, options), 5)
  {
  }

  lemma CustomerDataWellFormed(h: Post, options: Options)
    requires WellFormed(h)
    ensures WellFormed(WithCustomerData(h, options))
  {
    StoreWellFormed(h, Email, Get(options, "email"));
  }

  /** `options[:billing_address] || options[:address]`. */
  function AddressOf(options: Options): (r: Value)
    ensures Truthy(Get(options, "billing_address")) ==> r == Get(options, "billing_address")
    ensures !Truthy(Get(options, "billing_address")) ==> r == Get(options, "address")
  {
    Or(Get(options, "billing_address"), Get(options, "address"))
  }

  /** `add_address`. */
  function WithAddress(h: Post, options: Options): Post {
    var address := AddressOf(options);
    if Truthy(address) then
      var h1 := Store(h, Street, Str(ToS(Field(address, "address1"))));
      var h2 := Store(h1, Zip, Str(ToS(Field(address, "zip"))));
      var h3 := Store(h2, City, Str(ToS(Field(address, "city"))));
      Store(h3, State, Field(address, "state"))
    else h
  }

  const AddressKeys: seq<Key> := [Street, Zip, City, State]
  const AddressSet: set<Key> := {Street, Zip, City, State}

  /** `add_address` writes street, zip, city and state only when there is an
      address, the billing address first; nothing else. */
  lemma AddressFields(h: Post, options: Options)
    ensures !Truthy(AddressOf(options)) ==> WithAddress(h, options) == h
    ensures Truthy(AddressOf(options)) ==>
      var a, r := AddressOf(options), WithAddress(h, options);
      HasKey(r, Street) && Lookup(r, Street) == Str(ToS(Field(a, "address1"))) &&
      HasKey(r, Zip) && Lookup(r, Zip) == Str(ToS(Field(a, "zip"))) &&
      HasKey(r, City) && Lookup(r, City) == Str(ToS(Field(a, "city"))) &&
      HasKey(r, State) && Lookup(r, State) == Field(a, "state")
    ensures SameOutside(h, WithAddress(h, options), AddressSet)
  {
  }

  /** `add_address` adds street, zip, city and state, or nothing without an
      address. */
  lemma AddressOrder(h: Post, options: Options)
    requires Below(h, 3)
    ensures WithAddress(h, options).keys == h.keys + (if Truthy(AddressOf(options)) then AddressKeys else []) && Below(WithAddress(h, options), 4)
  {
    var address := AddressOf(options);
    if Truthy(address) {
      var h1 := Store(h, Street, Str(ToS(Field(address, "address1"))));
      var h2 := Store(h1, Zip, Str(ToS(Field(address, "zip"))));
      var h3 := Store(h2, City, Str(ToS(Field(address, "city"))));
      AddressAbsent(h);
      assert h3.keys == h.keys + [Street, Zip, City];
    } else {
      assert h.keys + [] == h.keys;
    }
    AddressBelow(h, options);
  }

  /** A hash below the address stage holds none of the address keys. */
  lemma AddressAbsent(h: Post)
    requires Below(h, 3)
    ensures !HasKey(h, Street) && !HasKey(h, Zip) && !HasKey(h, City) && !HasKey(h, State)
  {
  }

  lemma AddressBelow(h: Post, options: Options)
    requires Below(h, 3)
    ensures Below(WithAddress(h, options), 4)
  {
  }

  lemma AddressWellFormed(h: Post, options: Options)
    requires WellFormed(h)
    ensures WellFormed(WithAddress(h, options))
  {
    var address := AddressOf(options);
    if Truthy(address) {
      var h1 := Store(h, Street, Str(ToS(Field(address, "address1"))));
      var h2 := Store(h1, Zip, Str(ToS(Field(address, "zip"))));
      var h3 := Store(h2, City, Str(ToS(Field(address, "city"))));
      StoreWellFormed(h, Street, Str(ToS(Field(address, "address1"))));
      StoreWellFormed(h1, Zip, Str(ToS(Field(address, "zip"))));
      StoreWellFormed(h2, City, Str(ToS(Field(address, "city"))));
      StoreWellFormed(h3, State, Field(address, "state"));
    }
  }

  /** The characters of the argument `'ly'`. */
  const LyChars: set<char> := {'l', 'y'}

  /** `period.delete('ly')`: every `l` and every `y` removed (characters, not
      the suffix "ly").  A value that is not a String answers nil here. */
  function TimeframeOf(period: Value): (r: Value)
    ensures period.Str? ==> r == Str(DeleteChars(period.s, LyChars))
    ensures period.Str? ==> r.Str? && forall i :: 0 <= i < |r.s| ==> r.s[i] != 'l' && r.s[i] != 'y'
    ensures period.Str? && 'l' !in period.s && 'y' !in period.s ==> r == period
  {
    if period.Str? then Str(DeleteChars(period.s, LyChars)) else Nil
  }

  lemma DeleteThly()
    ensures DeleteChars("thly", LyChars) == "th"
  {
    assert "y"[1..] == "" && "ly"[1..] == "y" && "hly"[1..] == "ly" && "thly"[1..] == "hly";
    assert DeleteChars("ly", LyChars) == "";
    assert DeleteChars("hly", LyChars) == "h";
  }

  lemma DeleteOnthly()
    ensures DeleteChars("onthly", LyChars) == "onth"
  {
    DeleteThly();
    assert "nthly"[1..] == "thly" && "onthly"[1..] == "nthly";
    assert DeleteChars("nthly", LyChars) == "nth";
  }

  /** "monthly" loses its `l` and `y` and becomes "month". */
  lemma TimeframeMonthly()
    ensures TimeframeOf(Str("monthly")) == Str("month")
  {
    DeleteOnthly();
    assert "monthly"[1..] == "onthly";
    assert ['m'] + "onth" == "month";
  }

  /** "yearly" loses both `y`s and the `l`, and becomes "ear", not "year". */
  lemma TimeframeYearly()
    ensures TimeframeOf(Str("yearly")) == Str("ear")
  {
    assert "y"[1..] == "" && "ly"[1..] == "y" && "rly"[1..] == "ly";
    assert "arly"[1..] == "rly" && "early"[1..] == "arly" && "yearly"[1..] == "early";
    assert DeleteChars("ly", LyChars) == "";
    assert DeleteChars("rly", LyChars) == "r";
    assert DeleteChars("arly", LyChars) == "ar";
    assert DeleteChars("early", LyChars) == "ear";
  }

  /** `add_recurring_data`. */
  function WithRecurringData(gw: SecurePayGateway, h: Post, options: Options, money: Value): Post {
    var h1 := Store(h, Recurring, Str("Yes"));
    var h2 := Store(h1, RecAmount, gw.fmt.amount(money));
    Store(h2, Timeframe, TimeframeOf(Get(options, "recurring_period")))
  }

  const RecurringKeys: seq<Key> := [Recurring, RecAmount, Timeframe]
  const RecurringSet: set<Key> := {Recurring, RecAmount, Timeframe}

  /** `add_recurring_data` writes `recurring = 'Yes'`, the amount and the
      time frame; nothing else. */
  lemma RecurringDataFields(gw: SecurePayGateway, h: Post, options: Options, money: Value)
    ensures var r := WithRecurringData(gw, h, options, money);
      HasKey(r, Recurring) && Lookup(r, Recurring) == Str("Yes") &&
      HasKey(r, RecAmount) && Lookup(r, RecAmount) == gw.fmt.amount(money) &&
      HasKey(r, Timeframe) && Lookup(r, Timeframe) == TimeframeOf(Get(options, "recurring_period")) &&
      SameOutside(h, r, RecurringSet)
  {
  }

  /** `add_recurring_data` adds its three keys in order. */
  lemma RecurringDataOrder(gw: SecurePayGateway, h: Post, options: Options, money: Value)
    requires Below(h, 5)
    ensures WithRecurringData(gw, h, options, money).keys == h.keys + RecurringKeys && Below(WithRecurringData(gw, h, options, money), 6)
  {
    var h1 := Store(h, Recurring, Str("Yes"));
    var h2 := Store(h1, RecAmount, gw.fmt.amount(money));
    RecurringAbsent(h);
    assert h2.keys == h.keys + [Recurring, RecAmount];
  }

  /** A hash below the recurring stage holds none of its keys. */
  lemma RecurringAbsent(h: Post)
    requires Below(h, 5)
    ensures !HasKey(h, Recurring) && !HasKey(h, RecAmount) && !HasKey(h, Timeframe)
  {
  }

  lemma RecurringDataWellFormed(gw: SecurePayGateway, h: Post, options: Options, money: Value)
    requires WellFormed(h)
    ensures WellFormed(WithRecurringData(gw, h, options, money))
  {
    var h1 := Store(h, Recurring, Str("Yes"));
    var h2 := Store(h1, RecAmount, gw.fmt.amount(money));
    StoreWellFormed(h, Recurring, Str("Yes"));
    StoreWellFormed(h1, RecAmount, gw.fmt.amount(money));
    StoreWellFormed(h2, Timeframe, TimeframeOf(Get(options, "recurring_period")));
  }

  /** `@options[:test] ? 'TRUE' : 'FALSE'`. */
  function TestRequestFlag(gw: SecurePayGateway): (r: Value)
    ensures r == Str("TRUE") <==> Truthy(Get(gw.options, "test"))
    ensures r == Str("FALSE") <==> !Truthy(Get(gw.options, "test"))
  {
    Str(if Truthy(Get(gw.options, "test")) then "TRUE" else "FALSE")
  }

  /** What `commit` writes into its parameters. */
  function CommitFields(gw: SecurePayGateway, h: Post, action: Action, money: Value): Post {
    var h1 := if action != VOID then Store(h, Amount, gw.fmt.amount(money)) else h;
    Store(h1, TestRequest, TestRequestFlag(gw))
  }

  const CommitSet: set<Key> := {Amount, TestRequest}

  /** The keys `commit` writes, in order. */
  function CommitKeys(action: Action): seq<Key> {
    (if action != VOID then [Amount] else []) + [TestRequest]
  }

  /** `commit` sets the amount for every action but VOID, which keeps
      whatever amount the hash already holds, and always sets
      `test_request`; nothing else. */
  lemma CommitFieldsFacts(gw: SecurePayGateway, h: Post, action: Action, money: Value)
    ensures var r := CommitFields(gw, h, action, money);
      (action != VOID ==> HasKey(r, Amount) && Lookup(r, Amount) == gw.fmt.amount(money)) &&
      (action == VOID ==> (HasKey(r, Amount) <==> HasKey(h, Amount)) && Lookup(r, Amount) == Lookup(h, Amount)) &&
      HasKey(r, TestRequest) && Lookup(r, TestRequest) == TestRequestFlag(gw) &&
      SameOutside(h, r, CommitSet)
  {
  }

  /** `commit` adds the amount (except for a VOID) and then `test_request`. */
  lemma CommitFieldsOrder(gw: SecurePayGateway, h: Post, action: Action, money: Value)
    requires Below(h, 6)
    ensures CommitFields(gw, h, action, money).keys == h.keys + CommitKeys(action) && Below(CommitFields(gw, h, action, money), 7)
  {
    CommitFieldsKeys(gw, h, action, money);
    CommitFieldsBelow(gw, h, action, money);
  }

  lemma CommitFieldsKeys(gw: SecurePayGateway, h: Post, action: Action, money: Value)
    requires !HasKey(h, Amount) && !HasKey(h, TestRequest)
    ensures CommitFields(gw, h, action, money).keys == h.keys + CommitKeys(action)
  {
  }

  lemma CommitFieldsBelow(gw: SecurePayGateway, h: Post, action: Action, money: Value)
    requires Below(h, 6)
    ensures Below(CommitFields(gw, h, action, money), 7)
  {
    BelowLater(h, 6, 7);
    var h1 := if action != VOID then Store(h, Amount, gw.fmt.amount(money)) else h;
    if action != VOID {
      StoreBelow(h, Amount, gw.fmt.amount(money), 7);
    }
    StoreBelow(h1, TestRequest, TestRequestFlag(gw), 7);
  }

  lemma CommitFieldsWellFormed(gw: SecurePayGateway, h: Post, action: Action, money: Value)
    requires WellFormed(h)
    ensures WellFormed(CommitFields(gw, h, action, money))
  {
    var h1 := if action != VOID then Store(h, Amount, gw.fmt.amount(money)) else h;
    if action != VOID {
      StoreWellFormed(h, Amount, gw.fmt.amount(money));
    }
    StoreWellFormed(h1, TestRequest, TestRequestFlag(gw));
  }

  /** The mismatch message of `purchase`, around the AVS result's message. */
  function MismatchMessage(avsText: string): string {
    "<span title='" + avsText + " '>Address does not match card.<br/>Please verify your card information.</span>"
  }

  /** `avs_result['message'].to_s` for a response's AVS code. */
  function AvsResultMessage(gw: SecurePayGateway, code: Option<string>): string {
    if code.Some? then gw.avsMessage(code.value) else ""
  }

  /** The response that answers a voided sale: failed, with the mismatch
      message, empty params, and flagged as a test response. */
  function MismatchResponse(gw: SecurePayGateway, sale: Response): (r: Response)
    ensures !r.success && r.test && r.params == None
    ensures r.message == MismatchMessage(AvsResultMessage(gw, sale.avsCode))
    ensures r.authorization == None && !r.fraudReview
  {
    Response(false, MismatchMessage(AvsResultMessage(gw, sale.avsCode)), None, true, None, false, None, None)
  }

  // ---------------------------------------------------------------------
  // The operations as specifications

  /** The exchanges an operation made and what it came to. */
  datatype Run = Run(outcome: Outcome, requests: seq<Request>)

  /** The hash of `purchase` after the e-mail. */
  function CustomerPost(card: CreditCard, options: Options): Post {
    WithCustomerData(WithAddress(WithCreditCard(WithInvoice(EmptyPost, options), card), options), options)
  }

  /** The `post` hash of `purchase` before its first commit. */
  function PurchasePost(gw: SecurePayGateway, money: Value, card: CreditCard, options: Options): Post
  {
    var e4 := CustomerPost(card, options);
    if Truthy(Get(options, "recurring_period")) then WithRecurringData(gw, e4, options, money) else e4
  }

  /** The parameters of the SALE post. */
  function SaleFields(gw: SecurePayGateway, money: Value, card: CreditCard, options: Options): Post
  {
    CommitFields(gw, PurchasePost(gw, money, card, options), SALE, money)
  }

  /** The parameters of the VOID post: the SALE's hash, already holding the
      amount and `test_request`, plus the stripped void record number. */
  function VoidFields(gw: SecurePayGateway, sale: Post, saleResponse: Response, money: Value): Post
  {
    CommitFields(gw, Store(sale, VoidRecNum, Str(Strip(saleResponse.voidrecnum.GetOr("")))), VOID, money)
  }

  /** Whether `purchase` must void an approved sale: not a test order and an
      AVS code outside the valid ones. */
  predicate NeedsVoid(gw: SecurePayGateway, options: Options, sale: Response) {
    sale.success && Get(options, "test") != Str("test") && sale.avsCode !in gw.validAvsCodes
  }

  /** `purchase` against a processor that answers exchange number n + i with
      `respond(n + i, url, body)`. */
  function PurchaseRun(gw: SecurePayGateway, respond: (nat, string, string) -> Reply, n: nat,
                       money: Value, card: CreditCard, options: Options): Run
  {
    SaleRun(gw, respond, n, money, options, PurchasePost(gw, money, card, options))
  }

  /** What `purchase` does from its first commit on, given the hash the
      helpers filled: the SALE, then whatever follows it. */
  function SaleRun(gw: SecurePayGateway, respond: (nat, string, string) -> Reply, n: nat,
                   money: Value, options: Options, post: Post): Run
  {
    var saleFields := CommitFields(gw, post, SALE, money);
    var saleRequest := Request(Url(gw), PostData(gw, SALE, saleFields));
    var rest := AfterSale(gw, respond, n + 1, money, options, saleFields,
                          Exchange(gw, respond(n, saleRequest.url, saleRequest.body)));
    Run(rest.outcome, [saleRequest] + rest.requests)
  }

  /** What `purchase` does once the SALE whose parameters were `saleFields`
      came to `sale`: the exchanges from number n on and the outcome. */
  function AfterSale(gw: SecurePayGateway, respond: (nat, string, string) -> Reply, n: nat,
                     money: Value, options: Options, saleFields: Post, sale: Outcome): Run
  {
    if !sale.Completed? || !NeedsVoid(gw, options, sale.response) then Run(sale, [])
    else
      var voidRequest := Request(Url(gw), PostData(gw, VOID, VoidFields(gw, saleFields, sale.response, money)));
      var voided := Exchange(gw, respond(n, voidRequest.url, voidRequest.body));
      Run(if voided.TransportFailure? then TransportFailure else Completed(MismatchResponse(gw, sale.response)),
          [voidRequest])
  }

  /** `void(authorization)`: one VOID post of the transaction id. */
  function VoidRun(gw: SecurePayGateway, respond: (nat, string, string) -> Reply, n: nat, authorization: Value): Run {
    var fields := CommitFields(gw, Store(EmptyPost, TransId, authorization), VOID, Nil);
    var request := Request(Url(gw), PostData(gw, VOID, fields));
    Run(Exchange(gw, respond(n, request.url, request.body)), [request])
  }

  /** The parameters of a CREDIT post. */
  function CreditFields(gw: SecurePayGateway, money: Value, identification: Value, options: Options): Post
  {
    var e := Store(Store(EmptyPost, TransId, identification), CardNum, Get(options, "card_number"));
    CommitFields(gw, WithInvoice(e, options), CREDIT, money)
  }

  /** `credit(money, identification, options)`: nothing is posted without a
      `:card_number` option. */
  function CreditRun(gw: SecurePayGateway, respond: (nat, string, string) -> Reply, n: nat,
                     money: Value, identification: Value, options: Options): Run
  {
    var missing := FirstMissing(options, ["card_number"]);
    if missing.Some? then Run(MissingParameter(missing.value), [])
    else
      var request := Request(Url(gw), PostData(gw, CREDIT, CreditFields(gw, money, identification, options)));
      Run(Exchange(gw, respond(n, request.url, request.body)), [request])
  }

  // ---------------------------------------------------------------------
  // Properties of the operations

  /** A purchase makes one exchange, the SALE, when the SALE raises, is
      declined, is a test order or passes the address check, and then answers
      with the SALE's own outcome.  Otherwise it makes exactly two, the second
      a VOID, and answers with the mismatch response (or the VOID's transport
      failure), whatever the VOID's reply says. */
  lemma PurchaseExchanges(gw: SecurePayGateway, respond: (nat, string, string) -> Reply, n: nat,
                          money: Value, card: CreditCard, options: Options)
    ensures var run := PurchaseRun(gw, respond, n, money, card, options);
      var saleFields := SaleFields(gw, money, card, options);
      var sale := Exchange(gw, respond(n, Url(gw), PostData(gw, SALE, saleFields)));
      (1 <= |run.requests| <= 2) &&
      run.requests[0] == Request(Url(gw), PostData(gw, SALE, saleFields)) &&
      (|run.requests| == 1 <==> !sale.Completed? || !NeedsVoid(gw, options, sale.response)) &&
      (|run.requests| == 1 ==> run.outcome == sale) &&
      (|run.requests| == 2 ==>
        run.requests[1] == Request(Url(gw), PostData(gw, VOID, VoidFields(gw, saleFields, sale.response, money))) &&
        (run.outcome.TransportFailure? || run.outcome == Completed(MismatchResponse(gw, sale.response))))
  {
    var saleFields := SaleFields(gw, money, card, options);
    var sale := Exchange(gw, respond(n, Url(gw), PostData(gw, SALE, saleFields)));
    AfterSaleShape(gw, respond, n + 1, money, options, saleFields, sale);
  }

  /** After the SALE: no further exchange unless an approved sale must be
      voided, and then exactly the VOID of the SALE's parameters. */
  lemma AfterSaleShape(gw: SecurePayGateway, respond: (nat, string, string) -> Reply, n: nat,
                       money: Value, options: Options, saleFields: Post, sale: Outcome)
    ensures var rest := AfterSale(gw, respond, n, money, options, saleFields, sale);
      (|rest.requests| == 0 <==> !sale.Completed? || !NeedsVoid(gw, options, sale.response)) &&
      (|rest.requests| == 0 ==> rest.outcome == sale) &&
      (|rest.requests| != 0 ==>
        rest.requests == [Request(Url(gw), PostData(gw, VOID, VoidFields(gw, saleFields, sale.response, money)))] &&
        (rest.outcome.TransportFailure? || rest.outcome == Completed(MismatchResponse(gw, sale.response))))
  {
  }

  /** A declined sale is returned as it is, after one exchange; a reply that
      does not open with "N", an empty one included, is an approval. */
  lemma PurchaseDeclined(gw: SecurePayGateway, respond: (nat, string, string) -> Reply, n: nat,
                         money: Value, card: CreditCard, options: Options)
    requires var body := PostData(gw, SALE, SaleFields(gw, money, card, options));
      respond(n, Url(gw), body).Delivered? && DeclinedReply(respond(n, Url(gw), body).body)
    ensures var run := PurchaseRun(gw, respond, n, money, card, options);
      |run.requests| == 1 && run.outcome.Completed? && !run.outcome.response.success
  {
  }

  /** The VOID post reuses the SALE's hash: every SALE parameter is still
      there with its value, the amount and `test_request` included, and the
      void record number is the SALE's, stripped. */
  lemma VoidReusesSalePost(gw: SecurePayGateway, money: Value, card: CreditCard, options: Options, sale: Response)
    ensures var saleFields := SaleFields(gw, money, card, options);
      var voidFields := VoidFields(gw, saleFields, sale, money);
      (forall k :: k != VoidRecNum ==> Lookup(voidFields, k) == Lookup(saleFields, k)) &&
      (forall k :: HasKey(saleFields, k) ==> HasKey(voidFields, k)) &&
      Lookup(voidFields, VoidRecNum) == Str(Strip(sale.voidrecnum.GetOr(""))) &&
      Lookup(voidFields, Amount) == gw.fmt.amount(money) &&
      Lookup(voidFields, TestRequest) == TestRequestFlag(gw)
  {
    var saleFields := SaleFields(gw, money, card, options);
    CommitFieldsFacts(gw, PurchasePost(gw, money, card, options), SALE, money);
    VoidFieldsFacts(gw, saleFields, sale, money);
  }

  /** The VOID parameters are the given hash with the stripped void record
      number stored and `test_request` set again; no key is lost and the
      amount is left as it was. */
  lemma VoidFieldsFacts(gw: SecurePayGateway, sale: Post, saleResponse: Response, money: Value)
    ensures var voidFields := VoidFields(gw, sale, saleResponse, money);
      (forall k :: k != VoidRecNum && k != TestRequest ==> Lookup(voidFields, k) == Lookup(sale, k)) &&
      (forall k :: HasKey(sale, k) ==> HasKey(voidFields, k)) &&
      Lookup(voidFields, VoidRecNum) == Str(Strip(saleResponse.voidrecnum.GetOr(""))) &&
      Lookup(voidFields, TestRequest) == TestRequestFlag(gw)
  {
    var withRecnum := Store(sale, VoidRecNum, Str(Strip(saleResponse.voidrecnum.GetOr(""))));
    CommitFieldsFacts(gw, withRecnum, VOID, money);
  }

  /** The keys of the SALE parameters, in the order `purchase` and `commit`
      write them. */
  function SaleKeys(card: CreditCard, options: Options): seq<Key> {
    InvoiceKeys + CardKeys(card) +
    (if Truthy(AddressOf(options)) then AddressKeys else []) + [Email] +
    (if Truthy(Get(options, "recurring_period")) then RecurringKeys else []) +
    CommitKeys(SALE)
  }

  /** Up to the e-mail, `purchase` appends the invoice, the card, the
      address when there is one, and the e-mail, and nothing of a later
      stage. */
  lemma CustomerPostOrder(card: CreditCard, options: Options)
    ensures var e4 := CustomerPost(card, options);
      Below(e4, 5) &&
      e4.keys == InvoiceKeys + CardKeys(card) + (if Truthy(AddressOf(options)) then AddressKeys else []) + [Email]
  {
    var e1 := WithInvoice(EmptyPost, options);
    var e2 := WithCreditCard(e1, card);
    var e3 := WithAddress(e2, options);
    var e4 := WithCustomerData(e3, options);
    InvoiceOrder(EmptyPost, options);
    assert e1.keys == InvoiceKeys;
    CreditCardOrder(e1, card);
    AddressOrder(e2, options);
    CustomerDataOrder(e3, options);
  }

  lemma CustomerPostBelow(card: CreditCard, options: Options)
    ensures Below(CustomerPost(card, options), 5)
  {
    CustomerPostOrder(card, options);
  }

  /** Every key of the SALE parameters is written once, in order: the
      invoice, the card (`cvv2` only with a verification value), the address
      when there is one, the e-mail, the recurring fields when there is a
      period, then the amount and `test_request`. */
  lemma SaleFieldOrder(gw: SecurePayGateway, money: Value, card: CreditCard, options: Options)
    ensures SaleFields(gw, money, card, options).keys == SaleKeys(card, options)
  {
    var e4 := CustomerPost(card, options);
    var e5 := PurchasePost(gw, money, card, options);
    CustomerPostOrder(card, options);
    if Truthy(Get(options, "recurring_period")) {
      RecurringDataOrder(gw, e4, options, money);
    } else {
      assert e5.keys == e4.keys + [];
    }
    CommitFieldsOrder(gw, e5, SALE, money);
  }

  /** The SALE parameters never hold a key twice. */
  lemma SaleFieldsWellFormed(gw: SecurePayGateway, money: Value, card: CreditCard, options: Options)
    ensures WellFormed(SaleFields(gw, money, card, options))
  {
    var e1 := WithInvoice(EmptyPost, options);
    var e2 := WithCreditCard(e1, card);
    var e3 := WithAddress(e2, options);
    var e4 := WithCustomerData(e3, options);
    var post := PurchasePost(gw, money, card, options);
    InvoiceWellFormed(EmptyPost, options);
    CreditCardWellFormed(e1, card);
    AddressWellFormed(e2, options);
    CustomerDataWellFormed(e3, options);
    if Truthy(Get(options, "recurring_period")) {
      RecurringDataWellFormed(gw, e4, options, money);
    }
    CommitFieldsWellFormed(gw, post, SALE, money);
  }

  /** The recurring fields are in the SALE exactly when `:recurring_period`
      is truthy, with the period's `l` and `y` characters removed. */
  lemma RecurringFields(gw: SecurePayGateway, money: Value, card: CreditCard, options: Options)
    ensures var post := SaleFields(gw, money, card, options);
      (HasKey(post, Recurring) <==> Truthy(Get(options, "recurring_period"))) &&
      (HasKey(post, Timeframe) <==> Truthy(Get(options, "recurring_period"))) &&
      (Truthy(Get(options, "recurring_period")) ==>
        Lookup(post, Recurring) == Str("Yes") &&
        Lookup(post, RecAmount) == gw.fmt.amount(money) &&
        Lookup(post, Timeframe) == TimeframeOf(Get(options, "recurring_period")))
  {
    CustomerPostBelow(card, options);
    CommittedRecurring(gw, CustomerPost(card, options), options, money, Truthy(Get(options, "recurring_period")));
  }

  /** The recurring stage and `commit` on a hash of the earlier stages. */
  lemma CommittedRecurring(gw: SecurePayGateway, e4: Post, options: Options, money: Value, rec: bool)
    requires Below(e4, 5)
    ensures var post := CommitFields(gw, if rec then WithRecurringData(gw, e4, options, money) else e4, SALE, money);
      (HasKey(post, Recurring) <==> rec) &&
      (HasKey(post, Timeframe) <==> rec) &&
      (rec ==>
        Lookup(post, Recurring) == Str("Yes") &&
        Lookup(post, RecAmount) == gw.fmt.amount(money) &&
        Lookup(post, Timeframe) == TimeframeOf(Get(options, "recurring_period")))
  {
    if rec {
      var e5 := WithRecurringData(gw, e4, options, money);
      RecurringDataFields(gw, e4, options, money);
      CommitFieldsFacts(gw, e5, SALE, money);
    } else {
      BelowAbsent(e4, 5, Recurring);
      BelowAbsent(e4, 5, Timeframe);
      CommitFieldsFacts(gw, e4, SALE, money);
    }
  }

  /** A void posts once: the transaction id and `test_request`, no amount. */
  lemma VoidRequest(gw: SecurePayGateway, respond: (nat, string, string) -> Reply, n: nat, authorization: Value)
    ensures var run := VoidRun(gw, respond, n, authorization);
      var fields := CommitFields(gw, Store(EmptyPost, TransId, authorization), VOID, Nil);
      |run.requests| == 1 && run.requests[0].body == PostData(gw, VOID, fields) &&
      fields.keys == [TransId, TestRequest] && Lookup(fields, TransId) == authorization
  {
  }

  /** The CREDIT parameters are the transaction id, the card number, the
      invoice fields, the amount and `test_request`, in that order. */
  lemma CreditFieldOrder(gw: SecurePayGateway, money: Value, identification: Value, options: Options)
    ensures var fields := CreditFields(gw, money, identification, options);
      fields.keys == [TransId, CardNum, Comment1, Comment2, Amount, TestRequest] &&
      Lookup(fields, TransId) == identification &&
      Lookup(fields, CardNum) == Get(options, "card_number") &&
      Lookup(fields, Amount) == gw.fmt.amount(money)
  {
    var e := Store(Store(EmptyPost, TransId, identification), CardNum, Get(options, "card_number"));
    assert e.keys == [TransId, CardNum];
    InvoiceFields(e, options);
    var post := WithInvoice(e, options);
    assert post.keys == [TransId, CardNum, Comment1, Comment2];
    CommitFieldsFacts(gw, post, CREDIT, money);
  }

  /** A credit without `:card_number` posts nothing and names the missing
      key; with it, exactly one CREDIT post of its parameters. */
  lemma CreditRequest(gw: SecurePayGateway, respond: (nat, string, string) -> Reply, n: nat,
                      money: Value, identification: Value, options: Options)
    ensures var run := CreditRun(gw, respond, n, money, identification, options);
      ("card_number" !in options <==> run.requests == []) &&
      ("card_number" !in options ==> run.outcome == MissingParameter("card_number")) &&
      ("card_number" in options ==>
        |run.requests| == 1 &&
        run.requests[0] == Request(Url(gw), PostData(gw, CREDIT, CreditFields(gw, money, identification, options))))
  {
  }

  // ---------------------------------------------------------------------
  // The adapter, step by step

  /** `add_invoice(post, options)`. */
  method AddInvoice(post: PostHash<Key>, options: Options)
    requires post.Valid()
    modifies post
    ensures post.Valid() && post.contents == WithInvoice(old(post.contents), options)
  {
    post.Set(Comment1, Get(options, "order_id"));
    post.Set(Comment2, Get(options, "description"));
  }

  /** `add_creditcard(post, creditcard)`. */
  method AddCreditCard(post: PostHash<Key>, card: CreditCard)
    requires post.Valid()
    modifies post
    ensures post.Valid() && post.contents == WithCreditCard(old(post.contents), card)
  {
    post.Set(CcNumber, card.number);
    if HasVerificationValue(card) {
      post.Set(Cvv2, card.verificationValue);
    }
    post.Set(Year, Slice(ToS(card.year), 2, 2));
    post.Set(Month, Str(TwoDigits(card.month)));
    post.Set(Name, Str(ToS(card.firstName) + " " + ToS(card.lastName)));
  }

  /** `add_customer_data(post, options)`. */
  method AddCustomerData(post: PostHash<Key>, options: Options)
    requires post.Valid()
    modifies post
    ensures post.Valid() && post.contents == WithCustomerData(old(post.contents), options)
  {
    post.Set(Email, Get(options, "email"));
  }

  /** `add_address(post, options)`. */
  method AddAddress(post: PostHash<Key>, options: Options)
    requires post.Valid()
    modifies post
    ensures post.Valid() && post.contents == WithAddress(old(post.contents), options)
  {
    var address := Or(Get(options, "billing_address"), Get(options, "address"));
    if Truthy(address) {
      post.Set(Street, Str(ToS(Field(address, "address1"))));
      post.Set(Zip, Str(ToS(Field(address, "zip"))));
      post.Set(City, Str(ToS(Field(address, "city"))));
      post.Set(State, Field(address, "state"));
    }
  }

  /** `add_recurring_data(post, options, money)`. */
  method AddRecurringData(gw: SecurePayGateway, post: PostHash<Key>, options: Options, money: Value)
    requires post.Valid()
    modifies post
    ensures post.Valid() && post.contents == WithRecurringData(gw, old(post.contents), options, money)
  {
    post.Set(Recurring, Str("Yes"));
    post.Set(RecAmount, gw.fmt.amount(money));
    post.Set(Timeframe, TimeframeOf(Get(options, "recurring_period")));
  }

  /** `commit(action, money, parameters)`: writes the amount (except for a
      VOID) and `test_request` into the caller's hash, posts it once and
      reads the reply. */
  method Commit(gw: SecurePayGateway, t: Transport, action: Action, money: Value, post: PostHash<Key>)
    returns (out: Outcome)
    requires post.Valid()
    modifies post, t
    ensures post.Valid() && post.contents == CommitFields(gw, old(post.contents), action, money)
    ensures t.sent == old(t.sent) + [Request(Url(gw), PostData(gw, action, post.contents))]
    ensures out == Exchange(gw, t.respond(|old(t.sent)|, Url(gw), PostData(gw, action, post.contents)))
  {
    if action != VOID {
      post.Set(Amount, gw.fmt.amount(money));
    }
    post.Set(TestRequest, TestRequestFlag(gw));
    var url := if gw.testMode then TestUrl else LiveUrl;
    var reply := t.Post(url, PostData(gw, action, post.contents));
    match reply
    case Failed =>
      out := TransportFailure;
    case Delivered(data) =>
      out := Completed(CommitResponse(gw, data));
  }

  /** The first half of `purchase`: a new hash filled by the helpers. */
  method SalePost(gw: SecurePayGateway, money: Value, card: CreditCard, options: Options)
    returns (post: PostHash<Key>)
    ensures fresh(post) && post.Valid()
    ensures post.contents == PurchasePost(gw, money, card, options)
  {
    post := new PostHash<Key>();
    AddInvoice(post, options);
    AddCreditCard(post, card);
    AddAddress(post, options);
    AddCustomerData(post, options);
    if Truthy(Get(options, "recurring_period")) {
      AddRecurringData(gw, post, options, money);
    }
  }

  /** The second half of `purchase`: return the SALE's outcome unless the
      approved sale must be voided; then void it with the parameters `post`
      holds and answer with the mismatch message, unless the VOID post itself
      raised. */
  method FinishPurchase(gw: SecurePayGateway, t: Transport, money: Value, options: Options,
                        post: PostHash<Key>, sale: Outcome)
    returns (out: Outcome)
    requires post.Valid()
    modifies post, t
    ensures var rest := AfterSale(gw, t.respond, |old(t.sent)|, money, options, old(post.contents), sale);
      out == rest.outcome && t.sent == old(t.sent) + rest.requests
  {
    ghost var rest := AfterSale(gw, t.respond, |t.sent|, money, options, post.contents, sale);
    if !sale.Completed? || !sale.response.success || Get(options, "test") == Str("test") ||
       sale.response.avsCode in gw.validAvsCodes {
      assert rest.requests == [];
      assert t.sent + [] == t.sent;
      return sale;
    }
    ghost var voidFields := VoidFields(gw, post.contents, sale.response, money);
    ghost var voidRequest := Request(Url(gw), PostData(gw, VOID, voidFields));
    assert rest.requests == [voidRequest];
    post.Set(VoidRecNum, Str(Strip(sale.response.voidrecnum.GetOr(""))));
    var voided := Commit(gw, t, VOID, money, post);
    assert post.contents == voidFields;
    assert voided == Exchange(gw, t.respond(|old(t.sent)|, voidRequest.url, voidRequest.body));
    if voided.TransportFailure? {
      out := TransportFailure;
    } else {
      out := Completed(MismatchResponse(gw, sale.response));
    }
  }

  /** The SALE commit of the hash `post` holds, then the rest of
      `purchase`. */
  method SaleThenVoid(gw: SecurePayGateway, t: Transport, money: Value, options: Options, post: PostHash<Key>)
    returns (out: Outcome)
    requires post.Valid()
    modifies post, t
    ensures var run := SaleRun(gw, t.respond, |old(t.sent)|, money, options, old(post.contents));
      out == run.outcome && t.sent == old(t.sent) + run.requests
  {
    ghost var n := |t.sent|;
    var sale := Commit(gw, t, SALE, money, post);
    ghost var saleFields := post.contents;
    ghost var saleRequest := Request(Url(gw), PostData(gw, SALE, saleFields));
    assert t.sent == old(t.sent) + [saleRequest];
    ghost var rest := AfterSale(gw, t.respond, n + 1, money, options, saleFields, sale);
    assert SaleRun(gw, t.respond, n, money, options, old(post.contents)) == Run(rest.outcome, [saleRequest] + rest.requests);
    ghost var mid := t.sent;
    assert |mid| == n + 1;
    out := FinishPurchase(gw, t, money, options, post, sale);
    assert t.sent == mid + rest.requests;
    AppendAssoc(old(t.sent), [saleRequest], rest.requests);
  }

  /** `purchase(money, creditcard, options)`. */
  method Purchase(gw: SecurePayGateway, t: Transport, money: Value, card: CreditCard, options: Options)
    returns (out: Outcome)
    modifies t
    ensures out == PurchaseRun(gw, t.respond, |old(t.sent)|, money, card, options).outcome
    ensures t.sent == old(t.sent) + PurchaseRun(gw, t.respond, |old(t.sent)|, money, card, options).requests
  {
    var post := SalePost(gw, money, card, options);
    out := SaleThenVoid(gw, t, money, options, post);
  }

  /** `void(authorization)`. */
  method Void(gw: SecurePayGateway, t: Transport, authorization: Value) returns (out: Outcome)
    modifies t
    ensures out == VoidRun(gw, t.respond, |old(t.sent)|, authorization).outcome
    ensures t.sent == old(t.sent) + VoidRun(gw, t.respond, |old(t.sent)|, authorization).requests
  {
    var post := new PostHash<Key>();
    post.Set(TransId, authorization);
    out := Commit(gw, t, VOID, Nil, post);
  }

  /** `credit(money, identification, options)`. */
  method Credit(gw: SecurePayGateway, t: Transport, money: Value, identification: Value, options: Options)
    returns (out: Outcome)
    modifies t
    ensures out == CreditRun(gw, t.respond, |old(t.sent)|, money, identification, options).outcome
    ensures t.sent == old(t.sent) + CreditRun(gw, t.respond, |old(t.sent)|, money, identification, options).requests
  {
    var missing := FirstMissing(options, ["card_number"]);
    if missing.Some? {
      return MissingParameter(missing.value);
    }
    var post := new PostHash<Key>();
    post.Set(TransId, identification);
    post.Set(CardNum, Get(options, "card_number"));
    AddInvoice(post, options);
    out := Commit(gw, t, CREDIT, money, post);
  }
}
