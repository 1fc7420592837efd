/** What the adapters take from the common `Gateway` base class: the money
    formatters, `requires!` and the HTTP transport behind `ssl_post`. */
module Gateway {
  import opened RubyValues

  /** `amount(money)` and `currency(money)`: formatters of the base class,
      taken as given functions. */
  datatype Formatter = Formatter(amount: Value -> Value, currency: Value -> Value)

  /** `requires!(options, *keys)`: the first key that the options hash does
      not hold (`has_key?`), if any; the base class raises on it. */
  function FirstMissing(options: Options, keys: seq<string>): (r: Option<string>)
    ensures r.None? <==> forall i :: 0 <= i < |keys| ==> keys[i] in options
    ensures r.Some? ==> r.value in keys && r.value !in options
    ensures r.Some? ==> exists i :: 0 <= i < |keys| && keys[i] == r.value && forall j :: 0 <= j < i ==> keys[j] in options
    decreases |keys|
  {
    if keys == [] then None
    else if keys[0] !in options then Some(keys[0])
    else
      var r := FirstMissing(options, keys[1..]);
      if r.Some? then
        ghost var i :| 0 <= i < |keys[1..]| && keys[1..][i] == r.value && forall j :: 0 <= j < i ==> keys[1..][j] in options;
        assert keys[i + 1] == r.value;
        r
      else r
  }

  /** One HTTP POST: where it went and what it carried. */
  datatype Request = Request(url: string, body: string)

  /** `ssl_post` either answers with the reply body or raises. */
  datatype Reply = Delivered(body: string) | Failed

  /** The connection behind `ssl_post`.  What the processor answers is an
      oracle of the exchange's position, its url and its body; every POST is
      recorded in `sent`. */
  class Transport {
    const respond: (nat, string, string) -> Reply
    var sent: seq<Request>

    constructor (respond: (nat, string, string) -> Reply)
      ensures this.respond == respond && sent == []
    {
      this.respond := respond;
      sent := [];
    }

    /** `ssl_post(url, body)`. */
    method Post(url: string, body: string) returns (reply: Reply)
      modifies this
      ensures reply == respond(|old(sent)|, url, body)
      ensures sent == old(sent) + [Request(url, body)]
    {
      reply := respond(|sent|, url, body);
      sent := sent + [Request(url, body)];
    }
  }
}
