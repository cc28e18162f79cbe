/** The HTTP boundary of the REST adapters. A backend is an `Endpoint`: a function from
    the request the adapter sends to the reply it gets, or to a transport error. */
module Http {
  import opened Wrappers
  import opened Numeric
  import Json
  import opened Strings

  /** A status code with its canonical reason phrase, as reqwest displays it. */
  datatype StatusCode = StatusCode(code: U16, reason: string) {

    /** `StatusCode::is_success`: the 2xx range. */
    predicate IsSuccess() {
      200 <= code <= 299
    }

    /** The `Display` text, e.g. `404 Not Found`: the code in decimal, which reads back
        as the code, then a space and the reason phrase. */
    function Display(): (s: string)
      ensures var k := |DecimalString(code)|;
              && k < |s| && AllDigits(s[..k]) && ParseU64(s[..k]) == Success(code)
              && s[k] == ' ' && s[k + 1..] == reason
    {
      DecimalRoundTrip(code);
      assert (DecimalString(code) + " " + reason)[..|DecimalString(code)|] == DecimalString(code);
      DecimalString(code) + " " + reason
    }
  }

  type Query = seq<(string, string)>

  type Headers = seq<(string, string)>

  datatype Request =
    | Get(url: string, query: Query, headers: Headers)
    | PostJson(url: string, body: Json.Value, headers: Headers)

  /** A reply: its status, its body as text (`text().unwrap_or_default()`, so an
      unreadable body is the empty string) and its body decoded as `T`
      (`json::<T>()`, a foreign decoder whose error is carried as text). */
  datatype Reply<T> = Reply(status: StatusCode, text: string, json: Result<T, string>)

  /** `send()`: a transport failure is carried as its display text. */
  type Endpoint<T> = Request -> Result<Reply<T>, string>

  /** The optional `x-api-key` header every REST adapter attaches. */
  function ApiKeyHeaders(apiKey: Option<string>): (h: Headers)
    ensures apiKey.None? ==> h == []
    ensures apiKey.Some? ==> h == [("x-api-key", apiKey.value)]
  {
    match apiKey
    case Some(key) => [("x-api-key", key)]
    case None => []
  }

  /** The parameter names of a query, in order. */
  function Keys(q: Query): (ks: seq<string>)
    ensures |ks| == |q|
    ensures forall i :: 0 <= i < |q| ==> ks[i] == q[i].0
  {
    seq(|q|, i requires 0 <= i < |q| => q[i].0)
  }

  /** The value of the first parameter named `key`, if any. */
  function Lookup(q: Query, key: string): (v: Option<string>)
    ensures v.None? <==> forall i :: 0 <= i < |q| ==> q[i].0 != key
    ensures v.Some? ==> exists i :: 0 <= i < |q| && q[i] == (key, v.value)
                                    && forall j :: 0 <= j < i ==> q[j].0 != key
    decreases |q|
  {
    if |q| == 0 then None
    else if q[0].0 == key then Some(q[0].1)
    else
      var rest := Lookup(q[1..], key);
      assert forall i :: 1 <= i < |q| ==> q[i] == q[1..][i - 1];
      rest
  }

  /** The first parameter named `key` is the one a lookup finds. */
  lemma LookupFirst(q: Query, i: int, key: string)
    requires 0 <= i < |q| && q[i].0 == key
    requires forall j :: 0 <= j < i ==> q[j].0 != key
    ensures Lookup(q, key) == Some(q[i].1)
  {
    var v := Lookup(q, key).value;
    var i' :| 0 <= i' < |q| && q[i'] == (key, v) && forall j :: 0 <= j < i' ==> q[j].0 != key;
    assert !(i' < i) && !(i < i');
  }

  /** A query that opens with distinct keys: each of them is found at its position. */
  lemma LookupLeading(q: Query, keys: seq<string>)
    requires |keys| <= |q|
    requires forall i :: 0 <= i < |keys| ==> q[i].0 == keys[i]
    requires forall i, j :: 0 <= i < j < |keys| ==> keys[i] != keys[j]
    ensures forall i :: 0 <= i < |keys| ==> Lookup(q, keys[i]) == Some(q[i].1)
  {
    forall i | 0 <= i < |keys|
      ensures Lookup(q, keys[i]) == Some(q[i].1)
    {
      LookupFirst(q, i, keys[i]);
    }
  }

  /** A query whose keys are exactly `keys` does not find a key outside them. */
  lemma LookupNotAmong(q: Query, keys: seq<string>, key: string)
    requires |keys| == |q|
    requires forall i :: 0 <= i < |keys| ==> q[i].0 == keys[i]
    requires key !in keys
    ensures Lookup(q, key) == None
  {
  }
}
