/** What the scripts send to and receive from an image endpoint, once transport and JSON text are
    abstracted: a request body as a JSON value and a reply that is either a parsed response, an HTTP
    error status, or an exception raised on the way. */
module Http {
  import opened Wrappers

  /** The outcome of one request. `Responded` carries the parsed body of a 2xx response;
      `HttpError` a non-2xx status with its reason phrase and body text; `Raised` any other
      failure (connection, timeout, a body that is not JSON), as the text of the exception. */
  datatype Reply<+T> =
    | Responded(json: T)
    | HttpError(status: nat, reason: string, text: string)
    | Raised(message: string)

  /** A JSON value as built for a request body. Object members keep their order. */
  datatype Json =
    | JString(str: string)
    | JNumber(num: int)
    | JArray(elems: seq<Json>)
    | JObject(members: seq<(string, Json)>)

  function Lookup(members: seq<(string, Json)>, key: string): Option<Json>
  {
    if members == [] then None
    else if members[0].0 == key then Some(members[0].1)
    else Lookup(members[1..], key)
  }

  /** The member `key` of an object, or None when the value is not an object or has no such key. */
  function Get(j: Json, key: string): Option<Json>
  {
    if j.JObject? then Lookup(j.members, key) else None
  }

  function KeysOf(members: seq<(string, Json)>): seq<string>
  {
    if members == [] then [] else [members[0].0] + KeysOf(members[1..])
  }

  /** The keys of an object, in order. */
  function Keys(j: Json): seq<string>
  {
    if j.JObject? then KeysOf(j.members) else []
  }

  /** Truthiness of an optional string field in both Python and JavaScript: present and non-empty. */
  predicate Truthy(v: Option<string>)
  {
    v.Some? && v.value != ""
  }

  /** The first `n` characters of `s` (Python's `s[:n]`). */
  function Prefix(s: string, n: nat): (r: string)
    ensures |r| == if |s| < n then |s| else n
    ensures r == s[..|r|]
  {
    if |s| <= n then s else s[..n]
  }

  function Digit(d: nat): char
    requires d < 10
  {
    "0123456789"[d]
  }

  /** A natural number in decimal without leading zeros, as Python's `str` and JavaScript's
      `String` render it. */
  function Decimal(n: nat): (r: string)
    ensures |r| > 0
    ensures forall i :: 0 <= i < |r| ==> '0' <= r[i] <= '9'
    ensures |r| > 1 ==> r[0] != '0'
  {
    if n < 10 then [Digit(n)] else Decimal(n / 10) + [Digit(n % 10)]
  }

  /** The number a string of decimal digits denotes. */
  function DecimalValue(s: string): nat
    requires forall i :: 0 <= i < |s| ==> '0' <= s[i] <= '9'
  {
    if s == [] then 0 else 10 * DecimalValue(s[..|s| - 1]) + (s[|s| - 1] as int - '0' as int)
  }

  lemma {:induction false} DecimalRoundTrip(n: nat)
    ensures DecimalValue(Decimal(n)) == n
  {
    if n >= 10 {
      var s := Decimal(n);
      assert s[..|s| - 1] == Decimal(n / 10);
      DecimalRoundTrip(n / 10);
    }
  }
}
