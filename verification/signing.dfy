/** Request signing of the Naver Commerce API client: the message the
    signature covers, and the headers every call carries. HMAC-SHA256 and
    base64 are one uninterpreted function of the secret and the message. */
module Signing {
  import opened Wrappers
  import opened Text

  /** `_generate_signature`'s message: `timestamp.verb.uri`, followed by
      `.body` when the body is non-empty. */
  function SigningMessage(timestamp: string, verb: string, uri: string, body: string): (m: string)
    ensures body == [] ==> m == timestamp + "." + verb + "." + uri
    ensures body != [] ==> m == timestamp + "." + verb + "." + uri + "." + body
  {
    var base := timestamp + "." + verb + "." + uri;
    if body == [] then base else base + "." + body
  }

  /** The text before the first dot, and what follows that dot if there is
      one. */
  function SplitDot(s: string): (r: (string, Option<string>))
    ensures '.' !in r.0
    ensures r.1.None? ==> r.0 == s
    ensures r.1.Some? ==> s == r.0 + "." + r.1.value
    decreases |s|
  {
    if s == [] then ([], None)
    else if s[0] == '.' then ([], Some(s[1..]))
    else
      var (head, rest) := SplitDot(s[1..]);
      ([s[0]] + head, rest)
  }

  /** A dot-free head followed by a dot splits back into its parts. */
  lemma {:induction false} SplitDotJoin(a: string, b: string)
    requires '.' !in a
    ensures SplitDot(a + "." + b) == (a, Some(b))
    decreases |a|
  {
    var s := a + "." + b;
    if a == [] {
      assert s[1..] == b;
    } else {
      assert s[0] == a[0] && s[1..] == a[1..] + "." + b;
      assert '.' !in a[1..];
      SplitDotJoin(a[1..], b);
      assert [a[0]] + a[1..] == a;
    }
  }

  /** Dot-free text does not split. */
  lemma {:induction false} SplitDotNone(a: string)
    requires '.' !in a
    ensures SplitDot(a) == (a, None)
    decreases |a|
  {
    if a != [] {
      assert '.' !in a[1..];
      SplitDotNone(a[1..]);
    }
  }

  /** Reads timestamp, verb, URI and body back out of a signing message,
      splitting at the first three dots. */
  function ParseMessage(m: string): (r: Option<(string, string, string, string)>)
  {
    var (timestamp, r1) := SplitDot(m);
    if r1.None? then None
    else
      var (verb, r2) := SplitDot(r1.value);
      if r2.None? then None
      else
        var (uri, r3) := SplitDot(r2.value);
        Some((timestamp, verb, uri, if r3.Some? then r3.value else []))
  }

  /** With a dot-free timestamp, verb and URI, the signing message
      determines the request it signs, body included. */
  lemma SigningRoundTrip(timestamp: string, verb: string, uri: string, body: string)
    requires '.' !in timestamp && '.' !in verb && '.' !in uri
    ensures ParseMessage(SigningMessage(timestamp, verb, uri, body)) == Some((timestamp, verb, uri, body))
  {
    var m := SigningMessage(timestamp, verb, uri, body);
    var rest1 := verb + "." + uri + (if body == [] then [] else "." + body);
    var rest2 := uri + (if body == [] then [] else "." + body);
    assert m == timestamp + "." + rest1;
    SplitDotJoin(timestamp, rest1);
    assert rest1 == verb + "." + rest2;
    SplitDotJoin(verb, rest2);
    if body == [] {
      assert rest2 == uri;
      SplitDotNone(uri);
    } else {
      assert rest2 == uri + "." + body;
      SplitDotJoin(uri, body);
    }
  }

  /** Without the dot-free condition the message is ambiguous: a URI with
      a dot and an empty body is signed exactly like the shorter URI with
      the rest as its body. */
  lemma DottedUriIsAmbiguous()
    ensures SigningMessage("1", "POST", "/a.b", "") == SigningMessage("1", "POST", "/a", "b")
  {
  }

  /** The client's credentials; `accessToken` is set by authentication. */
  datatype Credentials = Credentials(clientId: string, clientSecret: string, customerId: string, accessToken: Option<string>)

  /** Python truthiness of the access token: set and non-empty. */
  predicate HasToken(c: Credentials) {
    c.accessToken.Some? && c.accessToken.value != []
  }

  /** The headers present on every call. */
  const BaseHeaderKeys: set<string> := {"Content-Type", "X-Timestamp", "X-API-KEY", "X-Customer", "X-Signature"}

  /** `_get_headers`: the timestamp is the clock in milliseconds as
      decimal text, the signature is `mac(secret, message)` (base64 of the
      HMAC-SHA256 digest in the source), and a bearer token is added when
      the client holds one. */
  function Headers(c: Credentials, mac: (string, string) -> string, millis: nat, verb: string, uri: string, body: string): (h: map<string, string>)
    ensures h.Keys == BaseHeaderKeys + (if HasToken(c) then {"Authorization"} else {})
    ensures h["Content-Type"] == "application/json"
    ensures ParseNat(h["X-Timestamp"]) == Some(millis)
    ensures h["X-API-KEY"] == c.clientId && h["X-Customer"] == c.customerId
    ensures h["X-Signature"] == mac(c.clientSecret, SigningMessage(h["X-Timestamp"], verb, uri, body))
    ensures "Authorization" in h <==> HasToken(c)
    ensures "Authorization" in h ==> h["Authorization"] == "Bearer " + c.accessToken.value
  {
    var timestamp := DigitsOf(millis);
    ParseDigitsOf(millis);
    var base := map[
      "Content-Type" := "application/json",
      "X-Timestamp" := timestamp,
      "X-API-KEY" := c.clientId,
      "X-Customer" := c.customerId,
      "X-Signature" := mac(c.clientSecret, SigningMessage(timestamp, verb, uri, body))];
    if HasToken(c) then base["Authorization" := "Bearer " + c.accessToken.value] else base
  }
}
