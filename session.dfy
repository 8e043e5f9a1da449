/**
 * What the service derives from the ascendon token alone: the
 * authorisation level (`authStatus`), the home country and the
 * subscription status (`subStatus`), and whether an entitlement token may
 * be fetched. The token is the compact serialisation of a JSON Web
 * Signature (section 7.1 of RFC 7515): header, payload and signature
 * joined by '.'; the claims are read from the payload segment.
 */
module Session {
  import opened Wrappers
  import opened Json
  import opened Text

  /**
   * Base64 decoding of a segment followed by JSON parsing and `.object()`.
   * Both are library code; the model takes the composition as given.
   */
  type Decoder = string -> map<string, Json>

  const SubscribedProductClaim: string := "SubscribedProduct"
  const HomeCountryClaim: string := "ExternalAuthorizationsContextData"

  /** `authStatus()`: "R" (registered) with a token, "A" (anonymous) without. */
  function AuthStatus(token: string): (r: string)
    ensures r == "R" || r == "A"
    ensures r == "R" <==> token != ""
    ensures r == "A" <==> token == ""
  {
    if token == "" then "A" else "R"
  }

  /**
   * `split(".").at(1)`: the payload segment. None exactly where Qt's `at(1)`
   * has no element to return, a token without any '.'.
   */
  function Payload(token: string): (p: Option<string>)
    ensures p.Some? <==> '.' in token
    ensures p.Some? ==> '.' !in p.value
  {
    var parts := Split(token, '.');
    if |parts| >= 2 then Some(parts[1]) else None
  }

  /** The tokens for which the claim readers are defined: empty, or holding a '.'. */
  predicate TokenReadable(token: string)
  {
    token == "" || '.' in token
  }

  /** The claim `name` of the token's payload, read as a string. */
  function Claim(token: string, decode: Decoder, name: string): string
    requires '.' in token
  {
    ToString(Field(decode(Payload(token).value), name))
  }

  /** `homeCountry()`: empty without a token, otherwise the payload's home-country claim. */
  function HomeCountry(token: string, decode: Decoder): (r: Option<string>)
    ensures r.Some? <==> TokenReadable(token)
    ensures token == "" ==> r == Some("")
    ensures token != "" && r.Some? ==> r.value == Claim(token, decode, HomeCountryClaim)
  {
    if token == "" then Some("")
    else match Payload(token)
      case None => None
      case Some(p) => Some(ToString(Field(decode(p), HomeCountryClaim)))
  }

  /**
   * `subStatus()`: "Anonymous" without a token, "Registered" when the
   * payload names no subscribed product, otherwise that product with every
   * space turned into '_'.
   */
  function SubStatus(token: string, decode: Decoder): (r: Option<string>)
    ensures r.Some? <==> TokenReadable(token)
    ensures token == "" ==> r == Some("Anonymous")
    ensures token != "" && r.Some? && Claim(token, decode, SubscribedProductClaim) == "" ==>
      r.value == "Registered"
    ensures token != "" && r.Some? && Claim(token, decode, SubscribedProductClaim) != "" ==>
      var product := Claim(token, decode, SubscribedProductClaim);
      |r.value| == |product| && ' ' !in r.value &&
      forall k :: 0 <= k < |product| ==> r.value[k] == (if product[k] == ' ' then '_' else product[k])
  {
    if token == "" then Some("Anonymous")
    else match Payload(token)
      case None => None
      case Some(p) =>
        var product := ToString(Field(decode(p), SubscribedProductClaim));
        if product == "" then Some("Registered") else Some(Replace(product, ' ', '_'))
  }

  /** `authStatus() == "R" && subStatus() != "Registered"`: an entitlement token may be fetched. */
  predicate EntitlementGate(token: string, decode: Decoder)
    requires TokenReadable(token)
    ensures EntitlementGate(token, decode) ==>
      token != "" && Claim(token, decode, SubscribedProductClaim) != ""
  {
    AuthStatus(token) == "R" && SubStatus(token, decode).value != "Registered"
  }

  /**
   * The gate is open exactly for a token whose payload names a subscribed
   * product that does not normalise to "Registered".
   */
  lemma EntitlementGateOpen(token: string, decode: Decoder)
    requires TokenReadable(token)
    ensures EntitlementGate(token, decode) <==>
      token != "" &&
      Claim(token, decode, SubscribedProductClaim) != "" &&
      Replace(Claim(token, decode, SubscribedProductClaim), ' ', '_') != "Registered"
  {
  }

  /** Without a token every derived claim is the anonymous one and the gate is closed. */
  lemma AnonymousSession(decode: Decoder)
    ensures AuthStatus("") == "A"
    ensures SubStatus("", decode) == Some("Anonymous")
    ensures HomeCountry("", decode) == Some("")
    ensures !EntitlementGate("", decode)
  {
  }

  /** For a compact serialisation `header.payload.signature` the payload segment is `payload`. */
  lemma PayloadOfCompactSerialisation(header: string, payload: string, signature: string)
    requires '.' !in header && '.' !in payload
    ensures Payload(header + "." + payload + "." + signature) == Some(payload)
  {
    var token := header + "." + payload + "." + signature;
    assert token == header + ['.'] + (payload + ['.'] + signature);
    SplitAfterFirst(header, payload + ['.'] + signature, '.');
    SplitAfterFirst(payload, signature, '.');
  }

  /**
   * Only the payload matters: two tokens with the same payload but other
   * headers and signatures give the same home country and subscription
   * status.
   */
  lemma ClaimsIgnoreHeaderAndSignature(
    h1: string, h2: string, payload: string, s1: string, s2: string, decode: Decoder)
    requires '.' !in h1 && '.' !in h2 && '.' !in payload
    ensures var t1, t2 := h1 + "." + payload + "." + s1, h2 + "." + payload + "." + s2;
      HomeCountry(t1, decode) == HomeCountry(t2, decode) &&
      SubStatus(t1, decode) == SubStatus(t2, decode)
  {
    PayloadOfCompactSerialisation(h1, payload, s1);
    PayloadOfCompactSerialisation(h2, payload, s2);
  }
}
