/** ZMTransportAccept: the media ranges a request accepts, as an Accept header value. */
module TransportAccept {
  import opened Wrappers
  import HttpSyntax

  /** The three accept policies. */
  datatype Accept = Anything | TransportData | Image

  /** The value of the Accept header a policy maps to, as each policy documents it; always a media range. */
  function AcceptHeaderValue(a: Accept): (v: string)
    ensures a == Anything ==> v == "*/*"
    ensures a == TransportData ==> v == "application/json"
    ensures a == Image ==> v == "image/*"
    ensures HttpSyntax.IsMediaRange(v)
  {
    match a
    case Anything =>
      assert HttpSyntax.IsMediaRangeAt("*/*", 1);
      "*/*"
    case TransportData =>
      assert HttpSyntax.IsMediaRangeAt("application/json", 11);
      "application/json"
    case Image =>
      assert HttpSyntax.IsMediaRangeAt("image/*", 5);
      "image/*"
  }

  /** The policy whose Accept header value is exactly v, if there is one. */
  function AcceptFromHeaderValue(v: string): (r: Option<Accept>)
    ensures r.Some? ==> AcceptHeaderValue(r.value) == v
    ensures r.None? ==> forall a :: AcceptHeaderValue(a) != v
  {
    if v == "*/*" then Some(Anything)
    else if v == "application/json" then Some(TransportData)
    else if v == "image/*" then Some(Image)
    else None
  }

  /** The mapping onto header values is one-to-one. */
  lemma AcceptHeaderValueInjective(a: Accept, b: Accept)
    ensures AcceptHeaderValue(a) == AcceptHeaderValue(b) ==> a == b
  {
  }

  /** Reading back a policy's header value gives the policy. */
  lemma AcceptRoundTrip(a: Accept)
    ensures AcceptFromHeaderValue(AcceptHeaderValue(a)) == Some(a)
  {
  }
}
