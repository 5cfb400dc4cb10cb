/** ZMTransportRequestMethod and its converters stringForMethod: / methodFromString:. */
module TransportRequestMethod {
  import opened Wrappers
  import HttpSyntax

  /** The five request methods, in the order the enum declares them. */
  datatype Method = GET | DELETE | PUT | POST | HEAD

  /** stringForMethod: the HTTP method each constant stands for, as it appears on the request line. */
  function StringForMethod(m: Method): (s: string)
    ensures m == GET ==> s == "GET"
    ensures m == DELETE ==> s == "DELETE"
    ensures m == PUT ==> s == "PUT"
    ensures m == POST ==> s == "POST"
    ensures m == HEAD ==> s == "HEAD"
    ensures HttpSyntax.IsToken(s)
    ensures forall i :: 0 <= i < |s| ==> 'A' <= s[i] <= 'Z'
  {
    match m
    case GET => "GET"
    case DELETE => "DELETE"
    case PUT => "PUT"
    case POST => "POST"
    case HEAD => "HEAD"
  }

  /**
   * methodFromString: the method whose name is exactly s. A string that names
   * no method has no answer.
   */
  function MethodFromString(s: string): (r: Option<Method>)
    ensures r.Some? ==> StringForMethod(r.value) == s
    ensures r.None? ==> forall m :: StringForMethod(m) != s
  {
    if s == "GET" then Some(GET)
    else if s == "DELETE" then Some(DELETE)
    else if s == "PUT" then Some(PUT)
    else if s == "POST" then Some(POST)
    else if s == "HEAD" then Some(HEAD)
    else None
  }

  /** Distinct methods have distinct names. */
  lemma StringForMethodInjective(m: Method, n: Method)
    ensures StringForMethod(m) == StringForMethod(n) ==> m == n
  {
  }

  /** The two converters are inverse on the five methods. */
  lemma MethodRoundTrip(m: Method)
    ensures MethodFromString(StringForMethod(m)) == Some(m)
  {
  }
}
