/** ZMTransportRequestAuth and the three properties a request derives from it. */
module TransportRequestAuth {

  /** The three authentication policies a request can follow. */
  datatype Auth = None | NeedsAccess | CreatesCookieAndAccessToken

  /** needsAuthentication, responseWillContainAccessToken and responseWillContainCookie. */
  datatype AuthProperties = AuthProperties(
    needsAuthentication: bool,
    responseWillContainAccessToken: bool,
    responseWillContainCookie: bool)

  /**
   * The properties a policy gives a request. The contract is what the enum's
   * documentation says of each policy; the remaining values follow from the
   * policies' names (only the last one creates a cookie or a token).
   */
  function Properties(a: Auth): (p: AuthProperties)
    ensures a == None ==> !p.needsAuthentication && !p.responseWillContainAccessToken
    ensures a == NeedsAccess ==> p.needsAuthentication
    ensures a == CreatesCookieAndAccessToken ==>
      !p.needsAuthentication && p.responseWillContainAccessToken && p.responseWillContainCookie
  {
    match a
    case None => AuthProperties(false, false, false)
    case NeedsAccess => AuthProperties(true, false, false)
    case CreatesCookieAndAccessToken => AuthProperties(false, true, true)
  }

  /** A request never both needs a token and expects one back. */
  lemma NeedsAuthenticationExcludesNewToken(a: Auth)
    ensures Properties(a).needsAuthentication ==> !Properties(a).responseWillContainAccessToken
  {
  }

  /** The three properties determine the policy. */
  lemma PropertiesInjective(a: Auth, b: Auth)
    ensures Properties(a) == Properties(b) ==> a == b
  {
  }
}
