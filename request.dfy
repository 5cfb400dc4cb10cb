/**
 * ZMTransportRequest: the descriptor of one outbound request. What it is
 * built with (path, method, payload, authentication policy, accepted media
 * types, compression flag) is fixed at construction; the two session-routing
 * flags and the two settable policy flags change in place.
 */
module TransportRequest {
  import opened Wrappers
  import opened TransportRequestMethod
  import A = TransportRequestAuth
  import opened TransportAccept

  /** A value conforming to ZMTransportData; the request only carries it. */
  datatype Payload = Payload(document: string)

  /** The part of a request that changes after construction. */
  datatype Settings = Settings(
    shouldUseOnlyBackgroundSession: bool,
    shouldUseVoipSession: bool,
    shouldFailInsteadOfRetry: bool,
    doesNotFollowRedirects: bool)

  /** A new request has every flag off. */
  const INITIAL_SETTINGS := Settings(false, false, false, false)

  /** The calls that change a request's settings. */
  datatype Change =
    | ForceBackground
    | ForceVoip
    | FailInsteadOfRetry(fail: bool)
    | NotFollowRedirects(noRedirects: bool)

  /**
   * The settings after one call: forcing a session turns its flag on and
   * turns nothing off; a setter stores its value; every other flag is kept.
   */
  function Apply(s: Settings, c: Change): (r: Settings)
    ensures s.shouldUseOnlyBackgroundSession ==> r.shouldUseOnlyBackgroundSession
    ensures s.shouldUseVoipSession ==> r.shouldUseVoipSession
    ensures c == ForceBackground ==> r.shouldUseOnlyBackgroundSession
    ensures c == ForceVoip ==> r.shouldUseVoipSession
    ensures c.FailInsteadOfRetry? ==> r.shouldFailInsteadOfRetry == c.fail
    ensures c.NotFollowRedirects? ==> r.doesNotFollowRedirects == c.noRedirects
    ensures c != ForceBackground ==> r.shouldUseOnlyBackgroundSession == s.shouldUseOnlyBackgroundSession
    ensures c != ForceVoip ==> r.shouldUseVoipSession == s.shouldUseVoipSession
    ensures !c.FailInsteadOfRetry? ==> r.shouldFailInsteadOfRetry == s.shouldFailInsteadOfRetry
    ensures !c.NotFollowRedirects? ==> r.doesNotFollowRedirects == s.doesNotFollowRedirects
  {
    match c
    case ForceBackground => s.(shouldUseOnlyBackgroundSession := true)
    case ForceVoip => s.(shouldUseVoipSession := true)
    case FailInsteadOfRetry(b) => s.(shouldFailInsteadOfRetry := b)
    case NotFollowRedirects(b) => s.(doesNotFollowRedirects := b)
  }

  /** The settings after a sequence of calls; the routing flags are never cleared. */
  function ApplyAll(s: Settings, cs: seq<Change>): (r: Settings)
    ensures s.shouldUseOnlyBackgroundSession ==> r.shouldUseOnlyBackgroundSession
    ensures s.shouldUseVoipSession ==> r.shouldUseVoipSession
    decreases |cs|
  {
    if cs == [] then s else ApplyAll(Apply(s, cs[0]), cs[1..])
  }

  /** Running two sequences of calls one after the other is running their concatenation. */
  lemma {:induction false} ApplyAllAppend(s: Settings, cs: seq<Change>, ds: seq<Change>)
    ensures ApplyAll(s, cs + ds) == ApplyAll(ApplyAll(s, cs), ds)
    decreases |cs|
  {
    if cs == [] {
      assert cs + ds == ds;
    } else {
      assert (cs + ds)[1..] == cs[1..] + ds;
      ApplyAllAppend(Apply(s, cs[0]), cs[1..], ds);
    }
  }

  /** A request uses only the background session exactly when it did so already or was forced to. */
  lemma {:induction false} BackgroundSessionIffForced(s: Settings, cs: seq<Change>)
    ensures ApplyAll(s, cs).shouldUseOnlyBackgroundSession
      <==> s.shouldUseOnlyBackgroundSession || ForceBackground in cs
    decreases |cs|
  {
    if cs != [] {
      BackgroundSessionIffForced(Apply(s, cs[0]), cs[1..]);
      assert cs == [cs[0]] + cs[1..];
    }
  }

  /** A request uses the VoIP session exactly when it did so already or was forced to. */
  lemma {:induction false} VoipSessionIffForced(s: Settings, cs: seq<Change>)
    ensures ApplyAll(s, cs).shouldUseVoipSession
      <==> s.shouldUseVoipSession || ForceVoip in cs
    decreases |cs|
  {
    if cs != [] {
      VoipSessionIffForced(Apply(s, cs[0]), cs[1..]);
      assert cs == [cs[0]] + cs[1..];
    }
  }

  /** Calls other than its setter leave shouldFailInsteadOfRetry as it was. */
  lemma {:induction false} FailInsteadOfRetryKept(s: Settings, ds: seq<Change>)
    requires forall i | 0 <= i < |ds| :: !ds[i].FailInsteadOfRetry?
    ensures ApplyAll(s, ds).shouldFailInsteadOfRetry == s.shouldFailInsteadOfRetry
    decreases |ds|
  {
    if ds != [] {
      assert !ds[0].FailInsteadOfRetry?;
      FailInsteadOfRetryKept(Apply(s, ds[0]), ds[1..]);
    }
  }

  /** Calls other than its setter leave doesNotFollowRedirects as it was. */
  lemma {:induction false} NotFollowRedirectsKept(s: Settings, ds: seq<Change>)
    requires forall i | 0 <= i < |ds| :: !ds[i].NotFollowRedirects?
    ensures ApplyAll(s, ds).doesNotFollowRedirects == s.doesNotFollowRedirects
    decreases |ds|
  {
    if ds != [] {
      assert !ds[0].NotFollowRedirects?;
      NotFollowRedirectsKept(Apply(s, ds[0]), ds[1..]);
    }
  }

  /** The last value written to shouldFailInsteadOfRetry is kept, whatever other calls follow it. */
  lemma FailInsteadOfRetryLastWriteWins(s: Settings, cs: seq<Change>, fail: bool, ds: seq<Change>)
    requires forall i | 0 <= i < |ds| :: !ds[i].FailInsteadOfRetry?
    ensures ApplyAll(s, cs + [FailInsteadOfRetry(fail)] + ds).shouldFailInsteadOfRetry == fail
  {
    ApplyAllAppend(s, cs + [FailInsteadOfRetry(fail)], ds);
    ApplyAllAppend(s, cs, [FailInsteadOfRetry(fail)]);
    FailInsteadOfRetryKept(ApplyAll(s, cs + [FailInsteadOfRetry(fail)]), ds);
  }

  /** The last value written to doesNotFollowRedirects is kept, whatever other calls follow it. */
  lemma NotFollowRedirectsLastWriteWins(s: Settings, cs: seq<Change>, noRedirects: bool, ds: seq<Change>)
    requires forall i | 0 <= i < |ds| :: !ds[i].NotFollowRedirects?
    ensures ApplyAll(s, cs + [NotFollowRedirects(noRedirects)] + ds).doesNotFollowRedirects == noRedirects
  {
    ApplyAllAppend(s, cs + [NotFollowRedirects(noRedirects)], ds);
    ApplyAllAppend(s, cs, [NotFollowRedirects(noRedirects)]);
    NotFollowRedirectsKept(ApplyAll(s, cs + [NotFollowRedirects(noRedirects)]), ds);
  }

  class Request {
    const path: string
    const requestMethod: Method
    const payload: Option<Payload>
    const authentication: A.Auth
    const acceptedResponseMediaTypes: Accept
    const shouldCompress: bool

    var shouldUseOnlyBackgroundSession: bool
    var shouldUseVoipSession: bool
    var shouldFailInsteadOfRetry: bool
    var doesNotFollowRedirects: bool

    /** The request's current settings, as one value. */
    function CurrentSettings(): Settings
      reads this
    {
      Settings(shouldUseOnlyBackgroundSession, shouldUseVoipSession,
               shouldFailInsteadOfRetry, doesNotFollowRedirects)
    }

    /** methodAsString: the method's name, which reads back as the request's method. */
    function MethodAsString(): (s: string)
      ensures MethodFromString(s) == Some(requestMethod)
      ensures HttpSyntax.IsToken(s)
    {
      MethodRoundTrip(requestMethod);
      StringForMethod(requestMethod)
    }

    /** needsAuthentication, responseWillContainAccessToken, responseWillContainCookie. */
    function AuthenticationProperties(): (p: A.AuthProperties)
      ensures authentication == A.NeedsAccess ==> p.needsAuthentication
      ensures authentication == A.None ==> !p.needsAuthentication && !p.responseWillContainAccessToken
      ensures authentication == A.CreatesCookieAndAccessToken ==>
        !p.needsAuthentication && p.responseWillContainAccessToken && p.responseWillContainCookie
    {
      A.Properties(authentication)
    }

    /** initWithPath:method:payload: -- a request that needs authentication. */
    constructor (path: string, requestMethod: Method, payload: Option<Payload>)
      ensures this.path == path && this.requestMethod == requestMethod && this.payload == payload
      ensures authentication == A.NeedsAccess && AuthenticationProperties().needsAuthentication
      ensures acceptedResponseMediaTypes == TransportData && !shouldCompress
      ensures CurrentSettings() == INITIAL_SETTINGS
    {
      this.path := path;
      this.requestMethod := requestMethod;
      this.payload := payload;
      authentication := A.NeedsAccess;
      acceptedResponseMediaTypes := TransportData;
      shouldCompress := false;
      shouldUseOnlyBackgroundSession, shouldUseVoipSession := false, false;
      shouldFailInsteadOfRetry, doesNotFollowRedirects := false, false;
    }

    /** initWithPath:method:payload:authentication: */
    constructor WithAuthentication(path: string, requestMethod: Method, payload: Option<Payload>, authentication: A.Auth)
      ensures this.path == path && this.requestMethod == requestMethod && this.payload == payload
      ensures this.authentication == authentication
      ensures acceptedResponseMediaTypes == TransportData && !shouldCompress
      ensures CurrentSettings() == INITIAL_SETTINGS
    {
      this.path := path;
      this.requestMethod := requestMethod;
      this.payload := payload;
      this.authentication := authentication;
      acceptedResponseMediaTypes := TransportData;
      shouldCompress := false;
      shouldUseOnlyBackgroundSession, shouldUseVoipSession := false, false;
      shouldFailInsteadOfRetry, doesNotFollowRedirects := false, false;
    }

    /** The initializer the factories below build on: every construction-time field given. */
    constructor WithOptions(path: string, requestMethod: Method, payload: Option<Payload>,
                            accept: Accept, shouldCompress: bool)
      ensures this.path == path && this.requestMethod == requestMethod && this.payload == payload
      ensures authentication == A.NeedsAccess
      ensures acceptedResponseMediaTypes == accept && this.shouldCompress == shouldCompress
      ensures CurrentSettings() == INITIAL_SETTINGS
    {
      this.path := path;
      this.requestMethod := requestMethod;
      this.payload := payload;
      authentication := A.NeedsAccess;
      acceptedResponseMediaTypes := accept;
      this.shouldCompress := shouldCompress;
      shouldUseOnlyBackgroundSession, shouldUseVoipSession := false, false;
      shouldFailInsteadOfRetry, doesNotFollowRedirects := false, false;
    }

    /** requestWithPath:method:payload: */
    static method RequestWithPath(path: string, requestMethod: Method, payload: Option<Payload>) returns (r: Request)
      ensures fresh(r)
      ensures r.path == path && r.requestMethod == requestMethod && r.payload == payload
      ensures r.authentication == A.NeedsAccess && r.acceptedResponseMediaTypes == TransportData
      ensures !r.shouldCompress && r.CurrentSettings() == INITIAL_SETTINGS
    {
      r := new Request(path, requestMethod, payload);
    }

    /** requestWithPath:method:payload:shouldCompress: */
    static method RequestWithPathCompressing(path: string, requestMethod: Method, payload: Option<Payload>,
                                             shouldCompress: bool) returns (r: Request)
      ensures fresh(r)
      ensures r.path == path && r.requestMethod == requestMethod && r.payload == payload
      ensures r.authentication == A.NeedsAccess && r.acceptedResponseMediaTypes == TransportData
      ensures r.shouldCompress == shouldCompress && r.CurrentSettings() == INITIAL_SETTINGS
    {
      r := new Request.WithOptions(path, requestMethod, payload, TransportData, shouldCompress);
    }

    /** requestGetFromPath: -- a GET without a payload. */
    static method RequestGetFromPath(path: string) returns (r: Request)
      ensures fresh(r)
      ensures r.path == path && r.requestMethod == GET && r.payload == None
      ensures r.authentication == A.NeedsAccess && r.acceptedResponseMediaTypes == TransportData
      ensures !r.shouldCompress && r.CurrentSettings() == INITIAL_SETTINGS
    {
      r := new Request(path, GET, None);
    }

    /** compressedGetFromPath: -- a GET without a payload that asks for compression. */
    static method CompressedGetFromPath(path: string) returns (r: Request)
      ensures fresh(r)
      ensures r.path == path && r.requestMethod == GET && r.payload == None
      ensures r.authentication == A.NeedsAccess && r.acceptedResponseMediaTypes == TransportData
      ensures r.shouldCompress && r.CurrentSettings() == INITIAL_SETTINGS
    {
      r := new Request.WithOptions(path, GET, None, TransportData, true);
    }

    /** emptyPutRequestWithPath: -- a PUT without a payload. */
    static method EmptyPutRequestWithPath(path: string) returns (r: Request)
      ensures fresh(r)
      ensures r.path == path && r.requestMethod == PUT && r.payload == None
      ensures r.authentication == A.NeedsAccess && r.acceptedResponseMediaTypes == TransportData
      ensures !r.shouldCompress && r.CurrentSettings() == INITIAL_SETTINGS
    {
      r := new Request(path, PUT, None);
    }

    /** imageGetRequestFromPath: -- a GET without a payload that accepts images. */
    static method ImageGetRequestFromPath(path: string) returns (r: Request)
      ensures fresh(r)
      ensures r.path == path && r.requestMethod == GET && r.payload == None
      ensures r.authentication == A.NeedsAccess && r.acceptedResponseMediaTypes == Image
      ensures AcceptHeaderValue(r.acceptedResponseMediaTypes) == "image/*"
      ensures !r.shouldCompress && r.CurrentSettings() == INITIAL_SETTINGS
    {
      r := new Request.WithOptions(path, GET, None, Image, false);
    }

    /** forceToBackgroundSession: from now on the request goes only through the background session. */
    method ForceToBackgroundSession()
      modifies this`shouldUseOnlyBackgroundSession
      ensures shouldUseOnlyBackgroundSession
      ensures CurrentSettings() == Apply(old(CurrentSettings()), ForceBackground)
    {
      shouldUseOnlyBackgroundSession := true;
    }

    /** forceToVoipSession: from now on the request goes only through the VoIP session. */
    method ForceToVoipSession()
      modifies this`shouldUseVoipSession
      ensures shouldUseVoipSession
      ensures CurrentSettings() == Apply(old(CurrentSettings()), ForceVoip)
    {
      shouldUseVoipSession := true;
    }

    /** The setter of shouldFailInsteadOfRetry. */
    method SetShouldFailInsteadOfRetry(fail: bool)
      modifies this`shouldFailInsteadOfRetry
      ensures shouldFailInsteadOfRetry == fail
      ensures CurrentSettings() == Apply(old(CurrentSettings()), FailInsteadOfRetry(fail))
    {
      shouldFailInsteadOfRetry := fail;
    }

    /** The setter of doesNotFollowRedirects. */
    method SetDoesNotFollowRedirects(noRedirects: bool)
      modifies this`doesNotFollowRedirects
      ensures doesNotFollowRedirects == noRedirects
      ensures CurrentSettings() == Apply(old(CurrentSettings()), NotFollowRedirects(noRedirects))
    {
      doesNotFollowRedirects := noRedirects;
    }
  }
}
