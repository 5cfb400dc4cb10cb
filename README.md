# ZMTransportRequest, modelled in Dafny

This project models the request descriptor of Wire's iOS transport layer,
`ZMTransportRequest`, as its public header declares it. A request is the unit
of work the application hands to the transport layer: a path, an HTTP method,
an optional structured payload, an authentication policy, the media types it
accepts, and a few flags that steer how the transport layer sends it.

The implementation file of the class is not part of this model, so the model
states the contract the header gives through its enums, its readonly
properties and its documentation comments:

- `method.dfy` (module `TransportRequestMethod`): the five methods and the
  converters `stringForMethod:` / `methodFromString:`, proved inverse. The
  method names are HTTP tokens (section 3.2.6 of RFC 7230; section 4.1 of
  RFC 7231) in upper case.
- `auth.dfy` (module `TransportRequestAuth`): the three authentication
  policies and the three properties each gives a request
  (`needsAuthentication`, `responseWillContainAccessToken`,
  `responseWillContainCookie`).
- `accept.dfy` (module `TransportAccept`): the three accept policies and the
  `Accept` header value of each. Each value is a media range in the sense of
  section 5.3.2 of RFC 7231. The mapping is one-to-one. The header parses
  no Accept value; `AcceptFromHeaderValue` is a specification inverse of the
  mapping, used to state that it loses nothing.
- `http_syntax.dfy` (module `HttpSyntax`): the token and media-range grammar
  those values follow.
- `request.dfy` (module `TransportRequest`): the class `Request`. Its
  construction-time state is `const`. It has the initializers and
  convenience factories, and methods that change the four mutable flags in
  place. The mutable flags are also given as a value, `Settings`. The pure
  function `Apply` gives the effect of one call on that value, and
  `ApplyAll` the effect of a sequence of calls. Each method's contract ties
  the object's new settings to `Apply` of its old ones. The lemmas about
  `ApplyAll` prove that the session-routing flags are monotone: once forced,
  a routing flag stays set. A routing flag is set exactly when it was forced.
  The last value written to a settable flag is the one kept, whatever other
  calls follow it. The constructor `Request.WithOptions` matches no
  initializer of the header: it is the internal initializer the factories
  build on.

Assumptions the header leaves open, and how the model settles them:

- `methodFromString:` on a string that names no method: the header declares
  no error result. The model answers `None` rather than inventing a default
  method.
- The header comments state only part of the three authentication
  properties. For the remaining values the model follows the policy names:
  only `CreatesCookieAndAccessToken` yields a token or a cookie.
  `TransportRequestAuth.Properties` states the commented part as its
  contract, plus the cookie of `CreatesCookieAndAccessToken`, which comes
  from that policy's name (comment 69 mentions only the token).
- A new request has all four flags off. Objective-C zeroes instance
  variables, and the header offers only calls that turn the routing flags on.
- The accept policy is `TransportData` for every construction form except
  `imageGetRequestFromPath:`, which accepts `Image`. The header does not
  state the default.
- The `requestWithPath:…` factories and the GET and PUT convenience forms
  behave like `initWithPath:method:payload:`, so they too need
  authentication. This follows the Cocoa convention that a class factory
  wraps the matching initializer. `emptyPutRequestWithPath:` carries no
  payload.
- `shouldCompress` holds the construction argument. `compressedGetFromPath:`
  turns it on; every other form leaves it off.

## Model

| member | source | states |
|---|---|---|
| `TransportRequestMethod.StringForMethod` | Source/Public/ZMTransportRequest.h:58-64 | each constant's name is the HTTP method it stands for: GET's name is `GET`, DELETE's `DELETE`, PUT's `PUT`, POST's `POST`, HEAD's `HEAD`; each is a non-empty upper-case HTTP token |
| `TransportRequestMethod.MethodFromString` | Source/Public/ZMTransportRequest.h:82 | an answer is a method whose name is exactly the string; no answer only when no method has that name |
| `TransportRequestMethod.StringForMethodInjective` | Source/Public/ZMTransportRequest.h:81 | distinct methods have distinct names |
| `TransportRequestMethod.MethodRoundTrip` | Source/Public/ZMTransportRequest.h:81-82 | `methodFromString(stringForMethod(m)) == m` for every method |
| `TransportRequestAuth.Properties` | Source/Public/ZMTransportRequest.h:66-70 | `None` needs no token and yields none; `NeedsAccess` needs authentication; `CreatesCookieAndAccessToken` needs none but yields a token and a cookie |
| `TransportRequestAuth.NeedsAuthenticationExcludesNewToken` | Source/Public/ZMTransportRequest.h:113-114 | no policy both needs a token and expects a new one in the response; this rests on the model giving `NeedsAccess` no token, a value taken from the policy's name, not from comments 68 or 113-114 |
| `TransportRequestAuth.PropertiesInjective` | Source/Public/ZMTransportRequest.h:113-115 | the three properties determine the policy |
| `TransportAccept.AcceptHeaderValue` | Source/Public/ZMTransportRequest.h:72-76 | `Anything` maps to `*/*`, `TransportData` to `application/json`, `Image` to `image/*`, and each value is a media range of section 5.3.2 of RFC 7231 |
| `TransportAccept.AcceptFromHeaderValue` | Source/Public/ZMTransportRequest.h:73-75 | specification inverse of the documented mapping (the header itself parses no Accept value): an answer is the policy whose header value is exactly the string; no answer only when no policy maps to it |
| `TransportAccept.AcceptHeaderValueInjective` | Source/Public/ZMTransportRequest.h:73-75 | distinct accept policies map to distinct header values |
| `TransportAccept.AcceptRoundTrip` | Source/Public/ZMTransportRequest.h:73-75 | reading back a policy's header value through the specification inverse gives the policy |
| `TransportRequest.Apply` | Source/Public/ZMTransportRequest.h:118-123 | forcing a session sets its flag and clears no routing flag; a setter stores its value; every flag the call is not about keeps its value |
| `TransportRequest.ApplyAll` | Source/Public/ZMTransportRequest.h:121-123 | over any sequence of calls, a routing flag that was set stays set |
| `TransportRequest.ApplyAllAppend` | Source/Public/ZMTransportRequest.h:118-123 | running two call sequences in turn equals running their concatenation |
| `TransportRequest.BackgroundSessionIffForced` | Source/Public/ZMTransportRequest.h:140-141 | after a sequence of calls the request uses only the background session if and only if it already did or `forceToBackgroundSession` was among the calls |
| `TransportRequest.VoipSessionIffForced` | Source/Public/ZMTransportRequest.h:143-144 | after a sequence of calls the request uses the VoIP session if and only if it already did or `forceToVoipSession` was among the calls |
| `TransportRequest.FailInsteadOfRetryKept` | Source/Public/ZMTransportRequest.h:118 | a sequence with no write to `shouldFailInsteadOfRetry` leaves that flag as it was |
| `TransportRequest.NotFollowRedirectsKept` | Source/Public/ZMTransportRequest.h:119 | a sequence with no write to `doesNotFollowRedirects` leaves that flag as it was |
| `TransportRequest.FailInsteadOfRetryLastWriteWins` | Source/Public/ZMTransportRequest.h:118 | after any calls, a write of `shouldFailInsteadOfRetry`, then any calls that do not write it, the flag holds the written value |
| `TransportRequest.NotFollowRedirectsLastWriteWins` | Source/Public/ZMTransportRequest.h:119 | after any calls, a write of `doesNotFollowRedirects`, then any calls that do not write it, the flag holds the written value |
| `TransportRequest.Request.MethodAsString` | Source/Public/ZMTransportRequest.h:106 | the request's method name is a token that reads back as its method |
| `TransportRequest.Request.AuthenticationProperties` | Source/Public/ZMTransportRequest.h:113-115 | the request's three authentication properties follow its policy as the enum documents |
| `TransportRequest.Request.constructor` | Source/Public/ZMTransportRequest.h:84-85 | captures path, method and payload; policy `NeedsAccess`, so `needsAuthentication` holds; all flags off |
| `TransportRequest.Request.WithAuthentication` | Source/Public/ZMTransportRequest.h:86 | captures path, method, payload and the given policy; all flags off |
| `TransportRequest.Request.RequestWithPath` | Source/Public/ZMTransportRequest.h:88 | a fresh request as `initWithPath:method:payload:` builds it |
| `TransportRequest.Request.RequestWithPathCompressing` | Source/Public/ZMTransportRequest.h:89 | as above, with `shouldCompress` the given value |
| `TransportRequest.Request.RequestGetFromPath` | Source/Public/ZMTransportRequest.h:91 | a fresh GET for the path, no payload, needing authentication |
| `TransportRequest.Request.CompressedGetFromPath` | Source/Public/ZMTransportRequest.h:92 | a fresh GET for the path, no payload, `shouldCompress` on |
| `TransportRequest.Request.EmptyPutRequestWithPath` | Source/Public/ZMTransportRequest.h:95 | a fresh PUT for the path with no payload |
| `TransportRequest.Request.ImageGetRequestFromPath` | Source/Public/ZMTransportRequest.h:96 | a fresh GET for the path that accepts `Image`, whose header value is `image/*` |
| `TransportRequest.Request.ForceToBackgroundSession` | Source/Public/ZMTransportRequest.h:140-141 | `shouldUseOnlyBackgroundSession` becomes true; only that field may change, so path, method and payload are untouched |
| `TransportRequest.Request.ForceToVoipSession` | Source/Public/ZMTransportRequest.h:143-144 | `shouldUseVoipSession` becomes true; only that field may change, so path, method and payload are untouched |
| `TransportRequest.Request.SetShouldFailInsteadOfRetry` | Source/Public/ZMTransportRequest.h:118 | the flag takes the given value; nothing else changes |
| `TransportRequest.Request.SetDoesNotFollowRedirects` | Source/Public/ZMTransportRequest.h:119 | the flag takes the given value; nothing else changes |

## Left out

- Handler wrappers `ZMCompletionHandler`, `ZMTaskCreatedHandler`, `ZMTaskProgressHandler` and their group queues (lines 30-56): they bind Objective-C blocks to dispatch queues, which is concurrency.
- Handler registration and firing, `addTaskCreatedHandler:`, `addCompletionHandler:`, `addProgressHandler:`, `callTaskCreationHandlersWithIdentifier:sessionIdentifier:`, `completeWithResponse:`, `updateProgress:` (lines 127-132): the header states no semantics for them, and progress is a `float`.
- `ZMTransportResponse`, `ZMTaskIdentifier`, `ZMURLSession` (lines 24-28): declared as opaque foreign types. `ZMTransportData` is the opaque value `Payload`.
- Expiration, `expireAfterInterval:`, `expireAtDate:`, `expirationDate`, `ZMTransportRequestDefaultExpirationInterval` (lines 35, 116, 135-136): these depend on a wall clock and floating-point time.
- `isEqualToRequest:` and `addValue:forAdditionalHeaderField:` (lines 133-134): the header does not state what they compare or store.
- `hasRequiredPayload` (line 138): the header gives no rule for it.
- Binary and file bodies, `uploadRequestWithFileURL:path:contentType:` and the `binaryData:type:contentDisposition:` initializers with `binaryData`, `fileUploadURL`, `binaryDataType`, `contentDisposition` (lines 93, 102-103, 110-112, 125): file I/O and Foundation data. The compression itself is also left out; only the flag is kept.
- The multipart image-upload category (lines 151-166): only declared, and the part layout and boundary encoding are not visible.
- The Debugging category (lines 172-182): diagnostic metadata and timestamps.
- Mutual exclusion of the two routing flags: the header does not say that forcing one session rejects the other. In the model both flags can be on at once.
