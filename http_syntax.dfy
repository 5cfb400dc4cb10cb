/**
 * The two pieces of HTTP syntax the request's string values must conform to:
 * a token (section 3.2.6 of RFC 7230, which is also the grammar of a method
 * name, section 4.1 of RFC 7231) and a media range of an Accept header
 * (section 5.3.2 of RFC 7231), without parameters.
 */
module HttpSyntax {

  /** tchar: a visible character other than a delimiter. */
  predicate IsTokenChar(c: char) {
    ('0' <= c <= '9') || ('A' <= c <= 'Z') || ('a' <= c <= 'z') || c in "!#$%&'*+-.^_`|~"
  }

  /** token = 1*tchar */
  predicate IsToken(s: string) {
    |s| > 0 && forall i :: 0 <= i < |s| ==> IsTokenChar(s[i])
  }

  /** s splits at position k into "type/subtype", where a wildcard type forces a wildcard subtype. */
  predicate IsMediaRangeAt(s: string, k: int) {
    0 <= k < |s| && s[k] == '/' && IsToken(s[..k]) && IsToken(s[k + 1..])
    && (s[..k] == "*" ==> s[k + 1..] == "*")
  }

  // media-range = ( "*" "/" "*" ) / ( type "/" "*" ) / ( type "/" subtype )
  predicate IsMediaRange(s: string) {
    exists k | 0 <= k < |s| :: IsMediaRangeAt(s, k)
  }
}
