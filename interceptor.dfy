/**
 * The alternative maintenance interceptor: a request passes through when it
 * comes from a whitelisted IP or its path matches the whitelisted path
 * pattern; every other request gets a 503.
 *
 * The two environment variables are read once, when the module loads; an
 * unset or empty variable is written "".
 */
module Interceptor {
  import opened Wrappers
  import opened Text
  import Http

  datatype Env = Env(whitelistIps: string, whitelistPath: string)

  /** What the interceptor reads of a request: `request.cf.ip` and the URL's path. */
  datatype Request = Request(ip: Option<string>, path: string)

  /** The characters with a meaning of their own in a JavaScript regular expression. */
  predicate IsRegexSpecial(c: char) {
    c in ".*+?^${}()|[]\\"
  }

  function CountSpecial(s: string): nat {
    if s == [] then 0 else (if IsRegexSpecial(s[0]) then 1 else 0) + CountSpecial(s[1..])
  }

  /** How `sanitizeRegexInput` writes one character. */
  function EscapeChar(c: char): string {
    if IsRegexSpecial(c) then ['\\', c] else [c]
  }

  /** `sanitizeRegexInput(input)`: a backslash before every special character. */
  function SanitizeRegexInput(input: string): (r: string)
    ensures |r| == |input| + CountSpecial(input)
  {
    if input == [] then "" else EscapeChar(input[0]) + SanitizeRegexInput(input[1..])
  }

  /** Escaping works character by character. */
  lemma {:induction false} SanitizeConcat(a: string, b: string)
    ensures SanitizeRegexInput(a + b) == SanitizeRegexInput(a) + SanitizeRegexInput(b)
  {
    if a == [] {
      assert a + b == b;
    } else {
      assert (a + b)[0] == a[0];
      assert (a + b)[1..] == a[1..] + b;
      SanitizeConcat(a[1..], b);
    }
  }

  /**
   * The text matched by a pattern made only of literal atoms (an ordinary
   * character, or a backslash and a special character), or None for a
   * pattern that uses any other regular-expression syntax.
   */
  function LiteralText(pattern: string): Option<string>
  {
    if pattern == [] then Some("")
    else if pattern[0] == '\\' then
      if |pattern| >= 2 && IsRegexSpecial(pattern[1]) then
        match LiteralText(pattern[2..])
        case Some(rest) => Some([pattern[1]] + rest)
        case None => None
      else None
    else if IsRegexSpecial(pattern[0]) then None
    else
      match LiteralText(pattern[1..])
      case Some(rest) => Some([pattern[0]] + rest)
      case None => None
  }

  /** An escaped input is a literal pattern for exactly that input: removing each inserted backslash gives it back. */
  lemma {:induction false} SanitizeRoundTrip(input: string)
    ensures LiteralText(SanitizeRegexInput(input)) == Some(input)
  {
    if input != [] {
      var c := input[0];
      var tail := SanitizeRegexInput(input[1..]);
      SanitizeRoundTrip(input[1..]);
      var p := SanitizeRegexInput(input);
      assert p == EscapeChar(c) + tail;
      if IsRegexSpecial(c) {
        assert p[0] == '\\' && p[1] == c && p[2..] == tail;
        assert LiteralText(p) == Some([c] + input[1..]);
      } else {
        assert p[0] == c && p[1..] == tail;
        assert LiteralText(p) == Some([c] + input[1..]);
      }
      assert [c] + input[1..] == input;
    }
  }

  /** And the escaped form is the only literal pattern for a text. */
  lemma {:induction false} LiteralPatternIsSanitized(pattern: string, text: string)
    requires LiteralText(pattern) == Some(text)
    ensures pattern == SanitizeRegexInput(text)
    decreases |pattern|
  {
    if pattern != [] {
      if pattern[0] == '\\' {
        var rest := LiteralText(pattern[2..]).value;
        LiteralPatternIsSanitized(pattern[2..], rest);
        assert text == [pattern[1]] + rest;
        assert text[1..] == rest;
        assert pattern == [pattern[0], pattern[1]] + pattern[2..];
      } else {
        var rest := LiteralText(pattern[1..]).value;
        LiteralPatternIsSanitized(pattern[1..], rest);
        assert text == [pattern[0]] + rest;
        assert text[1..] == rest;
        assert pattern == [pattern[0]] + pattern[1..];
      }
    }
  }

  /**
   * `new RegExp(pattern).test(subject)` for a literal pattern: its text occurs
   * somewhere in the subject. For an escaped text, that text is what is sought.
   */
  function RegexTest(pattern: string, subject: string): (r: bool)
    requires LiteralText(pattern).Some?
    ensures forall text :: pattern == SanitizeRegexInput(text) ==> (r <==> Contains(subject, text))
  {
    EscapedPatternText(pattern);
    Contains(subject, LiteralText(pattern).value)
  }

  /** The text a pattern escapes is the text it matches literally. */
  lemma EscapedPatternText(pattern: string)
    ensures forall text :: pattern == SanitizeRegexInput(text) ==> LiteralText(pattern) == Some(text)
  {
    forall text | pattern == SanitizeRegexInput(text)
      ensures LiteralText(pattern) == Some(text)
    {
      SanitizeRoundTrip(text);
    }
  }

  /** `WHITELIST_IPS`: null when unset, otherwise the comma-separated pieces. */
  function WhitelistIps(env: Env): (r: Option<seq<string>>)
    ensures r.None? <==> env.whitelistIps == ""
    ensures r.Some? ==> |r.value| >= 1 && Join(r.value, ',') == env.whitelistIps
    ensures r.Some? ==> forall k :: 0 <= k < |r.value| ==> ',' !in r.value[k]
  {
    if env.whitelistIps == "" then None
    else
      JoinSplit(env.whitelistIps, ',');
      Some(Split(env.whitelistIps, ','))
  }

  /** `WHITELIST_PATH`: null when unset, otherwise the escaped pattern. */
  function WhitelistPath(env: Env): (r: Option<string>)
    ensures r.None? <==> env.whitelistPath == ""
    ensures r.Some? ==> LiteralText(r.value) == Some(env.whitelistPath)
  {
    if env.whitelistPath == "" then None
    else
      SanitizeRoundTrip(env.whitelistPath);
      Some(SanitizeRegexInput(env.whitelistPath))
  }

  /** `isWhitelistedIp(ip)`: a missing IP is never on the list, and a listed IP is written in the variable. */
  function IsWhitelistedIp(env: Env, ip: Option<string>): (r: bool)
    ensures ip.None? || env.whitelistIps == "" ==> !r
    ensures r ==> Contains(env.whitelistIps, ip.value)
  {
    if WhitelistIps(env).Some? && ip.Some? && ip.value in WhitelistIps(env).value then
      var parts := WhitelistIps(env).value;
      var k :| 0 <= k < |parts| && parts[k] == ip.value;
      JoinContainsPart(parts, ',', k);
      true
    else false
  }

  /** `isWhitelistedPath(requestPath)`: because the pattern is escaped, plain substring containment. */
  function IsWhitelistedPath(env: Env, path: string): (r: bool)
    ensures r <==> env.whitelistPath != "" && Contains(path, env.whitelistPath)
  {
    WhitelistPath(env).Some? && RegexTest(WhitelistPath(env).value, path)
  }

  /** An IP is whitelisted iff it is one of the comma-separated fields of the variable. */
  lemma WhitelistedIpIsField(env: Env, parts: seq<string>, ip: string)
    requires |parts| >= 1 && forall k :: 0 <= k < |parts| ==> ',' !in parts[k]
    requires env.whitelistIps == Join(parts, ',') && env.whitelistIps != ""
    ensures IsWhitelistedIp(env, Some(ip)) <==> ip in parts
    ensures !IsWhitelistedIp(env, None)
  {
    SplitJoin(parts, ',');
  }

  const MaintenancePage := "\n    <!DOCTYPE html>\n    ...\n    </html>\n  "

  /** `handleRequest(request)`. */
  function HandleRequest(env: Env, req: Request): (r: Http.Outcome)
    ensures r.PassThrough? <==>
      (IsWhitelistedIp(env, req.ip) || (env.whitelistPath != "" && Contains(req.path, env.whitelistPath)))
    ensures r.Respond? ==> r.response.status == 503 && r.response.statusText == "Service Unavailable"
    ensures r.Respond? ==> Http.GetHeader(r.response.headers, "cache-control") == Some("no-store")
    ensures r.Respond? ==> Http.GetHeader(r.response.headers, "content-type") == Some("text/html;charset=UTF-8")
    ensures r.Respond? ==> r.response.body == MaintenancePage
  {
    if IsWhitelistedIp(env, req.ip) || IsWhitelistedPath(env, req.path) then Http.PassThrough
    else
      var pairs := [("content-type", "text/html;charset=UTF-8"), ("cache-control", "no-store")];
      assert pairs[0].0[1] != pairs[1].0[1];
      Http.HeadersOfLast(pairs, 0);
      Http.HeadersOfLast(pairs, 1);
      Http.Respond(Http.Response(503, "Service Unavailable", Http.HeadersOf(pairs), MaintenancePage))
  }
}
