/**
 * Request and response hardening for the maintenance worker: security
 * headers, bot detection by User-Agent, and a Host allowlist.
 */
module Security {
  import opened Wrappers
  import opened Text
  import opened Lists
  import Http

  /** The headers every hardened response carries, in the order they are set. */
  const SecurityHeaders: seq<(string, string)> := [
    ("X-Frame-Options", "DENY"),
    ("X-XSS-Protection", "1; mode=block"),
    ("X-Content-Type-Options", "nosniff"),
    ("Content-Security-Policy", "default-src 'self'; img-src 'self' https:; style-src 'self' 'unsafe-inline'; font-src 'self' https:; script-src 'none';"),
    ("Strict-Transport-Security", "max-age=31536000; includeSubDomains; preload"),
    ("Referrer-Policy", "strict-origin-when-cross-origin"),
    ("Permissions-Policy", "camera=(), microphone=(), geolocation=(), interest-cohort=()")
  ]

  /** The literal text of each bot pattern; each is matched ignoring case. */
  const BotPatterns: seq<string> := [
    "bot", "spider", "crawl", "lighthouse", "slurp", "pingdom",
    "archive.org", "facebookexternalhit", "whatsapp"
  ]

  // ---------------------------------------------------------------------
  // Bots

  /** `isBot(request)`, given the request's User-Agent header (a missing one reads as ""). */
  function IsBot(userAgent: Option<string>): (r: bool)
    ensures r <==> exists k :: 0 <= k < |BotPatterns| && ContainsIgnoringCase(userAgent.GetOr(""), BotPatterns[k])
  {
    AnyMatches(BotPatterns, (pattern: string) => ContainsIgnoringCase(userAgent.GetOr(""), pattern))
  }

  /** A request without a User-Agent, or with an empty one, is not a bot. */
  lemma MissingUserAgentIsNotBot()
    ensures !IsBot(None) && !IsBot(Some(""))
  {
    forall k | 0 <= k < |BotPatterns|
      ensures !ContainsIgnoringCase("", BotPatterns[k])
    {
      assert |Lower(BotPatterns[k])| > 0;
    }
  }

  /** A User-Agent holding a pattern in any mix of case is a bot. */
  lemma CapitalisedCrawlerIsBot()
    ensures IsBot(Some("Mozilla/5.0 (compatible; Googlebot/2.1)"))
    ensures IsBot(Some("WhatsApp/2.23"))
  {
    var ua := "Mozilla/5.0 (compatible; Googlebot/2.1)";
    ContainsIgnoringCaseAt(ua, BotPatterns[0], 31);
    ContainsIgnoringCaseAt("WhatsApp/2.23", BotPatterns[8], 0);
  }

  /** An ordinary browser User-Agent holds none of the patterns. */
  lemma BrowserIsNotBot()
    ensures !IsBot(Some("Mozilla/5.0"))
  {
    var lower := Lower("Mozilla/5.0");
    assert lower == "mozilla/5.0";
    forall k | 0 <= k < |BotPatterns|
      ensures !Contains(lower, Lower(BotPatterns[k]))
    {
      var t := Lower(BotPatterns[k]);
      assert |t| == |BotPatterns[k]| && t[0] == LowerChar(BotPatterns[k][0]);
      FirstCharAbsent(lower, t);
    }
  }

  /** Text whose first character appears at no possible start is not contained. */
  lemma FirstCharAbsent(s: string, t: string)
    requires |t| > 0
    requires forall i :: 0 <= i <= |s| - |t| ==> s[i] != t[0]
    ensures !Contains(s, t)
  {
    forall i | 0 <= i <= |s| - |t|
      ensures !OccursAt(s, t, i)
    {
      assert s[i..i + |t|][0] == s[i];
    }
  }

  // ---------------------------------------------------------------------
  // Hosts

  /** One allowlist entry: `*.d` matches a host ending in `d` and longer than it; any other entry matches itself. */
  function HostEntryMatches(host: string, entry: string): (r: bool)
    ensures r && StartsWith(entry, "*.") ==> EndsWith(host, entry[2..]) && host != entry[2..]
    ensures !StartsWith(entry, "*.") ==> (r <==> host == entry)
    ensures StartsWith(entry, "*.") && EndsWith(host, entry[2..]) && host != entry[2..] ==> r
  {
    if StartsWith(entry, "*.") then
      var domain := entry[2..];
      EndsWith(host, domain) && |host| > |domain|
    else host == entry
  }

  /** `isValidHost(request, allowedHosts)`, given the request URL's hostname. */
  function IsValidHost(host: string, allowedHosts: seq<string>): (r: bool)
    ensures allowedHosts == [] ==> r
    ensures allowedHosts != [] ==> (r <==> exists k :: 0 <= k < |allowedHosts| && HostEntryMatches(host, allowedHosts[k]))
  {
    if |allowedHosts| == 0 then true
    else AnyMatches(allowedHosts, (entry: string) => HostEntryMatches(host, entry))
  }

  /** An entry without the `*.` prefix matches exactly the host it names. */
  lemma ExactEntryMatchesItself(host: string, entry: string)
    requires !StartsWith(entry, "*.")
    ensures HostEntryMatches(host, entry) <==> host == entry
  {
  }

  /** `*.d` matches iff the host ends with `d` and is longer; the bare domain `d` is rejected. */
  lemma WildcardEntryMatches(host: string, domain: string)
    ensures HostEntryMatches(host, "*." + domain) <==> EndsWith(host, domain) && |host| > |domain|
    ensures !HostEntryMatches(domain, "*." + domain)
  {
    var entry := "*." + domain;
    assert StartsWith(entry, "*.") by { assert entry[..2] == "*."; }
    assert entry[2..] == domain;
  }

  /** Adding an entry to a non-empty allowlist admits exactly the hosts that entry matches besides. */
  lemma AppendingEntryWidens(host: string, allowedHosts: seq<string>, entry: string)
    requires allowedHosts != []
    ensures IsValidHost(host, allowedHosts + [entry]) <==> IsValidHost(host, allowedHosts) || HostEntryMatches(host, entry)
  {
    var extended := allowedHosts + [entry];
    assert extended[|allowedHosts|] == entry;
    assert forall k :: 0 <= k < |allowedHosts| ==> extended[k] == allowedHosts[k];
  }

  /** As written, a wildcard entry also admits a look-alike domain that merely ends with the same text. */
  lemma WildcardAdmitsLookalike()
    ensures HostEntryMatches("evilexample.com", "*.example.com")
  {
    WildcardEntryMatches("evilexample.com", "example.com");
    assert "evilexample.com"[4..] == "example.com";
  }

  /** The evidently intended wildcard match: the host lies strictly under `.d`. */
  predicate SubdomainEntryMatches(host: string, entry: string) {
    if StartsWith(entry, "*.") then
      var domain := entry[2..];
      EndsWith(host, "." + domain) && |host| > |domain| + 1
    else host == entry
  }

  /** Under the intended match, a host admitted by `*.d` is a non-empty label sequence, a dot, then `d`. */
  lemma SubdomainEntryMeansSubdomain(host: string, domain: string)
    ensures SubdomainEntryMatches(host, "*." + domain) <==>
      exists n :: 0 < n < |host| && host[n..] == "." + domain
    ensures SubdomainEntryMatches(host, "*." + domain) ==> HostEntryMatches(host, "*." + domain)
  {
    var entry := "*." + domain;
    assert StartsWith(entry, "*.") by { assert entry[..2] == "*."; }
    assert entry[2..] == domain;
    if SubdomainEntryMatches(host, entry) {
      var n := |host| - |domain| - 1;
      assert host[n..] == "." + domain;
      assert host[n + 1..] == domain;
    }
    if exists n :: 0 < n < |host| && host[n..] == "." + domain {
      var n :| 0 < n < |host| && host[n..] == "." + domain;
      assert |host| - |"." + domain| == n;
    }
  }

  /** The intended match turns away the look-alike host the code admits. */
  lemma SubdomainEntryRejectsLookalike()
    ensures !SubdomainEntryMatches("evilexample.com", "*.example.com")
  {
    var lookalike := "evilexample.com";
    assert StartsWith("*.example.com", "*.") && "*.example.com"[2..] == "example.com";
    assert lookalike[|lookalike| - |".example.com"|..][0] == lookalike[3];
  }

  // ---------------------------------------------------------------------
  // Responses

  predicate IsSecurityHeaderName(name: string) {
    exists k :: 0 <= k < |SecurityHeaders| && Lower(SecurityHeaders[k].0) == Lower(name)
  }

  /** No two table names are the same header. */
  lemma SecurityHeaderNamesDistinct()
    ensures forall j, k :: 0 <= j < k < |SecurityHeaders| ==> Lower(SecurityHeaders[j].0) != Lower(SecurityHeaders[k].0)
  {
    forall j, k | 0 <= j < k < |SecurityHeaders|
      ensures Lower(SecurityHeaders[j].0) != Lower(SecurityHeaders[k].0)
    {
      if j == 0 && k == 5 {
        assert Lower(SecurityHeaders[j].0)[0] == 'x';
        assert Lower(SecurityHeaders[k].0)[0] == 'r';
      } else {
        assert |Lower(SecurityHeaders[j].0)| != |Lower(SecurityHeaders[k].0)|;
      }
    }
  }

  /**
   * `applySecurityHeaders(response)`: a copy of the response whose headers
   * are then set, one table entry at a time.
   */
  method ApplySecurityHeaders(response: Http.Response) returns (secure: Http.Response)
    ensures secure.status == response.status && secure.statusText == response.statusText
    ensures secure.body == response.body
    ensures forall k :: 0 <= k < |SecurityHeaders| ==>
      Http.GetHeader(secure.headers, SecurityHeaders[k].0) == Some(SecurityHeaders[k].1)
    ensures forall name :: !IsSecurityHeaderName(name) ==>
      Http.GetHeader(secure.headers, name) == Http.GetHeader(response.headers, name)
  {
    SecurityHeaderNamesDistinct();
    var headers := new Http.Headers(response.headers);
    for i := 0 to |SecurityHeaders|
      invariant forall k :: 0 <= k < i ==>
        Http.GetHeader(headers.entries, SecurityHeaders[k].0) == Some(SecurityHeaders[k].1)
      invariant forall name :: (forall k :: 0 <= k < i ==> Lower(SecurityHeaders[k].0) != Lower(name)) ==>
        Http.GetHeader(headers.entries, name) == Http.GetHeader(response.headers, name)
    {
      headers.Set(SecurityHeaders[i].0, SecurityHeaders[i].1);
    }
    secure := Http.Response(response.status, response.statusText, headers.entries, response.body);
  }

  /** The fields of the bot page, in order. */
  function BotPageParts(title: string, message: string): seq<string> {
    [BotHead, title, BotMeta, message, BotBodyOpen, title, "</h1><p>", message, "</p></body></html>"]
  }

  const BotHead := "<!DOCTYPE html><html><head><title>"
  const BotMeta := "</title><meta name=\"robots\" content=\"noindex\"><meta name=\"description\" content=\""
  const BotBodyOpen := "\"></head><body><h1>"

  const BotHeaders: seq<(string, string)> := [
    ("Content-Type", "text/html; charset=utf-8"),
    ("Cache-Control", "no-store, no-cache, must-revalidate, max-age=0"),
    ("X-Robots-Tag", "noindex"),
    ("Retry-After", "3600")]

  /** The four bot headers read back with their values. */
  lemma BotHeaderValues()
    ensures Http.GetHeader(Http.HeadersOf(BotHeaders), "Content-Type") == Some("text/html; charset=utf-8")
    ensures Http.GetHeader(Http.HeadersOf(BotHeaders), "Cache-Control") == Some("no-store, no-cache, must-revalidate, max-age=0")
    ensures Http.GetHeader(Http.HeadersOf(BotHeaders), "X-Robots-Tag") == Some("noindex")
    ensures Http.GetHeader(Http.HeadersOf(BotHeaders), "Retry-After") == Some("3600")
  {
    assert Lower(BotHeaders[0].0)[0] == 'c' && Lower(BotHeaders[2].0)[0] == 'x';
    Http.HeadersOfDistinct(BotHeaders);
    assert BotHeaders[0].0 == "Content-Type" && BotHeaders[1].0 == "Cache-Control";
    assert BotHeaders[2].0 == "X-Robots-Tag" && BotHeaders[3].0 == "Retry-After";
  }

  /** The bot page carries the title and the message. */
  lemma BotPageShows(title: string, message: string)
    ensures Contains(Concat(BotPageParts(title, message)), title)
    ensures Contains(Concat(BotPageParts(title, message)), message)
  {
    ContainsPart(BotPageParts(title, message), 1);
    ContainsPart(BotPageParts(title, message), 3);
  }

  /** `createBotResponse(title, message)`: a 503 that tells crawlers not to index and to come back in an hour. */
  function CreateBotResponse(title: string, message: string): (r: Http.Response)
    ensures r.status == 503
    ensures Http.GetHeader(r.headers, "X-Robots-Tag") == Some("noindex")
    ensures Http.GetHeader(r.headers, "Retry-After") == Some("3600")
    ensures Http.GetHeader(r.headers, "Content-Type") == Some("text/html; charset=utf-8")
    ensures Http.GetHeader(r.headers, "Cache-Control") == Some("no-store, no-cache, must-revalidate, max-age=0")
    ensures Contains(r.body, title) && Contains(r.body, message)
  {
    BotHeaderValues();
    BotPageShows(title, message);
    Http.Response(503, "", Http.HeadersOf(BotHeaders), Concat(BotPageParts(title, message)))
  }
}
