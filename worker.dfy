/**
 * The maintenance-mode worker: for every request it decides whether to let
 * the request through to the origin or to answer with a 503 maintenance
 * page.
 *
 * The worker's bindings are an immutable record read on every request. A
 * binding that is unset, null or empty is falsy in JavaScript and behaves the
 * same everywhere here, so it is written "". The two allowlist bindings are
 * JSON arrays in the deployment; here they are already parsed.
 */
module Worker {
  import opened Wrappers
  import opened Text
  import Http
  import Platform

  datatype Bindings = Bindings(
    maintenanceEnabled: string,
    maintenanceTitle: string,
    maintenanceMessage: string,
    contactEmail: string,
    customCss: string,
    logoUrl: string,
    windowStart: string,
    windowEnd: string,
    allowedIps: seq<string>,
    allowedRegions: seq<string>)

  /** What the worker reads of a request: the `CF-Connecting-IP` header and `request.cf.country`. */
  datatype Request = Request(connectingIp: Option<string>, country: Option<string>)

  const DefaultTitle := "Maintenance Mode"
  const DefaultMessage := "We are currently performing scheduled maintenance. We will be back shortly."
  const HtmlContentType := "text/html;charset=UTF-8"
  const NoStore := "no-store, no-cache, must-revalidate"
  const RetryAfter := "3600"

  /** A nullable string is truthy when it is present and not empty. */
  predicate Truthy(s: Option<string>) {
    s.Some? && s.value != ""
  }

  // ---------------------------------------------------------------------
  // The scheduled window

  /**
   * `checkMaintenanceWindow(now)`: both bounds must be set; then the window
   * holds `now` when both bounds parse as dates and start <= now <= end.
   * An Invalid Date compares false with everything, so an unparsable bound
   * also makes the check false.
   */
  function CheckMaintenanceWindow(b: Bindings, p: Platform.Builtins, now: int): (r: bool)
    ensures (b.windowStart == "" || b.windowEnd == "") ==> !r
    ensures r ==> p.parseDate(b.windowStart).Some? && p.parseDate(b.windowEnd).Some?
    ensures r ==> p.parseDate(b.windowStart).value <= now <= p.parseDate(b.windowEnd).value
  {
    if b.windowStart == "" || b.windowEnd == "" then false
    else
      match (p.parseDate(b.windowStart), p.parseDate(b.windowEnd))
      case (Some(start), Some(end)) => start <= now && now <= end
      case _ => false
  }

  /** A window whose bounds parse holds every instant from its start to its end, both included. */
  lemma WindowIsClosed(b: Bindings, p: Platform.Builtins, start: int, end: int, now: int)
    requires b.windowStart != "" && b.windowEnd != ""
    requires p.parseDate(b.windowStart) == Some(start) && p.parseDate(b.windowEnd) == Some(end)
    ensures CheckMaintenanceWindow(b, p, now) <==> start <= now <= end
    ensures start <= end ==> CheckMaintenanceWindow(b, p, start) && CheckMaintenanceWindow(b, p, end)
    ensures !CheckMaintenanceWindow(b, p, start - 1) && !CheckMaintenanceWindow(b, p, end + 1)
  {
  }

  // ---------------------------------------------------------------------
  // The decision chain

  /** The enable toggle: anything but an unset binding or exactly 'false' turns maintenance on. */
  function ToggleOn(b: Bindings): (r: bool)
    ensures !r <==> b.maintenanceEnabled in {"", "false"}
    ensures b.maintenanceEnabled in {"true", "FALSE", "False", "0"} ==> r
  {
    !(b.maintenanceEnabled == "" || b.maintenanceEnabled == "false")
  }

  /** Maintenance is engaged by the toggle or by the scheduled window. */
  predicate Engaged(b: Bindings, p: Platform.Builtins, now: int) {
    ToggleOn(b) || CheckMaintenanceWindow(b, p, now)
  }

  /** `clientIP && allowedIPs.includes(clientIP)`. */
  function IpAllowed(b: Bindings, req: Request): (r: bool)
    ensures r <==> exists k :: 0 <= k < |b.allowedIps| && b.allowedIps[k] != "" && req.connectingIp == Some(b.allowedIps[k])
  {
    Truthy(req.connectingIp) && req.connectingIp.value in b.allowedIps
  }

  /** `country && allowedRegions.includes(country)`. */
  function CountryAllowed(b: Bindings, req: Request): (r: bool)
    ensures r <==> exists k :: 0 <= k < |b.allowedRegions| && b.allowedRegions[k] != "" && req.country == Some(b.allowedRegions[k])
  {
    Truthy(req.country) && req.country.value in b.allowedRegions
  }

  /** `handleRequest(request)` at time `now` (milliseconds). */
  function HandleRequest(b: Bindings, p: Platform.Builtins, req: Request, now: int): (r: Http.Outcome)
    ensures r.PassThrough? <==> !Engaged(b, p, now) || IpAllowed(b, req) || CountryAllowed(b, req)
    ensures r.Respond? ==> r.response == MaintenanceResponse(b, p)
  {
    if !ToggleOn(b) && !CheckMaintenanceWindow(b, p, now) then Http.PassThrough
    else if IpAllowed(b, req) then Http.PassThrough
    else if CountryAllowed(b, req) then Http.PassThrough
    else Http.Respond(MaintenanceResponse(b, p))
  }

  /** With the toggle unset or 'false' and no window in force, every request goes to the origin. */
  lemma ToggleOffPassesThrough(b: Bindings, p: Platform.Builtins, req: Request, now: int)
    requires b.maintenanceEnabled == "" || b.maintenanceEnabled == "false"
    requires !CheckMaintenanceWindow(b, p, now)
    ensures HandleRequest(b, p, req, now) == Http.PassThrough
  {
  }

  /**
   * Every other toggle value ("true", "FALSE", "0", …) and every window in
   * force engage maintenance: a request that no allowlist exempts gets the page.
   */
  lemma EngagedServesPage(b: Bindings, p: Platform.Builtins, req: Request, now: int)
    requires ToggleOn(b) || CheckMaintenanceWindow(b, p, now)
    requires !IpAllowed(b, req) && !CountryAllowed(b, req)
    ensures HandleRequest(b, p, req, now) == Http.Respond(MaintenanceResponse(b, p))
  {
  }

  /** Either allowlist alone exempts a request, whatever the toggle and window say. */
  lemma AllowlistedPassesThrough(b: Bindings, p: Platform.Builtins, req: Request, now: int)
    requires (Truthy(req.connectingIp) && req.connectingIp.value in b.allowedIps)
          || (Truthy(req.country) && req.country.value in b.allowedRegions)
    ensures HandleRequest(b, p, req, now) == Http.PassThrough
  {
  }

  /** A missing or empty client IP or country never matches, even when "" is listed. */
  lemma MissingAttributesNeverMatch(b: Bindings, p: Platform.Builtins, now: int)
    requires Engaged(b, p, now)
    ensures HandleRequest(b, p, Request(None, None), now).Respond?
    ensures HandleRequest(b, p, Request(Some(""), Some("")), now).Respond?
  {
    assert !IpAllowed(b, Request(None, None)) && !CountryAllowed(b, Request(None, None));
    assert !IpAllowed(b, Request(Some(""), Some(""))) && !CountryAllowed(b, Request(Some(""), Some("")));
  }

  /** Empty allowlists exempt nobody. */
  lemma EmptyAllowlistsExemptNobody(b: Bindings, p: Platform.Builtins, req: Request, now: int)
    requires b.allowedIps == [] && b.allowedRegions == []
    ensures HandleRequest(b, p, req, now).PassThrough? <==> !Engaged(b, p, now)
  {
  }

  // ---------------------------------------------------------------------
  // The maintenance page

  predicate IsUnsafeUrlChar(c: char) {
    c in "'\"<>`&"
  }

  /** `url.replace(/['"<>`&]/g, '')`. */
  function StripUnsafe(url: string): (r: string)
    ensures |r| <= |url|
    ensures forall i :: 0 <= i < |r| ==> !IsUnsafeUrlChar(r[i])
  {
    if url == [] then []
    else (if IsUnsafeUrlChar(url[0]) then [] else [url[0]]) + StripUnsafe(url[1..])
  }

  /**
   * An unsafe character is deleted, not replaced: it leaves nothing behind,
   * and a safe character is kept in its place between the two sides.
   */
  lemma StripUnsafeDeletesUnsafe(a: string, c: char, b: string)
    ensures StripUnsafe(a + [c] + b) == StripUnsafe(a) + (if IsUnsafeUrlChar(c) then [] else [c]) + StripUnsafe(b)
  {
    StripUnsafeConcat(a + [c], b);
    StripUnsafeConcat(a, [c]);
    assert [c][1..] == [];
  }

  /** Stripping works character by character: it distributes over concatenation. */
  lemma {:induction false} StripUnsafeConcat(a: string, b: string)
    ensures StripUnsafe(a + b) == StripUnsafe(a) + StripUnsafe(b)
  {
    if a == [] {
      assert a + b == b;
    } else {
      assert (a + b)[0] == a[0];
      assert (a + b)[1..] == a[1..] + b;
      StripUnsafeConcat(a[1..], b);
    }
  }

  /** Stripping keeps a string without unsafe characters as it is, and so is idempotent. */
  lemma {:induction false} StripUnsafeKeepsSafe(s: string)
    ensures (forall i :: 0 <= i < |s| ==> !IsUnsafeUrlChar(s[i])) <==> StripUnsafe(s) == s
    ensures StripUnsafe(StripUnsafe(s)) == StripUnsafe(s)
  {
    if s != [] {
      StripUnsafeKeepsSafe(s[1..]);
      if IsUnsafeUrlChar(s[0]) {
        assert |StripUnsafe(s)| <= |s[1..]| < |s|;
      }
    }
    var r := StripUnsafe(s);
    assert forall i :: 0 <= i < |r| ==> !IsUnsafeUrlChar(r[i]);
    StripUnsafeSafeFixed(r);
  }

  lemma {:induction false} StripUnsafeSafeFixed(s: string)
    requires forall i :: 0 <= i < |s| ==> !IsUnsafeUrlChar(s[i])
    ensures StripUnsafe(s) == s
  {
    if s != [] {
      StripUnsafeSafeFixed(s[1..]);
    }
  }

  const LogoOpen := "<img src=\""
  const LogoClose := "\" alt=\"Logo\" style=\"max-width: 200px; margin-bottom: 1rem;\">"

  /** The logo element: shown only for a non-empty https `LOGO_URL`, with the URL stripped. */
  function LogoHtml(b: Bindings, p: Platform.Builtins): (r: string)
    ensures r != "" <==> b.logoUrl != "" && p.isHttpsUrl(b.logoUrl)
    ensures r != "" ==> Contains(r, StripUnsafe(b.logoUrl))
  {
    if b.logoUrl != "" && p.isHttpsUrl(b.logoUrl) then
      ContainsMiddle(LogoOpen, StripUnsafe(b.logoUrl), LogoClose);
      LogoOpen + StripUnsafe(b.logoUrl) + LogoClose
    else ""
  }

  /**
   * `getMaintenanceWindowMessage()`: empty unless both bounds are set; then
   * the end bound as the platform renders it in UTC. Rendering an
   * unparsable end gives "Invalid Date" and never throws, so the message is
   * shown even for a window that `CheckMaintenanceWindow` ignores.
   */
  function WindowMessage(b: Bindings, p: Platform.Builtins): (r: string)
    ensures r == "" <==> b.windowStart == "" || b.windowEnd == ""
    ensures r != "" ==> Contains(r, p.utcString(b.windowEnd))
  {
    if b.windowStart == "" || b.windowEnd == "" then ""
    else
      ContainsMiddle(WindowOpen, p.utcString(b.windowEnd), "</p>");
      WindowOpen + p.utcString(b.windowEnd) + "</p>"
  }

  /** `MAINTENANCE_TITLE || 'Maintenance Mode'`: never empty. */
  function Title(b: Bindings): (r: string)
    ensures r != ""
    ensures b.maintenanceTitle != "" ==> r == b.maintenanceTitle
    ensures b.maintenanceTitle == "" ==> r == DefaultTitle
  {
    if b.maintenanceTitle == "" then DefaultTitle else b.maintenanceTitle
  }

  /** `MAINTENANCE_MESSAGE || …`: never empty. */
  function Message(b: Bindings): (r: string)
    ensures r != ""
    ensures b.maintenanceMessage != "" ==> r == b.maintenanceMessage
    ensures b.maintenanceMessage == "" ==> r == DefaultMessage
  {
    if b.maintenanceMessage == "" then DefaultMessage else b.maintenanceMessage
  }

  /** The contact line, inserted only when `CONTACT_EMAIL` is set (the address is not escaped). */
  function ContactHtml(b: Bindings): (r: string)
    ensures r == "" <==> b.contactEmail == ""
    ensures r != "" ==> Contains(r, "mailto:" + b.contactEmail)
  {
    if b.contactEmail == "" then ""
    else
      var tail := "\">" + b.contactEmail + "</a></p>";
      ContainsMiddle(ContactLead, "mailto:" + b.contactEmail, tail);
      assert ContactLead + ("mailto:" + b.contactEmail) + tail == ContactOpen + b.contactEmail + tail;
      ContactOpen + b.contactEmail + tail
  }

  /** The page body, as the concatenation of its substituted parts (the fixed styling is left out). */
  function PageParts(b: Bindings, p: Platform.Builtins): seq<string> {
    [ PageHead + Title(b) + "</title><style>",
      b.customCss,
      PageBodyOpen,
      LogoHtml(b, p),
      "<h1>" + Title(b) + "</h1>",
      "<p>" + Message(b) + "</p>",
      WindowMessage(b, p),
      ContactHtml(b),
      "</div></body></html>" ]
  }

  function MaintenancePage(b: Bindings, p: Platform.Builtins): string {
    Concat(PageParts(b, p))
  }

  const WindowOpen := "<p style=\"font-size: 0.9rem; color: #888;\">Expected completion: "
  const ContactLead := "<p class=\"contact\">Contact: <a href=\""
  const ContactOpen := ContactLead + "mailto:"
  const PageHead := "<!DOCTYPE html><html lang=\"en\"><head><meta charset=\"utf-8\"><title>"
  const PageBodyOpen := "</style></head><body><div class=\"container\">"

  const PageHeaders: seq<(string, string)> :=
    [("Content-Type", HtmlContentType), ("Cache-Control", NoStore), ("Retry-After", RetryAfter)]

  lemma PageHeaderValues()
    ensures Http.GetHeader(Http.HeadersOf(PageHeaders), "Content-Type") == Some(HtmlContentType)
    ensures Http.GetHeader(Http.HeadersOf(PageHeaders), "Cache-Control") == Some(NoStore)
    ensures Http.GetHeader(Http.HeadersOf(PageHeaders), "Retry-After") == Some(RetryAfter)
  {
    assert Lower(PageHeaders[0].0)[1] != Lower(PageHeaders[1].0)[1];
    assert Lower(PageHeaders[2].0)[0] == 'r';
    Http.HeadersOfLast(PageHeaders, 0);
    Http.HeadersOfLast(PageHeaders, 1);
    Http.HeadersOfLast(PageHeaders, 2);
  }

  /** The 503 response with its three fixed headers. */
  function MaintenanceResponse(b: Bindings, p: Platform.Builtins): (r: Http.Response)
    ensures r.status == 503
    ensures Http.GetHeader(r.headers, "Content-Type") == Some(HtmlContentType)
    ensures Http.GetHeader(r.headers, "Cache-Control") == Some(NoStore)
    ensures Http.GetHeader(r.headers, "Retry-After") == Some(RetryAfter)
    ensures r.body == MaintenancePage(b, p)
  {
    PageHeaderValues();
    Http.Response(503, "", Http.HeadersOf(PageHeaders), MaintenancePage(b, p))
  }

  /**
   * The page shows the title (the default when unset), the message, the
   * operator's CSS, the logo element, the window message and the contact line.
   */
  lemma PageShowsConfiguration(b: Bindings, p: Platform.Builtins)
    ensures b.maintenanceTitle == "" ==> Contains(MaintenancePage(b, p), "<h1>" + DefaultTitle + "</h1>")
    ensures b.maintenanceTitle != "" ==> Contains(MaintenancePage(b, p), "<h1>" + b.maintenanceTitle + "</h1>")
    ensures Contains(MaintenancePage(b, p), "<p>" + Message(b) + "</p>")
    ensures Contains(MaintenancePage(b, p), b.customCss)
    ensures Contains(MaintenancePage(b, p), LogoHtml(b, p))
    ensures Contains(MaintenancePage(b, p), WindowMessage(b, p))
    ensures Contains(MaintenancePage(b, p), ContactHtml(b))
  {
    var parts := PageParts(b, p);
    ContainsPart(parts, 1);
    ContainsPart(parts, 3);
    ContainsPart(parts, 4);
    ContainsPart(parts, 5);
    ContainsPart(parts, 6);
    ContainsPart(parts, 7);
  }
}
