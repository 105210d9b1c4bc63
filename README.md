# Maintenance-mode request admission, modelled in Dafny

This project models the request-admission logic of a set of edge workers that put a site into maintenance mode:

- **`worker.js`**, the maintenance worker. A request goes through to the origin unless maintenance is engaged. Maintenance is engaged by the `MAINTENANCE_ENABLED` toggle or by a scheduled window. An engaged request still goes through if its client IP or its country is on an allowlist. Every other request gets a 503 page. The page carries a title, a message, custom CSS, an optional logo (https only, with unsafe characters stripped), the expected completion time and a contact line.
- **`worker/src/security.ts`**, which hardens requests and responses. It has a table of seven security headers written onto a copy of a response, bot detection by User-Agent, a Host allowlist with `*.` wildcards, and a fixed 503 page for crawlers.
- **`worker/src/api.ts`**, the management API. It checks a Bearer-token, routes `/api/status` and `/api/maintenance`, and validates ISO timestamps. It also reads the stored maintenance configuration and updates it with a read-merge-write cycle in a key-value namespace.
- **`maintenance-interceptor.js`**, an alternative interceptor. It lets a request through when the IP is in a comma-separated whitelist, or when the path matches a whitelisted path. The path pattern is regex-escaped first, so matching reduces to substring containment.

Files: `wrappers.dfy` (Option), `text.dfy` (module `Text`: ASCII case folding, prefix, suffix, substring, split and join; module `Lists`: `Array.prototype.some`), `http.dfy` (responses, case-insensitive header maps, the mutable `Headers` object, and the host platform's parsers as opaque function values), `worker.dfy`, `security.dfy`, `api.dfy`, `interceptor.dfy`.

How the model is built:
- Bindings and environment variables are immutable records. A string binding bound to an empty, null or undefined value is written `""`; a binding that is not declared at all, which throws a ReferenceError where it is read, is not modelled.
- Nullable request attributes are `Option<string>`. Times are integers (milliseconds).
- The platform's parsers are not interpreted. In worker.dfy, `new Date`, `new URL(...).protocol` and `toUTCString` are function-typed fields of `Platform.Builtins`. In api.dfy, date parsing is the function-typed parameter `parseDate` of `IsValidIsoDate`, `ValidationError`, the effect functions and the handlers.
- Headers are keyed by lower-cased name, like the Fetch standard's `Headers`.
- The API's handlers are methods over a `KvNamespace` object. Its field `entries` is a `map<string, Config>`, and a ghost `log` records every read and write. Each handler is proved against a pure function (`GetEffect`, `UpdateEffect`, `RouteEffect`, `ApiEffect`). That function gives the reply, the namespace operations and the value written.
- `applySecurityHeaders` is a method with a loop over the header table, writing a `Headers` object in place.
- An update body that throws before validation is `Malformed`, answered 500 by the handler's catch. That covers JSON that does not parse, and a body that parses to `null`, where `body.enabled` throws a TypeError (worker/src/api.ts:175-178, 227-231).

## Behaviour worth knowing

The model follows the code, which behaves as follows:
- The scheduled window is closed at both ends: `start <= now <= end` (worker.js:112), not half-open: a request at exactly the end time still gets the page.
- The window engages maintenance even when the toggle is off or `'false'` (worker.js:14): turning the toggle off does not cancel a scheduled window.
- Region matching is exact, case-sensitive list membership (worker.js:30): `us` does not match a listed `US`.
- IP matching is exact string membership (worker.js:22): an entry is one address, never a CIDR block or range.
- The title, message and contact address are inserted into the page unescaped (worker.js:51, 80-83). Only the logo URL is stripped.
- The code has no rate limiter and no configuration validator. Neither is modelled.

## Model

| member | source | states |
|---|---|---|
| `Worker.CheckMaintenanceWindow` | worker.js:100-117 | false when either bound is unset; when true, both bounds parse as dates and start ≤ now ≤ end |
| `Worker.WindowIsClosed` | worker.js:109-112 | for bounds that parse, the check holds iff start ≤ now ≤ end: it holds at both ends and not one tick outside |
| `Worker.ToggleOn` | worker.js:14 | off exactly for an unset toggle or the exact text 'false'; 'true', 'FALSE', 'False' and '0' all turn maintenance on |
| `Worker.IpAllowed` | worker.js:20-22 | true iff a non-empty allowlist entry equals the client IP |
| `Worker.CountryAllowed` | worker.js:28-30 | true iff a non-empty region entry equals the request's country |
| `Worker.HandleRequest` | worker.js:7-33 | passes through iff maintenance is not engaged (toggle off and no window), or the IP or the country is allowlisted; otherwise answers with the maintenance response |
| `Worker.ToggleOffPassesThrough` | worker.js:14-16 | toggle unset or exactly 'false' with no window in force: pass-through for every request |
| `Worker.EngagedServesPage` | worker.js:10-16 | any other toggle value, or a window in force even with the toggle off, serves the page to a request no allowlist exempts |
| `Worker.AllowlistedPassesThrough` | worker.js:20-33 | either allowlist alone exempts a request, whatever the toggle and window |
| `Worker.MissingAttributesNeverMatch` | worker.js:20-33 | a missing or empty client IP or country never matches, even when "" is listed |
| `Worker.EmptyAllowlistsExemptNobody` | worker.js:21-30 | with both lists empty, a request passes iff maintenance is not engaged |
| `Worker.StripUnsafe` | worker.js:38 | the stripped URL contains none of ' " < > ` & and is no longer than the input |
| `Worker.StripUnsafeConcat` | worker.js:38 | stripping distributes over concatenation: it works character by character and keeps order |
| `Worker.StripUnsafeKeepsSafe` | worker.js:38 | a URL without unsafe characters is kept exactly (and only such a URL is); stripping is idempotent |
| `Worker.StripUnsafeDeletesUnsafe` | worker.js:38 | an unsafe character is deleted with nothing in its place, a safe one is kept where it stood |
| `Worker.LogoHtml` | worker.js:35-40 | the logo element is non-empty iff LOGO_URL is non-empty and an https URL, and then it contains the stripped URL |
| `Worker.WindowMessage` | worker.js:119-133 | empty iff either bound is unset; otherwise it contains the end bound as the platform renders it |
| `Worker.Title` | worker.js:80 | never empty: the configured title, or 'Maintenance Mode' when unset |
| `Worker.Message` | worker.js:81 | never empty: the configured message, or the default sentence when unset |
| `Worker.ContactHtml` | worker.js:83 | empty iff CONTACT_EMAIL is unset; otherwise it holds a `mailto:` link to the address |
| `Worker.MaintenanceResponse` | worker.js:88-97 | status 503, Content-Type text/html;charset=UTF-8, Cache-Control no-store, no-cache, must-revalidate, Retry-After 3600, and the maintenance page as body |
| `Worker.PageShowsConfiguration` | worker.js:44-86 | the page shows the title (default 'Maintenance Mode'), the message, the CSS, the logo, the window message and the contact line |
| `Http.SetHeader` | worker/src/security.ts:89 | after `set`, the name reads back the value and every other name (case-insensitively) is unchanged |
| `Http.HeadersOf` | worker.js:92-96 | the header names of an object literal are exactly its lower-cased keys |
| `Http.HeadersOfLast` | worker.js:92-96 | in a literal whose names are distinct up to case, every entry reads back its value |
| `Http.Headers.Set` | worker/src/security.ts:89 | the header map after `headers.set` |
| `Lists.AnyMatches` | worker/src/security.ts:50 | `some` is true iff some element satisfies the predicate |
| `Text.Split` | maintenance-interceptor.js:1 | `split(',')` has one more piece than there are commas, and no piece contains a comma |
| `Text.JoinSplit` | maintenance-interceptor.js:1 | joining the pieces of a split with the separator gives back the string |
| `Text.SplitJoin` | maintenance-interceptor.js:1 | splitting a join of comma-free pieces gives back the pieces |
| `Text.JoinContainsPart` | maintenance-interceptor.js:1 | every piece occurs in the comma-joined text |
| `Security.IsBot` | worker/src/security.ts:34-51 | true iff the User-Agent (missing reads as "") contains, ignoring ASCII case, one of the nine bot literals |
| `Security.MissingUserAgentIsNotBot` | worker/src/security.ts:35 | a missing or empty User-Agent is not a bot |
| `Security.CapitalisedCrawlerIsBot` | worker/src/security.ts:38-50 | two mixed-case examples, a "Googlebot" and a "WhatsApp" user agent, are bots |
| `Security.BrowserIsNotBot` | worker/src/security.ts:38-50 | "Mozilla/5.0" holds none of the patterns |
| `Security.IsValidHost` | worker/src/security.ts:59-76 | true for every host when the list is empty; otherwise true iff some entry matches |
| `Security.HostEntryMatches` | worker/src/security.ts:68-75 | the `some` callback: `*.d` matches iff the host ends with d and is not d itself; any other entry matches iff it equals the host |
| `Security.ExactEntryMatchesItself` | worker/src/security.ts:74 | an entry without `*.` matches iff the host equals it |
| `Security.WildcardEntryMatches` | worker/src/security.ts:69-72 | `*.d` matches iff the host ends with d and is longer than d; the bare domain d is rejected |
| `Security.AppendingEntryWidens` | worker/src/security.ts:67-75 | on a non-empty list, appending an entry admits the old hosts plus exactly those the entry matches |
| `Security.WildcardAdmitsLookalike` | worker/src/security.ts:69-72 | as written, `*.example.com` admits `evilexample.com` |
| `Security.SubdomainEntryMeansSubdomain` | worker/src/security.ts:68-72 | under the intended match, `*.d` admits exactly hosts label + "." + d with a non-empty label, and never a host the code rejects |
| `Security.SubdomainEntryRejectsLookalike` | worker/src/security.ts:69-72 | under the intended match, `*.example.com` rejects `evilexample.com` |
| `Security.SecurityHeaderNamesDistinct` | worker/src/security.ts:6-27 | no two table entries name the same header |
| `Security.ApplySecurityHeaders` | worker/src/security.ts:83-93 | status, status text and body are kept; each of the seven names reads its table value; every other header is unchanged |
| `Security.CreateBotResponse` | worker/src/security.ts:101-126 | status 503, X-Robots-Tag noindex, Retry-After 3600, the two other headers, and a body containing the title and the message |
| `Api.Capture` | worker/src/api.ts:49 | the backtracking of `\s+`: it returns the largest whitespace count whose remainder `(.+)$` can capture, or none exists |
| `Api.BearerToken` | worker/src/api.ts:49-54 | a returned token is a match of `^Bearer\s+(.+)$/i` and the shortest one (greedy `\s+`); no token means there is no match |
| `Api.ValidateApiKey` | worker/src/api.ts:36-56 | false for an empty expected key and for a missing header; true only when the header matches with the key as its capture |
| `Api.BearerHeaderAcceptedIffKey` | worker/src/api.ts:49-55 | "Bearer" in any case, any white space, then K (not starting with white space): accepted iff the key is non-empty and equals K |
| `Api.OtherSchemesRejected` | worker/src/api.ts:49-52 | a Basic header, a bare "Bearer" and "Bearer" glued to the key without white space are rejected |
| `Api.StripApiPrefix` | worker/src/api.ts:95 | strips one leading "/api/" and nothing else |
| `Api.Route` | worker/src/api.ts:95-119 | status iff the stripped path is "status"; on "maintenance", GET reads, PUT and POST update and any other method is 405; 404 otherwise |
| `Api.RoutingTable` | worker/src/api.ts:98-112 | /api/status for any method; GET, PUT and POST on /api/maintenance; 405 for any other method there |
| `Api.UnroutedPaths` | worker/src/api.ts:95-119 | "/api/maintenance/", "/api/api/status" and "/status" are 404 |
| `Api.JsonResponse` | worker/src/api.ts:64-72 | the given status and data, Content-Type application/json and the no-store Cache-Control |
| `Api.ValidIsoDateFields` | worker/src/api.ts:240-247 | an accepted timestamp has length 20 or 24, digits and separators at the ISO positions, an optional `.` and three digits, a final Z, and it parses |
| `Api.IsoFieldsAccepted` | worker/src/api.ts:240-247 | the converse: a text of length 20 or 24 with digits and separators at the ISO positions, the `.` and three digits when 24 long, a final Z, which the platform parses, is accepted |
| `Api.IsValidIsoDate` | worker/src/api.ts:240-247 | accepted only when the platform parses the text and it ends with Z; text of any length other than 20 or 24 is rejected whatever the platform says |
| `Api.IsoShapes` | worker/src/api.ts:241 | both ISO example forms have the shape and are accepted whenever the platform parses them; a bare date, a missing Z and an offset do not have the shape |
| `Api.StatusEffect` | worker/src/api.ts:127-136 | 200, success, data `{version: '3.0.0', timestamp}` with the current time, and no namespace access |
| `Api.ValidationError` | worker/src/api.ts:177-198 | no error iff enabled is a boolean and each given time is a valid ISO date |
| `Api.Merge` | worker/src/api.ts:204-216 | enabled and updated_at come from the update and the clock, other stored fields are kept, the window is replaced iff both times are given; a well-formed object stays well-formed |
| `Api.GetEffect` | worker/src/api.ts:143-154 | 200, one read of the configuration key, nothing written |
| `Api.UpdateEffect` | worker/src/api.ts:169-233 | 500 iff the body threw; a write iff the reply is 200, and then one read and one write with the reply carrying what is written; any other reply touches nothing |
| `Api.RouteEffect` | worker/src/api.ts:97-119 | storage is touched only on the maintenance path with GET, PUT or POST, and written only with PUT or POST |
| `Api.ApiEffect` | worker/src/api.ts:81-120 | storage is touched only with a configured key that the Authorization header carries; otherwise 401 |
| `Api.UnauthenticatedTouchesNothing` | worker/src/api.ts:86-92 | an unauthenticated request gets 401 and the namespace is neither read nor written |
| `Api.UpdateStatuses` | worker/src/api.ts:169-233 | an update is answered 200, 400 or 500 |
| `Api.RouteStatuses` | worker/src/api.ts:97-119 | authenticated routes: status 200 without access, GET 200 with one read, 405 and 404 without access, update 200/400/500 |
| `Api.InvalidUpdateTouchesNothing` | worker/src/api.ts:177-198 | non-boolean enabled or a malformed given time: 400 before storage is touched |
| `Api.ValidUpdateMerges` | worker/src/api.ts:200-225 | enabled and updated_at overwritten, other fields kept, window replaced only when both times are given, reply data equals the stored value |
| `Api.UpdateKeepsWellFormed` | worker/src/api.ts:201-219 | when the stored object has no field shadowing `enabled`, `updated_at` or `maintenance_window`, neither has the one written |
| `Api.MergeIdempotent` | worker/src/api.ts:204-216 | repeating the same update at the same instant changes nothing further |
| `Api.GetReportsStored` | worker/src/api.ts:143-154 | a GET with nothing stored reports {enabled: false}, otherwise the stored config; it writes nothing |
| `Api.ReadAfterUpdate` | worker/src/api.ts:146 | a GET after a successful update reports what the update replied with |
| `Api.KvNamespace.Get` | worker/src/api.ts:146 | the stored value or none; the namespace is unchanged and the read is logged |
| `Api.KvNamespace.Put` | worker/src/api.ts:219 | the key now holds the value and the write is logged |
| `Api.HandleGetMaintenanceStatus` | worker/src/api.ts:143-161 | reply, operations and namespace as `GetEffect` gives them |
| `Api.HandleUpdateMaintenanceStatus` | worker/src/api.ts:169-233 | reply, operations and namespace as `UpdateEffect` gives them |
| `Api.StoreUpdate` | worker/src/api.ts:200-225 | one read then one write of the configuration key; the key now holds the merge of the stored value (or {}) with the update; the 200 reply carries it |
| `Api.Dispatch` | worker/src/api.ts:97-119 | reply, operations and namespace as `RouteEffect` gives them |
| `Api.HandleApiRequest` | worker/src/api.ts:81-120 | reply, operations and namespace as `ApiEffect` gives them |
| `Interceptor.SanitizeRegexInput` | maintenance-interceptor.js:28-31 | the output is the input's length plus the number of special characters |
| `Interceptor.SanitizeConcat` | maintenance-interceptor.js:30 | escaping works character by character: one backslash before each of `. * + ? ^ $ { } ( ) \| [ ] \` and nothing else |
| `Interceptor.SanitizeRoundTrip` | maintenance-interceptor.js:30 | removing each inserted backslash gives back the input: the escaped pattern matches exactly the input text |
| `Interceptor.LiteralPatternIsSanitized` | maintenance-interceptor.js:30 | the escaped form is the only literal pattern for a text |
| `Interceptor.RegexTest` | maintenance-interceptor.js:50 | for a pattern that escapes a text, the test holds iff that text occurs in the subject |
| `Interceptor.WhitelistIps` | maintenance-interceptor.js:1 | null iff the variable is unset; otherwise comma-free pieces whose comma-join is the variable, which is exactly its `split(',')` |
| `Interceptor.WhitelistPath` | maintenance-interceptor.js:4 | null iff the variable is unset; otherwise a literal pattern for exactly the variable's text |
| `Interceptor.IsWhitelistedIp` | maintenance-interceptor.js:39-41 | false for a missing IP or an unset variable; a whitelisted IP is written in the variable |
| `Interceptor.WhitelistedIpIsField` | maintenance-interceptor.js:39-41 | an IP is whitelisted iff it is one of the comma-separated fields; a missing IP never is |
| `Interceptor.IsWhitelistedPath` | maintenance-interceptor.js:49-51 | the path is whitelisted iff the variable is set and its text occurs in the path |
| `Interceptor.HandleRequest` | maintenance-interceptor.js:61-79 | passes iff the IP or the path is whitelisted; otherwise 503 "Service Unavailable", cache-control no-store, the HTML content type and the fixed page |

## Left out

- The JSON parsing of `ALLOWED_IPS` and `ALLOWED_REGIONS` (worker.js:21, 29) is not modelled: the lists arrive parsed. A malformed binding makes `JSON.parse` throw. A non-array value would make `includes` a different operation.
- Date parsing, URL parsing and UTC rendering are opaque platform functions (`Platform.Builtins`). The model does not know which strings are valid dates or https URLs.
- `fetch(request)` to the origin is the `PassThrough` outcome. The origin's response is not modelled.
- The fixed CSS, markup and whitespace of the HTML templates are left out. Bodies are concatenations of their substituted parts. The interceptor's page is the constant text of its template.
- Namespace failures (the catch in worker/src/api.ts:155-160 for reads, and a failing `put`) are not modelled: the namespace never fails. What `put` stores is read back unchanged, so the JSON serialisation round trip is taken to be lossless.
- Api.UpdateBody: `start_time` and `end_time` are strings. A truthy non-string value (a number, an object) is not modelled. `enabled` is only "a boolean or not".
- Header literals with a name repeated up to case are not modelled: the Fetch standard appends and combines such values, while `Http.HeadersOf` would keep one. No literal in the workers repeats a name.
- The namespace is a sequential, read-your-writes map: each handler runs alone. Two concurrent updates, which can both read the old configuration in the read-merge-write of worker/src/api.ts:201-219 before either writes so that one merge is lost, are not modelled, nor is the namespace's eventual consistency across locations.
- The platform's normalisation of request method names ("get" to "GET") is not modelled. The method is compared as given.
- Interceptor.RegexTest interprets only patterns made of literal atoms, which are the only ones `sanitizeRegexInput` produces. JavaScript strings are UTF-16 code units and Dafny strings are Unicode scalar values, so lone surrogates are not represented.
- Case-insensitive matching (`/i` without `u`) folds only ASCII letters. This is exact for the ASCII-only patterns used here.
- `handleStatusRequest`'s timestamp is the `nowIso` parameter, because the clock is not modelled.
- worker/src/index.ts and worker/src/translations.ts are not part of this model. One serves a constant page and the other is static text.
- `sanitizeEmail` is not part of this model: it is defined only inside tests/unit/worker.test.js and no core file calls it.
- Rate limiting and configuration validation are not part of this model, because the code contains neither.

## Findings

| source | as written | input that shows it | evidently intended | confidence | as-written member | corrected member |
|---|---|---|---|---|---|---|
| worker/src/security.ts:69-72 | a `*.d` entry accepts any host that ends with the text `d` and is longer than it | host `evilexample.com` with allowlist entry `*.example.com` is accepted | accept only subdomains: hosts that end with `.d` | not executed; high (the comment says "wildcard subdomains") | `Security.WildcardAdmitsLookalike` | `Security.SubdomainEntryMeansSubdomain` |
