/**
 * The management API of the maintenance worker: Bearer-token
 * authentication, routing, and reading and updating the maintenance
 * configuration kept in a key-value namespace.
 *
 * Each handler is an imperative method over the namespace object, proved
 * against a pure function (`ApiEffect` and its parts) that gives the reply,
 * the namespace operations performed and the value written.
 */
module Api {
  import opened Wrappers
  import opened Text
  import Http

  // ---------------------------------------------------------------------
  // Authentication: /^Bearer\s+(.+)$/i

  /** `\s` of a JavaScript regular expression: white space and line terminators. */
  predicate IsJsWhitespace(c: char) {
    var n := c as int;
    (9 <= n <= 13) || n == 0x20 || n == 0xA0 || n == 0x1680 || (0x2000 <= n <= 0x200A)
    || n == 0x2028 || n == 0x2029 || n == 0x202F || n == 0x205F || n == 0x3000 || n == 0xFEFF
  }

  /** The characters `.` does not match without the `s` flag. */
  predicate IsLineTerminator(c: char) {
    var n := c as int;
    n == 0x0A || n == 0x0D || n == 0x2028 || n == 0x2029
  }

  /** Text that `(.+)$` can capture: non-empty, without a line terminator. */
  predicate Capturable(s: string) {
    s != [] && forall i :: 0 <= i < |s| ==> !IsLineTerminator(s[i])
  }

  /**
   * The regular expression matches `header` with `token` as its capture
   * group: "Bearer" in any case, at least one white-space character, then
   * the token up to the end.
   */
  predicate MatchesBearer(header: string, token: string) {
    var n := |header| - |token|;
    7 <= n <= |header|
    && EqualsIgnoringCase(header[..6], "Bearer")
    && (forall i :: 6 <= i < n ==> IsJsWhitespace(header[i]))
    && header[n..] == token
    && Capturable(token)
  }

  /** The length of the run of white space that `s` starts with. */
  function WhitespaceRun(s: string): (n: nat)
    ensures n <= |s|
    ensures forall i :: 0 <= i < n ==> IsJsWhitespace(s[i])
    ensures n < |s| ==> !IsJsWhitespace(s[n])
  {
    if s == [] || !IsJsWhitespace(s[0]) then 0 else 1 + WhitespaceRun(s[1..])
  }

  /**
   * The backtracking of the greedy `\s+`: with `k` white-space characters
   * taken, the rest is captured if it can be; otherwise one fewer is taken.
   */
  function Capture(rest: string, k: nat): (r: Option<nat>)
    requires k <= |rest|
    ensures r.Some? ==> 1 <= r.value <= k && Capturable(rest[r.value..])
    ensures r.Some? ==> forall j :: r.value < j <= k ==> !Capturable(rest[j..])
    ensures r.None? ==> forall j :: 1 <= j <= k ==> !Capturable(rest[j..])
  {
    if k == 0 then None
    else if Capturable(rest[k..]) then Some(k)
    else Capture(rest, k - 1)
  }

  /**
   * The capture group of the match, if the header matches: the match that
   * `String.prototype.match` reports, whose `\s+` is as long as it can be.
   */
  function BearerToken(header: string): (r: Option<string>)
    ensures r.Some? ==> MatchesBearer(header, r.value)
    ensures r.Some? ==> forall t :: MatchesBearer(header, t) ==> |r.value| <= |t|
    ensures r.None? ==> forall t :: !MatchesBearer(header, t)
  {
    if |header| < 6 || !EqualsIgnoringCase(header[..6], "Bearer") then
      assert forall t :: !MatchesBearer(header, t);
      None
    else
      var rest := header[6..];
      var w := WhitespaceRun(rest);
      match Capture(rest, w)
      case None =>
        assert forall t :: !MatchesBearer(header, t) by {
          forall t | MatchesBearer(header, t) ensures false {
            BearerMatchSplits(header, t);
          }
        }
        None
      case Some(j) =>
        assert header[6 + j..] == rest[j..];
        assert forall t :: MatchesBearer(header, t) ==> |rest[j..]| <= |t| by {
          forall t | MatchesBearer(header, t) ensures |rest[j..]| <= |t| {
            BearerMatchSplits(header, t);
          }
        }
        Some(rest[j..])
  }

  /** Any match takes between one and all of the header's leading white space for `\s+`. */
  lemma BearerMatchSplits(header: string, t: string)
    requires MatchesBearer(header, t)
    ensures var rest := header[6..]; var j := |header| - |t| - 6;
      1 <= j <= WhitespaceRun(rest) && rest[j..] == t && Capturable(rest[j..])
  {
    var rest := header[6..];
    var j := |header| - |t| - 6;
    assert rest[j..] == header[6 + j..];
  }

  /** `validateApiKey(request, expectedApiKey)`, given the Authorization header. */
  function ValidateApiKey(authorization: Option<string>, expectedApiKey: string): (r: bool)
    ensures expectedApiKey == "" ==> !r
    ensures authorization.None? ==> !r
    ensures r ==> MatchesBearer(authorization.value, expectedApiKey)
  {
    if expectedApiKey == "" then false
    else match authorization
      case None => false
      case Some(header) =>
        if header == "" then false
        else match BearerToken(header)
          case None => false
          case Some(token) => token == expectedApiKey
  }

  /**
   * `Bearer K`, with "Bearer" in any case and any run of white space before
   * a token that starts with no white space, is accepted iff K is the key.
   */
  lemma BearerHeaderAcceptedIffKey(scheme: string, gap: string, token: string, expectedApiKey: string)
    requires EqualsIgnoringCase(scheme, "Bearer") && |scheme| == 6
    requires gap != [] && forall i :: 0 <= i < |gap| ==> IsJsWhitespace(gap[i])
    requires Capturable(token) && !IsJsWhitespace(token[0])
    ensures ValidateApiKey(Some(scheme + gap + token), expectedApiKey) <==> expectedApiKey != "" && token == expectedApiKey
  {
    var header := scheme + gap + token;
    assert header[..6] == scheme;
    assert header[|header| - |token|..] == token;
    assert MatchesBearer(header, token);
    var t := BearerToken(header).value;
    assert t == header[|header| - |t|..];
  }

  /** A header without the Bearer scheme, or with nothing after it, is rejected. */
  lemma OtherSchemesRejected(expectedApiKey: string)
    ensures !ValidateApiKey(Some("Basic " + expectedApiKey), expectedApiKey)
    ensures !ValidateApiKey(Some("Bearer"), expectedApiKey)
    ensures !ValidateApiKey(Some("Bearer" + expectedApiKey), expectedApiKey) || expectedApiKey == ""
  {
    var basic := "Basic " + expectedApiKey;
    if |basic| >= 6 {
      assert Lower(basic[..6])[1] == 'a';
    }
  }

  // ---------------------------------------------------------------------
  // Routing

  datatype Endpoint = StatusEndpoint | GetMaintenance | UpdateMaintenance | MethodNotAllowed | NotFound

  /** `pathname.replace(/^\/api\//, '')`. */
  function StripApiPrefix(pathname: string): (r: string)
    ensures StartsWith(pathname, "/api/") ==> pathname == "/api/" + r
    ensures !StartsWith(pathname, "/api/") ==> r == pathname
  {
    if StartsWith(pathname, "/api/") then pathname[5..] else pathname
  }

  /** The `switch` of `handleApiRequest` on the stripped path and the method. */
  function Route(pathname: string, verb: string): (r: Endpoint)
    ensures r == StatusEndpoint <==> StripApiPrefix(pathname) == "status"
    ensures r in {GetMaintenance, UpdateMaintenance, MethodNotAllowed} <==> StripApiPrefix(pathname) == "maintenance"
    ensures r == NotFound <==> StripApiPrefix(pathname) !in {"status", "maintenance"}
    ensures r == GetMaintenance ==> verb == "GET"
    ensures r == UpdateMaintenance ==> verb in {"PUT", "POST"}
    ensures r == MethodNotAllowed ==> verb !in {"GET", "PUT", "POST"}
  {
    match StripApiPrefix(pathname)
    case "status" => StatusEndpoint
    case "maintenance" =>
      if verb == "GET" then GetMaintenance
      else if verb == "PUT" || verb == "POST" then UpdateMaintenance
      else MethodNotAllowed
    case _ => NotFound
  }

  /** The routes of the API, and the 405 for any other method on the maintenance path. */
  lemma RoutingTable(verb: string)
    ensures Route("/api/status", verb) == StatusEndpoint
    ensures Route("/api/maintenance", "GET") == GetMaintenance
    ensures Route("/api/maintenance", "PUT") == UpdateMaintenance && Route("/api/maintenance", "POST") == UpdateMaintenance
    ensures verb !in {"GET", "PUT", "POST"} ==> Route("/api/maintenance", verb) == MethodNotAllowed
  {
    assert StripApiPrefix("/api/status") == "status" by { assert "/api/status"[..5] == "/api/"; }
    assert StripApiPrefix("/api/maintenance") == "maintenance" by { assert "/api/maintenance"[..5] == "/api/"; }
  }

  /** Only the exact paths are routed: a trailing slash, a doubled prefix or a missing prefix is 404. */
  lemma UnroutedPaths(verb: string)
    ensures Route("/api/maintenance/", verb) == NotFound
    ensures Route("/api/api/status", verb) == NotFound
    ensures Route("/status", verb) == NotFound
  {
    assert StripApiPrefix("/api/maintenance/") == "maintenance/" by { assert "/api/maintenance/"[..5] == "/api/"; }
    assert StripApiPrefix("/api/api/status") == "api/status" by { assert "/api/api/status"[..5] == "/api/"; }
    assert !StartsWith("/status", "/api/") by { assert "/status"[1] != "/api/"[1]; }
  }

  // ---------------------------------------------------------------------
  // Stored configuration and replies

  datatype Window = Window(startTime: string, endTime: string)

  /**
   * The stored configuration, a JSON object: `enabled`, `updated_at` and
   * `maintenance_window` when present, and every other field kept as its
   * JSON text. `others` never holds the three named keys (`WellFormed`):
   * a JSON object has each key once.
   */
  datatype Config = Config(enabled: Option<bool>, updatedAt: Option<string>, window: Option<Window>, others: map<string, string>)
  {
    predicate WellFormed() {
      forall k :: k in others ==> k != "enabled" && k != "updated_at" && k != "maintenance_window"
    }
  }

  const ConfigKey := "maintenance_config"

  /** `{}`, what an update starts from when nothing is stored. */
  const EmptyConfig := Config(None, None, None, map[])

  /** `{ enabled: false }`, what a read reports when nothing is stored. */
  const DisabledConfig := Config(Some(false), None, None, map[])

  /**
   * The parsed body of an update: `enabled` when it is a boolean (None for
   * any other value or none), and the two times ("" when absent or falsy).
   */
  datatype UpdateBody = UpdateBody(enabled: Option<bool>, startTime: string, endTime: string)

  /**
   * `await request.json()` and the first field read: a parsed JSON object, or
   * the error that was thrown. Malformed JSON throws in `request.json()`; a
   * body that parses to `null` or `undefined` throws at `body.enabled`; both
   * reach the handler's catch and are `Malformed`.
   */
  datatype RequestBody = Parsed(update: UpdateBody) | Malformed(error: string)

  datatype Payload = NoData | StatusInfo(version: string, timestamp: string) | ConfigData(config: Config)

  datatype ApiResponse = ApiResponse(success: bool, message: string, data: Payload)

  datatype JsonReply = JsonReply(status: int, headers: map<string, string>, body: ApiResponse)

  /** `jsonResponse(data, status)`. */
  function JsonResponse(data: ApiResponse, status: int): (r: JsonReply)
    ensures r.status == status && r.body == data
    ensures Http.GetHeader(r.headers, "Content-Type") == Some("application/json")
    ensures Http.GetHeader(r.headers, "Cache-Control") == Some("no-store, no-cache, must-revalidate, max-age=0")
  {
    JsonHeaderValues();
    JsonReply(status, JsonHeaders, data)
  }

  const JsonHeaders := Http.HeadersOf([("Content-Type", "application/json"), ("Cache-Control", "no-store, no-cache, must-revalidate, max-age=0")])

  lemma JsonHeaderValues()
    ensures Http.GetHeader(JsonHeaders, "Content-Type") == Some("application/json")
    ensures Http.GetHeader(JsonHeaders, "Cache-Control") == Some("no-store, no-cache, must-revalidate, max-age=0")
  {
    var pairs := [("Content-Type", "application/json"), ("Cache-Control", "no-store, no-cache, must-revalidate, max-age=0")];
    assert Lower(pairs[0].0)[1] != Lower(pairs[1].0)[1];
    Http.HeadersOfLast(pairs, 0);
    Http.HeadersOfLast(pairs, 1);
  }

  // ---------------------------------------------------------------------
  // Timestamps

  /** `\d` of a JavaScript regular expression. */
  predicate IsDigit(c: char) {
    '0' <= c <= '9'
  }

  /** `s` has the shape of `pattern`, where `#` stands for a digit. */
  predicate FitsPattern(s: string, pattern: string) {
    |s| == |pattern| && forall i :: 0 <= i < |s| ==> if pattern[i] == '#' then IsDigit(s[i]) else s[i] == pattern[i]
  }

  const IsoSeconds := "####-##-##T##:##:##Z"
  const IsoMillis := "####-##-##T##:##:##.###Z"

  /** `/^\d{4}-\d{2}-\d{2}T\d{2}:\d{2}:\d{2}(\.\d{3})?Z$/`. */
  predicate IsIsoShape(s: string) {
    FitsPattern(s, IsoSeconds) || FitsPattern(s, IsoMillis)
  }

  /**
   * `isValidISODate(s)`: the shape, and a date the platform can read. The
   * shape is checked first: a string of any other length is rejected
   * whatever the platform would make of it.
   */
  function IsValidIsoDate(s: string, parseDate: string -> Option<int>): (r: bool)
    ensures r ==> parseDate(s).Some? && s != [] && s[|s| - 1] == 'Z'
    ensures |s| != 20 && |s| != 24 ==> !r
  {
    IsIsoShape(s) && parseDate(s).Some?
  }

  /**
   * An accepted timestamp is `YYYY-MM-DDTHH:MM:SS`, optionally `.mmm`, then
   * `Z`, and the platform can read it as a date.
   */
  lemma ValidIsoDateFields(s: string, parseDate: string -> Option<int>)
    requires IsValidIsoDate(s, parseDate)
    ensures |s| in {20, 24} && s[4] == '-' && s[7] == '-' && s[10] == 'T' && s[13] == ':' && s[16] == ':'
    ensures s[|s| - 1] == 'Z' && (|s| == 24 ==> s[19] == '.')
    ensures forall i :: i in {0, 1, 2, 3, 5, 6, 8, 9, 11, 12, 14, 15, 17, 18} ==> IsDigit(s[i])
    ensures |s| == 24 ==> IsDigit(s[20]) && IsDigit(s[21]) && IsDigit(s[22])
    ensures parseDate(s).Some?
  {
  }

  /**
   * The converse: a text with every field of the regex, which the platform
   * can read as a date, is accepted.
   */
  lemma IsoFieldsAccepted(s: string, parseDate: string -> Option<int>)
    requires |s| == 20 || |s| == 24
    requires s[4] == '-' && s[7] == '-' && s[10] == 'T' && s[13] == ':' && s[16] == ':'
    requires s[|s| - 1] == 'Z' && (|s| == 24 ==> s[19] == '.')
    requires forall i :: i in {0, 1, 2, 3, 5, 6, 8, 9, 11, 12, 14, 15, 17, 18} ==> IsDigit(s[i])
    requires |s| == 24 ==> IsDigit(s[20]) && IsDigit(s[21]) && IsDigit(s[22])
    requires parseDate(s).Some?
    ensures IsValidIsoDate(s, parseDate)
  {
    var pattern := if |s| == 20 then IsoSeconds else IsoMillis;
    forall i | 0 <= i < |s|
      ensures if pattern[i] == '#' then IsDigit(s[i]) else s[i] == pattern[i]
    {
      if pattern[i] == '#' {
        assert i in {0, 1, 2, 3, 5, 6, 8, 9, 11, 12, 14, 15, 17, 18} || (|s| == 24 && 20 <= i <= 22);
      }
    }
    assert FitsPattern(s, pattern);
  }

  /**
   * Both forms are accepted whenever the platform reads them as dates; a
   * date alone, a missing `Z` and an offset are not of the shape.
   */
  lemma IsoShapes(parseDate: string -> Option<int>)
    ensures IsIsoShape("2025-04-06T08:00:00Z")
    ensures IsIsoShape("2025-04-06T08:00:00.000Z")
    ensures parseDate("2025-04-06T08:00:00Z").Some? ==> IsValidIsoDate("2025-04-06T08:00:00Z", parseDate)
    ensures parseDate("2025-04-06T08:00:00.000Z").Some? ==> IsValidIsoDate("2025-04-06T08:00:00.000Z", parseDate)
    ensures !IsIsoShape("2025-04-06")
    ensures !IsIsoShape("2025-04-06T08:00:00")
    ensures !IsIsoShape("2025-04-06T08:00:00+00:00")
  {
    var s := "2025-04-06T08:00:00+00:00";
    assert |s| == 25;
  }

  // ---------------------------------------------------------------------
  // Effects of a request on the namespace

  datatype KvOp = KvGet(key: string) | KvPut(key: string)

  /** A handler's reply, the namespace operations it performs and the configuration it writes. */
  datatype Effect = Effect(reply: JsonReply, ops: seq<KvOp>, written: Option<Config>)

  /** The namespace after an effect. */
  function Apply(stored: map<string, Config>, written: Option<Config>): map<string, Config> {
    match written
    case None => stored
    case Some(c) => stored[ConfigKey := c]
  }

  function StoredOr(stored: map<string, Config>, default: Config): Config {
    if ConfigKey in stored then stored[ConfigKey] else default
  }

  // The messages of the API's replies.
  const StatusMessage := "Maintenance API is operational"
  const RetrievedMessage := "Current maintenance status retrieved"
  const EnabledRequired := "Invalid request: enabled field is required and must be a boolean"
  const BadStartTime := "Invalid start_time format, must be ISO 8601"
  const BadEndTime := "Invalid end_time format, must be ISO 8601"
  const UpdateFailed := "Error updating maintenance status: "
  const UpdatedMessage := "Maintenance status updated successfully"
  const UnauthorizedMessage := "Unauthorized"
  const MethodNotAllowedMessage := "Method not allowed"
  const NotFoundMessage := "Not found"

  /** `handleStatusRequest`: never touches the namespace. */
  function StatusEffect(nowIso: string): (e: Effect)
    ensures e.reply.status == 200 && e.ops == [] && e.written == None
    ensures e.reply.body.success && e.reply.body.data == StatusInfo("3.0.0", nowIso)
  {
    Effect(JsonResponse(ApiResponse(true, StatusMessage, StatusInfo("3.0.0", nowIso)), 200), [], None)
  }

  /** `handleGetMaintenanceStatus`. */
  function GetEffect(stored: map<string, Config>): (e: Effect)
    ensures e.reply.status == 200 && e.ops == [KvGet(ConfigKey)] && e.written == None
  {
    Effect(JsonResponse(ApiResponse(true, RetrievedMessage, ConfigData(StoredOr(stored, DisabledConfig))), 200),
           [KvGet(ConfigKey)], None)
  }

  /** The 400 message of an update body, if any, in the order the handler checks. */
  function ValidationError(body: UpdateBody, parseDate: string -> Option<int>): (r: Option<string>)
    ensures r.None? <==>
      (body.enabled.Some?
       && (body.startTime == "" || IsValidIsoDate(body.startTime, parseDate))
       && (body.endTime == "" || IsValidIsoDate(body.endTime, parseDate)))
  {
    if body.enabled.None? then Some(EnabledRequired)
    else if body.startTime != "" && !IsValidIsoDate(body.startTime, parseDate) then Some(BadStartTime)
    else if body.endTime != "" && !IsValidIsoDate(body.endTime, parseDate) then Some(BadEndTime)
    else None
  }

  /** The spread merge: `{ ...current, enabled, updated_at }`, and the window when both times are given. */
  function Merge(current: Config, body: UpdateBody, nowIso: string): (c: Config)
    requires body.enabled.Some?
    ensures c.enabled == body.enabled && c.updatedAt == Some(nowIso) && c.others == current.others
    ensures body.startTime != "" && body.endTime != "" ==> c.window == Some(Window(body.startTime, body.endTime))
    ensures body.startTime == "" || body.endTime == "" ==> c.window == current.window
    ensures current.WellFormed() ==> c.WellFormed()
  {
    Config(body.enabled, Some(nowIso),
           if body.startTime != "" && body.endTime != "" then Some(Window(body.startTime, body.endTime)) else current.window,
           current.others)
  }

  /** `handleUpdateMaintenanceStatus`. */
  function UpdateEffect(stored: map<string, Config>, body: RequestBody, nowIso: string, parseDate: string -> Option<int>): (e: Effect)
    ensures e.reply.status == 500 <==> body.Malformed?
    ensures e.written.Some? <==> e.reply.status == 200
    ensures e.reply.status == 200 ==> e.ops == [KvGet(ConfigKey), KvPut(ConfigKey)] && e.reply.body.data == ConfigData(e.written.value)
    ensures e.reply.status != 200 ==> e.ops == []
  {
    match body
    case Malformed(error) =>
      Effect(JsonResponse(ApiResponse(false, UpdateFailed + error, NoData), 500), [], None)
    case Parsed(update) =>
      match ValidationError(update, parseDate)
      case Some(message) => Effect(JsonResponse(ApiResponse(false, message, NoData), 400), [], None)
      case None =>
        var c := Merge(StoredOr(stored, EmptyConfig), update, nowIso);
        Effect(JsonResponse(ApiResponse(true, UpdatedMessage, ConfigData(c)), 200),
               [KvGet(ConfigKey), KvPut(ConfigKey)], Some(c))
  }

  datatype ApiRequest = ApiRequest(authorization: Option<string>, pathname: string, verb: string, body: RequestBody)

  /** The `switch` of `handleApiRequest`, for an authenticated request. */
  function RouteEffect(stored: map<string, Config>, req: ApiRequest, nowIso: string, parseDate: string -> Option<int>): (e: Effect)
    ensures e.ops != [] ==> StripApiPrefix(req.pathname) == "maintenance" && req.verb in {"GET", "PUT", "POST"}
    ensures e.written.Some? ==> StripApiPrefix(req.pathname) == "maintenance" && req.verb in {"PUT", "POST"}
  {
    match Route(req.pathname, req.verb)
    case StatusEndpoint => StatusEffect(nowIso)
    case GetMaintenance => GetEffect(stored)
    case UpdateMaintenance => UpdateEffect(stored, req.body, nowIso, parseDate)
    case MethodNotAllowed => Effect(JsonResponse(ApiResponse(false, MethodNotAllowedMessage, NoData), 405), [], None)
    case NotFound => Effect(JsonResponse(ApiResponse(false, NotFoundMessage, NoData), 404), [], None)
  }

  /** `handleApiRequest(request, apiKey, namespace)`. */
  function ApiEffect(stored: map<string, Config>, req: ApiRequest, apiKey: string, nowIso: string, parseDate: string -> Option<int>): (e: Effect)
    ensures e.ops != [] ==> apiKey != "" && ValidateApiKey(req.authorization, apiKey)
    ensures !ValidateApiKey(req.authorization, apiKey) ==> e.reply.status == 401
  {
    if !ValidateApiKey(req.authorization, apiKey) then
      Effect(JsonResponse(ApiResponse(false, UnauthorizedMessage, NoData), 401), [], None)
    else RouteEffect(stored, req, nowIso, parseDate)
  }

  // ---------------------------------------------------------------------
  // Properties of the API

  /** An unauthenticated request gets 401, and the namespace is neither read nor written. */
  lemma UnauthenticatedTouchesNothing(stored: map<string, Config>, req: ApiRequest, apiKey: string, nowIso: string, parseDate: string -> Option<int>)
    requires !ValidateApiKey(req.authorization, apiKey)
    ensures var e := ApiEffect(stored, req, apiKey, nowIso, parseDate);
      e.reply.status == 401 && !e.reply.body.success && e.ops == [] && e.written == None
  {
  }

  /** An update is answered 200, 400 or 500. */
  lemma UpdateStatuses(stored: map<string, Config>, body: RequestBody, nowIso: string, parseDate: string -> Option<int>)
    ensures UpdateEffect(stored, body, nowIso, parseDate).reply.status in {200, 400, 500}
  {
  }

  /** Authenticated requests get the status code their route calls for. */
  lemma RouteStatuses(stored: map<string, Config>, req: ApiRequest, apiKey: string, nowIso: string, parseDate: string -> Option<int>)
    requires ValidateApiKey(req.authorization, apiKey)
    ensures var e := ApiEffect(stored, req, apiKey, nowIso, parseDate);
      match Route(req.pathname, req.verb)
      case StatusEndpoint => e.reply.status == 200 && e.ops == []
      case GetMaintenance => e.reply.status == 200 && e.ops == [KvGet(ConfigKey)] && e.written == None
      case UpdateMaintenance => e.reply.status in {200, 400, 500}
      case MethodNotAllowed => e.reply.status == 405 && e.ops == []
      case NotFound => e.reply.status == 404 && e.ops == []
  {
    UpdateStatuses(stored, req.body, nowIso, parseDate);
  }

  /** A body that fails validation gets 400 before the namespace is touched. */
  lemma InvalidUpdateTouchesNothing(stored: map<string, Config>, update: UpdateBody, nowIso: string, parseDate: string -> Option<int>)
    requires update.enabled.None?
      || (update.startTime != "" && !IsValidIsoDate(update.startTime, parseDate))
      || (update.endTime != "" && !IsValidIsoDate(update.endTime, parseDate))
    ensures var e := UpdateEffect(stored, Parsed(update), nowIso, parseDate);
      e.reply.status == 400 && e.ops == [] && e.written == None
  {
  }

  /**
   * A valid update overwrites `enabled` and `updated_at`, keeps every other
   * prior field, replaces the window only when both times are given, and
   * replies with exactly the configuration it stores.
   */
  lemma ValidUpdateMerges(stored: map<string, Config>, update: UpdateBody, nowIso: string, parseDate: string -> Option<int>)
    requires ValidationError(update, parseDate).None?
    ensures var e := UpdateEffect(stored, Parsed(update), nowIso, parseDate);
      var prior := StoredOr(stored, EmptyConfig);
      && e.written.Some?
      && e.reply.status == 200
      && e.reply.body.data == ConfigData(e.written.value)
      && e.written.value.enabled == update.enabled
      && e.written.value.updatedAt == Some(nowIso)
      && e.written.value.others == prior.others
      && (update.startTime != "" && update.endTime != "" ==> e.written.value.window == Some(Window(update.startTime, update.endTime)))
      && (update.startTime == "" || update.endTime == "" ==> e.written.value.window == prior.window)
  {
  }

  /** An update writes a well-formed object whenever the stored one was. */
  lemma UpdateKeepsWellFormed(stored: map<string, Config>, body: RequestBody, nowIso: string, parseDate: string -> Option<int>)
    requires ConfigKey in stored ==> stored[ConfigKey].WellFormed()
    ensures var e := UpdateEffect(stored, body, nowIso, parseDate);
      e.written.Some? ==> e.written.value.WellFormed()
  {
  }

  /** Repeating an update at the same instant changes nothing further. */
  lemma MergeIdempotent(current: Config, update: UpdateBody, nowIso: string)
    requires update.enabled.Some?
    ensures Merge(Merge(current, update, nowIso), update, nowIso) == Merge(current, update, nowIso)
  {
  }

  /** A read reports `{ enabled: false }` when nothing is stored, and what is stored otherwise. */
  lemma GetReportsStored(stored: map<string, Config>)
    ensures ConfigKey !in stored ==> GetEffect(stored).reply.body.data == ConfigData(DisabledConfig)
    ensures ConfigKey in stored ==> GetEffect(stored).reply.body.data == ConfigData(stored[ConfigKey])
    ensures GetEffect(stored).written == None
  {
  }

  /** A read after a successful update reports what the update replied with. */
  lemma ReadAfterUpdate(stored: map<string, Config>, body: RequestBody, nowIso: string, parseDate: string -> Option<int>)
    requires UpdateEffect(stored, body, nowIso, parseDate).reply.status == 200
    ensures var e := UpdateEffect(stored, body, nowIso, parseDate);
      GetEffect(Apply(stored, e.written)).reply.body.data == e.reply.body.data
  {
  }

  // ---------------------------------------------------------------------
  // The namespace and the handlers

  /** The KV namespace holding the configuration, with a record of the operations made on it. */
  class KvNamespace {
    var entries: map<string, Config>
    ghost var log: seq<KvOp>

    constructor (initial: map<string, Config>)
      ensures entries == initial && log == []
    {
      entries := initial;
      log := [];
    }

    /** `namespace.get(key, { type: 'json' })`: the stored value, or null. */
    method Get(key: string) returns (v: Option<Config>)
      modifies this
      ensures entries == old(entries) && log == old(log) + [KvGet(key)]
      ensures v == if key in entries then Some(entries[key]) else None
    {
      v := if key in entries then Some(entries[key]) else None;
      log := log + [KvGet(key)];
    }

    /** `namespace.put(key, value)`. */
    method Put(key: string, value: Config)
      modifies this
      ensures entries == old(entries)[key := value] && log == old(log) + [KvPut(key)]
    {
      entries := entries[key := value];
      log := log + [KvPut(key)];
    }
  }

  method HandleGetMaintenanceStatus(ns: KvNamespace) returns (reply: JsonReply)
    modifies ns
    ensures var e := GetEffect(old(ns.entries));
      reply == e.reply && ns.log == old(ns.log) + e.ops && ns.entries == Apply(old(ns.entries), e.written)
  {
    var stored := ns.Get(ConfigKey);
    var config := stored.GetOr(DisabledConfig);
    reply := JsonResponse(ApiResponse(true, RetrievedMessage, ConfigData(config)), 200);
  }

  method HandleUpdateMaintenanceStatus(body: RequestBody, ns: KvNamespace, nowIso: string, parseDate: string -> Option<int>)
    returns (reply: JsonReply)
    modifies ns
    ensures var e := UpdateEffect(old(ns.entries), body, nowIso, parseDate);
      reply == e.reply && ns.log == old(ns.log) + e.ops && ns.entries == Apply(old(ns.entries), e.written)
  {
    if body.Malformed? {
      return JsonResponse(ApiResponse(false, UpdateFailed + body.error, NoData), 500);
    }
    var update := body.update;
    // The three 400 checks, in the handler's order.
    var error := ValidationError(update, parseDate);
    if error.Some? {
      return JsonResponse(ApiResponse(false, error.value, NoData), 400);
    }
    reply := StoreUpdate(update, ns, nowIso);
  }

  /** The read-merge-write of a validated update, and its 200 reply. */
  method StoreUpdate(update: UpdateBody, ns: KvNamespace, nowIso: string) returns (reply: JsonReply)
    requires update.enabled.Some?
    modifies ns
    ensures var c := Merge(StoredOr(old(ns.entries), EmptyConfig), update, nowIso);
      && reply == JsonResponse(ApiResponse(true, UpdatedMessage, ConfigData(c)), 200)
      && ns.log == old(ns.log) + [KvGet(ConfigKey), KvPut(ConfigKey)]
      && ns.entries == old(ns.entries)[ConfigKey := c]
  {
    var stored := ns.Get(ConfigKey);
    var current := stored.GetOr(EmptyConfig);
    var newConfig := Config(update.enabled, Some(nowIso), current.window, current.others);
    if update.startTime != "" && update.endTime != "" {
      newConfig := newConfig.(window := Some(Window(update.startTime, update.endTime)));
    }
    ns.Put(ConfigKey, newConfig);
    reply := JsonResponse(ApiResponse(true, UpdatedMessage, ConfigData(newConfig)), 200);
  }

  method HandleApiRequest(req: ApiRequest, apiKey: string, ns: KvNamespace, nowIso: string, parseDate: string -> Option<int>)
    returns (reply: JsonReply)
    modifies ns
    ensures var e := ApiEffect(old(ns.entries), req, apiKey, nowIso, parseDate);
      reply == e.reply && ns.log == old(ns.log) + e.ops && ns.entries == Apply(old(ns.entries), e.written)
  {
    if !ValidateApiKey(req.authorization, apiKey) {
      return JsonResponse(ApiResponse(false, UnauthorizedMessage, NoData), 401);
    }
    reply := Dispatch(req, ns, nowIso, parseDate);
  }

  /** The routing `switch` of `handleApiRequest`. */
  method Dispatch(req: ApiRequest, ns: KvNamespace, nowIso: string, parseDate: string -> Option<int>)
    returns (reply: JsonReply)
    modifies ns
    ensures var e := RouteEffect(old(ns.entries), req, nowIso, parseDate);
      reply == e.reply && ns.log == old(ns.log) + e.ops && ns.entries == Apply(old(ns.entries), e.written)
  {
    match Route(req.pathname, req.verb)
    case StatusEndpoint =>
      reply := StatusEffect(nowIso).reply;
    case GetMaintenance =>
      reply := HandleGetMaintenanceStatus(ns);
    case UpdateMaintenance =>
      reply := HandleUpdateMaintenanceStatus(req.body, ns, nowIso, parseDate);
    case MethodNotAllowed =>
      reply := JsonResponse(ApiResponse(false, MethodNotAllowedMessage, NoData), 405);
    case NotFound =>
      reply := JsonResponse(ApiResponse(false, NotFoundMessage, NoData), 404);
  }
}
