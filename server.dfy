/**
 * `WebServer.serve`: the token check, then routing on the path, then the JSON
 * rendering of the last fix. The function is pure: the stored preferences,
 * the service's `lastLocation` (read once) and the clock are its inputs.
 */
module Server {
  import opened Wrappers
  import opened Platform

  const ApiPath: string := "/time"
  const DefaultToken: string := "123456"
  const DefaultPort: int := 8888

  /** The port the server binds, read once from the preferences when it is constructed. */
  function ListeningPort(prefs: Prefs): (p: int)
    ensures prefs.port.None? ==> p == 8888
    ensures prefs.port.Some? ==> p == prefs.port.value
  {
    prefs.port.GetOr(DefaultPort)
  }

  const MimePlaintext: string := "text/plain"
  const MimeJson: string := "application/json"
  const UnauthorizedText: string := "Unauthorized: Invalid token"
  const NotFoundText: string := "Not Found"

  /** A decoded HTTP request: its path and its query parameters, each with all its values in order. */
  datatype Request = Request(uri: string, parameters: map<string, seq<string>>)

  /** The response statuses `serve` uses: 200, 401 and 404. */
  datatype Status = Ok | Unauthorized | NotFound

  /** The fields of the JSON object, under the keys named in the comments. */
  datatype LocationJson = LocationJson(
    latitude: real,         // "latitude"
    longitude: real,        // "longitude"
    timestamp: int,         // "timestamp": the server's clock
    accuracy: real,         // "accuracy"
    speed: real,            // "speed"
    status: string,         // "status": "active" or "waiting"
    locationTime: int)      // "location_time"

  datatype Body = Text(text: string) | Json(json: LocationJson)

  datatype Header = Header(name: string, value: string)

  /** A response: status, MIME type, body and the headers `serve` adds itself. */
  datatype Response = Response(status: Status, mimeType: string, body: Body, headers: seq<Header>)

  const CorsHeaders: seq<Header> :=
    [Header("Access-Control-Allow-Origin", "*"), Header("Access-Control-Allow-Methods", "GET")]

  /** `getValidToken`: the stored token, or the default when none is stored. */
  function ValidToken(prefs: Prefs): string {
    prefs.token.GetOr(DefaultToken)
  }

  /** `session.parameters["token"]?.firstOrNull()`. */
  function QueryToken(req: Request): Option<string> {
    if "token" in req.parameters && |req.parameters["token"]| > 0
    then Some(req.parameters["token"][0])
    else None
  }

  /** The JSON object built from the fix read at the start of the `/time` branch. */
  function LocationToJson(location: Option<Location>, now: int): LocationJson {
    LocationJson(
      latitude := if location.Some? then location.value.latitude else 0.0,
      longitude := if location.Some? then location.value.longitude else 0.0,
      timestamp := now,
      accuracy := if location.Some? then location.value.accuracy else 0.0,
      speed := if location.Some? && location.value.speed.Some? then location.value.speed.value else 0.0,
      status := if location.Some? then "active" else "waiting",
      locationTime := if location.Some? then location.value.time else 0)
  }

  /** What a client reading the JSON learns about the fix: none while "waiting". */
  function JsonToFix(json: LocationJson): Option<(real, real, real, real, int)> {
    if json.status == "active"
    then Some((json.latitude, json.longitude, json.accuracy, json.speed, json.locationTime))
    else None
  }

  /** The request carries a first `token` value equal to the stored (or default) token. */
  predicate Authorized(req: Request, prefs: Prefs) {
    "token" in req.parameters
    && req.parameters["token"] != []
    && req.parameters["token"][0] == ValidToken(prefs)
  }

  /**
   * `serve`: reject a missing or wrong token whatever the path, then answer
   * `/time` with the JSON and the CORS headers, and every other path with 404.
   */
  function Serve(req: Request, prefs: Prefs, lastLocation: Option<Location>, now: int): (r: Response)
    ensures r.status == Unauthorized <==> !Authorized(req, prefs)
    ensures r.status == NotFound <==> Authorized(req, prefs) && req.uri != ApiPath
    ensures r.status == Ok <==> Authorized(req, prefs) && req.uri == ApiPath
    ensures r.status == Unauthorized ==>
      r.mimeType == MimePlaintext && r.body == Text(UnauthorizedText) && r.headers == []
    ensures r.status == NotFound ==>
      r.mimeType == MimePlaintext && r.body == Text(NotFoundText) && r.headers == []
    ensures r.status == Ok ==>
      r.mimeType == MimeJson && r.headers == CorsHeaders && r.body.Json? && r.body.json.timestamp == now
  {
    var token := QueryToken(req);
    var validToken := ValidToken(prefs);
    if token != Some(validToken) then
      Response(Unauthorized, MimePlaintext, Text(UnauthorizedText), [])
    else if req.uri == ApiPath then
      Response(Ok, MimeJson, Json(LocationToJson(lastLocation, now)), CorsHeaders)
    else
      Response(NotFound, MimePlaintext, Text(NotFoundText), [])
  }

  /**
   * With no fix every number is 0 and the status is "waiting"; with a fix the
   * status is "active" and the client reads back the fix's latitude,
   * longitude, accuracy and time, and its own speed, or 0 when it has none.
   */
  lemma JsonRoundTrip(req: Request, prefs: Prefs, lastLocation: Option<Location>, now: int)
    requires Authorized(req, prefs) && req.uri == ApiPath
    ensures var json := Serve(req, prefs, lastLocation, now).body.json;
      match lastLocation
      case None =>
        json == LocationJson(0.0, 0.0, now, 0.0, 0.0, "waiting", 0) && JsonToFix(json).None?
      case Some(fix) =>
        json.status == "active"
        && JsonToFix(json) == Some((fix.latitude, fix.longitude, fix.accuracy, fix.speed.GetOr(0.0), fix.time))
  {
  }

  /** Only the first `token` value counts: values after it never change the response. */
  lemma OnlyFirstTokenCompared(req: Request, extra: seq<string>, prefs: Prefs, lastLocation: Option<Location>, now: int)
    requires "token" in req.parameters && req.parameters["token"] != []
    ensures var repeated := req.(parameters := req.parameters["token" := req.parameters["token"] + extra]);
      Serve(repeated, prefs, lastLocation, now) == Serve(req, prefs, lastLocation, now)
  {
  }

  /**
   * The token is looked up on each request: a request that one stored token
   * admits is refused as soon as a different token is stored, with no restart.
   */
  lemma TokenReadPerRequest(req: Request, before: Prefs, after: Prefs, lastLocation: Option<Location>, now: int)
    requires Authorized(req, before) && ValidToken(after) != ValidToken(before)
    ensures Serve(req, after, lastLocation, now).status == Unauthorized
  {
  }

  /** While no token is stored, the default "123456" is the one admitted, and only it. */
  lemma DefaultTokenWhenUnset(req: Request, prefs: Prefs, lastLocation: Option<Location>, now: int)
    requires prefs.token.None?
    ensures Serve(req, prefs, lastLocation, now).status != Unauthorized
        <==> QueryToken(req) == Some("123456")
  {
  }
}
