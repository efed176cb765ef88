/** The REST client of the stairs-lighting integration: for every remote
    operation, the HTTP request it sends and the value it hands back for each
    way the exchange can end. The HTTP layer itself is abstract: a request is
    a value, and what came back is an `Outcome` given as input. */
module Api {
  import opened Wrappers
  import Decimal

  /** The client holds the controller's host and port; its base URL is fixed
      when it is built. */
  datatype Client = Client(host: string, port: int)

  /** The base URL is the scheme, the host, a ':', the port's numeral and
      the "/api" prefix. The numeral holds no ':', so the last ':' ends the
      host, and the port reads back from it. */
  function BaseUrl(c: Client): (u: string)
    ensures |u| > |c.host| + 12
    ensures u[..7] == "http://" && u[|u| - 4..] == "/api"
    ensures u[7..7 + |c.host|] == c.host && u[7 + |c.host|] == ':'
    ensures forall k :: 8 + |c.host| <= k < |u| - 4 ==> u[k] != ':'
    ensures Decimal.ParseInt(u[8 + |c.host|..|u| - 4]) == Some(c.port)
  {
    var p := Decimal.FromInt(c.port);
    var u := "http://" + c.host + ":" + p + "/api";
    assert u[8 + |c.host|..|u| - 4] == p;
    Decimal.ParseIntFromInt(c.port);
    u
  }

  datatype RGB = RGB(red: int, green: int, blue: int)

  datatype HttpMethod = Get | Post

  datatype Json = JInt(i: int) | JStr(s: string)

  /** One HTTP request: verb, full URL, the JSON object sent as body (none
      for a GET) and the total timeout in seconds when one is set explicitly. */
  datatype Request = Request(verb: HttpMethod, url: string, json: Option<map<string, Json>>, timeout: Option<nat>)

  /** The remote operations, one per client method. */
  datatype ApiCall =
    | SetSolidColor(strip: int, rgb: RGB)
    | SetBrightness(strip: int, brightness: int)
    | CheckAvailability
    | GetStatus(strip: int)
    | TurnOnStrip(strip: int)
    | TurnOffStrip(strip: int)
    | SetEffect(strip: int, effect: string)
    | GetAllStatuses

  /** Seconds the health check waits before it gives up. */
  const HealthTimeout: nat := 5

  const StatusQuery := "/led/status?strip_number="

  // ---------------------------------------------------------------------
  // The controller's side: which operation a request asks for.

  function IntAt(body: map<string, Json>, key: string): Option<int> {
    if key in body && body[key].JInt? then Some(body[key].i) else None
  }

  function StrAt(body: map<string, Json>, key: string): Option<string> {
    if key in body && body[key].JStr? then Some(body[key].s) else None
  }

  /** The endpoint table of the controller's REST service, read from the
      server's side: the operation a request under `base` addresses, with its
      arguments recovered from the query string or the JSON body, or `None`
      when the request matches no endpoint. A status query must carry the
      strip as `str` writes it, and a POST body must hold exactly the keys of
      its endpoint (`BodyKeys`). */
  function Route(base: string, req: Request): Option<ApiCall> {
    if base <= req.url then Endpoint(req.verb, req.url[|base|..], req.json) else None
  }

  /** The endpoint table below the base URL. */
  function Endpoint(verb: HttpMethod, path: string, json: Option<map<string, Json>>): Option<ApiCall> {
    match verb
    case Get => if json.Some? then None else GetCall(path)
    case Post =>
      match json
      case None => None
      case Some(body) => PostRoute(path, body)
  }

  /** The query endpoints, which take no body. */
  function GetCall(path: string): Option<ApiCall> {
    if path == "/health" then Some(CheckAvailability)
    else if path == "/led/status/all" then Some(GetAllStatuses)
    else if StatusQuery <= path then
      var query := path[|StatusQuery|..];
      match Decimal.ParseInt(query)
      case Some(n) => if Decimal.FromInt(n) == query then Some(GetStatus(n)) else None
      case None => None
    else None
  }

  /** A setter endpoint accepts a body holding exactly its keys. */
  function PostRoute(path: string, body: map<string, Json>): Option<ApiCall> {
    match PostCall(path, body)
    case Some(call) => if body.Keys == BodyKeys(call) then Some(call) else None
    case None => None
  }

  /** The setter endpoints: the operation a POST of `body` to `path` asks for,
      when the body holds its arguments. Setters key the strip as
      "step_number", except the effect endpoint, which keys it "strip_number". */
  function PostCall(path: string, body: map<string, Json>): Option<ApiCall> {
    if path == "/animation/solidcolor" then
      match (IntAt(body, "step_number"), IntAt(body, "red"), IntAt(body, "green"), IntAt(body, "blue"))
      case (Some(n), Some(r), Some(g), Some(b)) => Some(SetSolidColor(n, RGB(r, g, b)))
      case _ => None
    else if path == "/brightness" then
      match (IntAt(body, "step_number"), IntAt(body, "brightness"))
      case (Some(n), Some(v)) => Some(SetBrightness(n, v))
      case _ => None
    else if path == "/led/turn_on" then
      match IntAt(body, "step_number")
      case Some(n) => Some(TurnOnStrip(n))
      case None => None
    else if path == "/led/turn_off" then
      match IntAt(body, "step_number")
      case Some(n) => Some(TurnOffStrip(n))
      case None => None
    else if path == "/led/effect" then
      match (IntAt(body, "strip_number"), StrAt(body, "effect"))
      case (Some(n), Some(e)) => Some(SetEffect(n, e))
      case _ => None
    else None
  }

  /** A call that names a strip in its JSON body. */
  predicate KeysStripInBody(call: ApiCall) {
    call.SetSolidColor? || call.SetBrightness? || call.TurnOnStrip? || call.TurnOffStrip? || call.SetEffect?
  }

  /** The keys of the JSON body each endpoint takes; none for a GET. Every
      strip-addressed body names the strip "step_number", except that of the
      effect endpoint, which names it "strip_number". */
  function BodyKeys(call: ApiCall): (keys: set<string>)
    ensures "strip_number" in keys <==> call.SetEffect?
    ensures "step_number" in keys <==> KeysStripInBody(call) && !call.SetEffect?
    ensures keys == {} <==> !KeysStripInBody(call)
  {
    match call
    case SetSolidColor(_, _) => {"step_number", "red", "green", "blue"}
    case SetBrightness(_, _) => {"step_number", "brightness"}
    case TurnOnStrip(_) => {"step_number"}
    case TurnOffStrip(_) => {"step_number"}
    case SetEffect(_, _) => {"strip_number", "effect"}
    case CheckAvailability => {}
    case GetStatus(_) => {}
    case GetAllStatuses => {}
  }

  /** A request for a path below the base reaches that path's endpoint. */
  lemma RouteUnderBase(base: string, verb: HttpMethod, path: string, json: Option<map<string, Json>>, timeout: Option<nat>)
    ensures Route(base, Request(verb, base + path, json, timeout)) == Endpoint(verb, path, json)
  {
    assert base <= base + path && (base + path)[|base|..] == path;
  }

  // ---------------------------------------------------------------------
  // The client's side: the request each client method sends.

  lemma EndpointSolidColor(strip: int, rgb: RGB)
    ensures Endpoint(Post, "/animation/solidcolor", Some(map["step_number" := JInt(strip), "red" := JInt(rgb.red), "green" := JInt(rgb.green), "blue" := JInt(rgb.blue)])) == Some(SetSolidColor(strip, rgb))
  {
  }

  lemma EndpointBrightness(strip: int, brightness: int)
    ensures Endpoint(Post, "/brightness", Some(map["step_number" := JInt(strip), "brightness" := JInt(brightness)])) == Some(SetBrightness(strip, brightness))
  {
  }

  lemma EndpointHealth()
    ensures Endpoint(Get, "/health", None) == Some(CheckAvailability)
  {
  }

  lemma EndpointTurnOn(strip: int)
    ensures Endpoint(Post, "/led/turn_on", Some(map["step_number" := JInt(strip)])) == Some(TurnOnStrip(strip))
  {
  }

  lemma EndpointTurnOff(strip: int)
    ensures Endpoint(Post, "/led/turn_off", Some(map["step_number" := JInt(strip)])) == Some(TurnOffStrip(strip))
  {
  }

  lemma EndpointEffect(strip: int, effect: string)
    ensures Endpoint(Post, "/led/effect", Some(map["strip_number" := JInt(strip), "effect" := JStr(effect)])) == Some(SetEffect(strip, effect))
  {
  }

  lemma EndpointAllStatuses()
    ensures Endpoint(Get, "/led/status/all", None) == Some(GetAllStatuses)
  {
  }

  lemma {:induction false} EndpointStatus(strip: int)
    ensures Endpoint(Get, StatusQuery + Decimal.FromInt(strip), None) == Some(GetStatus(strip))
  {
    assert (StatusQuery + Decimal.FromInt(strip))[|StatusQuery|..] == Decimal.FromInt(strip);
    Decimal.ParseIntFromInt(strip);
  }

  function SolidColorRequest(c: Client, strip: int, rgb: RGB): (r: Request)
    ensures Route(BaseUrl(c), r) == Some(SetSolidColor(strip, rgb))
    ensures r.verb == Post && r.timeout == None
  {
    var body := map["step_number" := JInt(strip), "red" := JInt(rgb.red),
                "green" := JInt(rgb.green), "blue" := JInt(rgb.blue)];
    EndpointSolidColor(strip, rgb);
    RouteUnderBase(BaseUrl(c), Post, "/animation/solidcolor", Some(body), None);
    Request(Post, BaseUrl(c) + "/animation/solidcolor", Some(body), None)
  }

  function BrightnessRequest(c: Client, strip: int, brightness: int): (r: Request)
    ensures Route(BaseUrl(c), r) == Some(SetBrightness(strip, brightness))
    ensures r.verb == Post && r.timeout == None
  {
    var body := map["step_number" := JInt(strip), "brightness" := JInt(brightness)];
    EndpointBrightness(strip, brightness);
    RouteUnderBase(BaseUrl(c), Post, "/brightness", Some(body), None);
    Request(Post, BaseUrl(c) + "/brightness", Some(body), None)
  }

  function HealthRequest(c: Client): (r: Request)
    ensures Route(BaseUrl(c), r) == Some(CheckAvailability)
    ensures r.verb == Get && r.timeout == Some(HealthTimeout)
  {
    EndpointHealth();
    RouteUnderBase(BaseUrl(c), Get, "/health", None, Some(HealthTimeout));
    Request(Get, BaseUrl(c) + "/health", None, Some(HealthTimeout))
  }

  function StatusRequest(c: Client, strip: int): (r: Request)
    ensures Route(BaseUrl(c), r) == Some(GetStatus(strip))
    ensures r.verb == Get && r.timeout == None
  {
    var path := StatusQuery + Decimal.FromInt(strip);
    EndpointStatus(strip);
    RouteUnderBase(BaseUrl(c), Get, path, None, None);
    Request(Get, BaseUrl(c) + path, None, None)
  }

  function TurnOnRequest(c: Client, strip: int): (r: Request)
    ensures Route(BaseUrl(c), r) == Some(TurnOnStrip(strip))
    ensures r.verb == Post && r.timeout == None
  {
    var body := map["step_number" := JInt(strip)];
    EndpointTurnOn(strip);
    RouteUnderBase(BaseUrl(c), Post, "/led/turn_on", Some(body), None);
    Request(Post, BaseUrl(c) + "/led/turn_on", Some(body), None)
  }

  function TurnOffRequest(c: Client, strip: int): (r: Request)
    ensures Route(BaseUrl(c), r) == Some(TurnOffStrip(strip))
    ensures r.verb == Post && r.timeout == None
  {
    var body := map["step_number" := JInt(strip)];
    EndpointTurnOff(strip);
    RouteUnderBase(BaseUrl(c), Post, "/led/turn_off", Some(body), None);
    Request(Post, BaseUrl(c) + "/led/turn_off", Some(body), None)
  }

  function EffectRequest(c: Client, strip: int, effect: string): (r: Request)
    ensures Route(BaseUrl(c), r) == Some(SetEffect(strip, effect))
    ensures r.verb == Post && r.timeout == None
  {
    var body := map["strip_number" := JInt(strip), "effect" := JStr(effect)];
    EndpointEffect(strip, effect);
    RouteUnderBase(BaseUrl(c), Post, "/led/effect", Some(body), None);
    Request(Post, BaseUrl(c) + "/led/effect", Some(body), None)
  }

  function AllStatusesRequest(c: Client): (r: Request)
    ensures Route(BaseUrl(c), r) == Some(GetAllStatuses)
    ensures r.verb == Get && r.timeout == None
  {
    EndpointAllStatuses();
    RouteUnderBase(BaseUrl(c), Get, "/led/status/all", None, None);
    Request(Get, BaseUrl(c) + "/led/status/all", None, None)
  }

  /** The request the client sends for a call, as the log of an entity records
      it; the controller recovers the call from it unchanged. */
  function RequestFor(c: Client, call: ApiCall): (r: Request)
    ensures Route(BaseUrl(c), r) == Some(call)
    ensures r.timeout == (if call.CheckAvailability? then Some(HealthTimeout) else None)
  {
    match call
    case SetSolidColor(n, rgb) => SolidColorRequest(c, n, rgb)
    case SetBrightness(n, b) => BrightnessRequest(c, n, b)
    case CheckAvailability => HealthRequest(c)
    case GetStatus(n) => StatusRequest(c, n)
    case TurnOnStrip(n) => TurnOnRequest(c, n)
    case TurnOffStrip(n) => TurnOffRequest(c, n)
    case SetEffect(n, e) => EffectRequest(c, n, e)
    case GetAllStatuses => AllStatusesRequest(c)
  }

  /** A request carries a JSON body exactly when it is a POST, which it is
      exactly for the strip-addressed calls, and the body holds exactly the
      keys of its endpoint. */
  lemma {:induction false} RequestBody(c: Client, call: ApiCall)
    ensures RequestFor(c, call).json.Some? <==> RequestFor(c, call).verb == Post
    ensures RequestFor(c, call).verb == Post <==> KeysStripInBody(call)
    ensures RequestFor(c, call).json.Some? ==> RequestFor(c, call).json.value.Keys == BodyKeys(call)
  {
  }

  /** The controller accepts exactly one request for a call under a client's
      base URL, given its timeout: the one the client sends. So the
      round trip in `RequestFor` pins the verb, the URL and the whole body. */
  lemma {:induction false} RouteDeterminesRequest(c: Client, call: ApiCall, req: Request)
    requires Route(BaseUrl(c), req) == Some(call)
    requires req.timeout == RequestFor(c, call).timeout
    ensures req == RequestFor(c, call)
  {
    var path := req.url[|BaseUrl(c)|..];
    RouteSplit(BaseUrl(c), req);
    var expected := RequestFor(c, call);
    if req.verb == Post {
      PostDetermined(c, path, req.json.value, call);
    } else {
      GetDetermined(c, path, call);
    }
    assert req.verb == expected.verb && req.url == expected.url && req.json == expected.json;
  }

  /** An accepted request lies below the base, at the path its endpoint reads. */
  lemma {:induction false} RouteSplit(base: string, req: Request)
    requires Route(base, req).Some?
    ensures req.url == base + req.url[|base|..]
    ensures Route(base, req) == Endpoint(req.verb, req.url[|base|..], req.json)
  {
  }

  lemma {:induction false} GetDetermined(c: Client, path: string, call: ApiCall)
    requires GetCall(path) == Some(call)
    ensures RequestFor(c, call).verb == Get && RequestFor(c, call).json.None?
    ensures RequestFor(c, call).url == BaseUrl(c) + path
  {
    if call.CheckAvailability? {
      assert path == "/health";
    } else if call.GetAllStatuses? {
      assert path == "/led/status/all";
    } else {
      var query := path[|StatusQuery|..];
      assert call.GetStatus? && Decimal.FromInt(call.strip) == query;
      assert path == StatusQuery + query;
    }
  }

  lemma {:induction false} PostDetermined(c: Client, path: string, body: map<string, Json>, call: ApiCall)
    requires PostRoute(path, body) == Some(call)
    ensures RequestFor(c, call).verb == Post
    ensures RequestFor(c, call).url == BaseUrl(c) + path
    ensures RequestFor(c, call).json == Some(body)
  {
    assert PostCall(path, body) == Some(call) && body.Keys == BodyKeys(call);
    match call
    case SetSolidColor(n, rgb) => SolidColorBody(path, body, n, rgb);
    case SetBrightness(n, b) => BrightnessBody(path, body, n, b);
    case TurnOnStrip(n) => StripOnlyBody(path, body, n);
    case TurnOffStrip(n) => StripOnlyBody(path, body, n);
    case SetEffect(n, e) => EffectBody(path, body, n, e);
  }

  lemma {:induction false} SolidColorBody(path: string, body: map<string, Json>, n: int, rgb: RGB)
    requires PostCall(path, body) == Some(SetSolidColor(n, rgb))
    requires body.Keys == BodyKeys(SetSolidColor(n, rgb))
    ensures path == "/animation/solidcolor"
    ensures body == map["step_number" := JInt(n), "red" := JInt(rgb.red), "green" := JInt(rgb.green), "blue" := JInt(rgb.blue)]
  {
  }

  lemma {:induction false} BrightnessBody(path: string, body: map<string, Json>, n: int, b: int)
    requires PostCall(path, body) == Some(SetBrightness(n, b))
    requires body.Keys == BodyKeys(SetBrightness(n, b))
    ensures path == "/brightness"
    ensures body == map["step_number" := JInt(n), "brightness" := JInt(b)]
  {
  }

  lemma {:induction false} StripOnlyBody(path: string, body: map<string, Json>, n: int)
    requires PostCall(path, body) == Some(TurnOnStrip(n)) || PostCall(path, body) == Some(TurnOffStrip(n))
    requires body.Keys == {"step_number"}
    ensures path == (if PostCall(path, body).value.TurnOnStrip? then "/led/turn_on" else "/led/turn_off")
    ensures body == map["step_number" := JInt(n)]
  {
  }

  lemma {:induction false} EffectBody(path: string, body: map<string, Json>, n: int, e: string)
    requires PostCall(path, body) == Some(SetEffect(n, e))
    requires body.Keys == BodyKeys(SetEffect(n, e))
    ensures path == "/led/effect"
    ensures body == map["strip_number" := JInt(n), "effect" := JStr(e)]
  {
  }

  /** Different host/port pairs never share a base URL: the host ends at
      the last ':' and the port reads back from what follows it. */
  lemma {:induction false} BaseUrlInjective(c1: Client, c2: Client)
    requires BaseUrl(c1) == BaseUrl(c2)
    ensures c1 == c2
  {
    var u := BaseUrl(c1);
    assert |c1.host| == |c2.host|;
    assert c1.host == u[7..7 + |c1.host|] == c2.host;
  }

  // ---------------------------------------------------------------------
  // What a client method hands back for each way the exchange can end.

  /** How an HTTP exchange ended: a response with its status and decoded body,
      an aiohttp client error (connection refused, invalid URL, response
      error), or a plain TimeoutError, which is not an aiohttp client error. */
  datatype Outcome<B> = Response(status: int, body: B) | ClientError | Timeout

  /** What a client method produces: a returned value, or a TimeoutError
      that escapes it. */
  datatype Reply<T> = Returned(value: T) | TimedOut

  /** The setters (colour, brightness, turn on, turn off, effect) return
      nothing whatever the status, and swallow client errors; they catch
      nothing else, so only a timeout escapes them. */
  function SetterReply<B>(o: Outcome<B>): (r: Reply<()>)
    ensures r.TimedOut? <==> o.Timeout?
  {
    match o
    case Response(_, _) => Returned(())
    case ClientError => Returned(())
    case Timeout => TimedOut
  }

  /** The health check is up exactly on status 200; any other status, a
      timeout or a client error reads as down, and nothing escapes it. */
  function HealthReply<B>(o: Outcome<B>): (up: bool)
    ensures up <==> o.Response? && o.status == 200
  {
    match o
    case Response(status, _) => status == 200
    case ClientError => false
    case Timeout => false
  }

  /** The single and the bulk status calls return the decoded body exactly on
      status 200, `None` on any other status or a client error, and let a
      timeout escape. */
  function StatusReply<B>(o: Outcome<B>): (r: Reply<Option<B>>)
    ensures r.TimedOut? <==> o.Timeout?
    ensures r.Returned? && r.value.Some? <==> o.Response? && o.status == 200
    ensures r.Returned? && r.value.Some? ==> r.value.value == o.body
  {
    match o
    case Response(status, body) => if status == 200 then Returned(Some(body)) else Returned(None)
    case ClientError => Returned(None)
    case Timeout => TimedOut
  }
}
