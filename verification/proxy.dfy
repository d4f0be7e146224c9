/** The stateless proxy: it turns a route name and its query parameters into
    exactly one upstream URL (or an error response), and turns the upstream
    reply into the response the browser sees.

    The request handler is split in two pure steps: `Dispatch` decides, from
    the configured key and the query parameters, whether to forward and to
    which URL; `Relay` maps the upstream outcome to the final response.
    `encodeURIComponent`, `fetch` and the `JSON.parse`/`JSON.stringify` round
    are parameters. */
module Proxy {
  import opened Js
  import Regions

  const RegionHosts: map<string, string> := map[
    "americas" := "https://americas.api.riotgames.com",
    "europe" := "https://europe.api.riotgames.com",
    "asia" := "https://asia.api.riotgames.com"]

  const PlatformHosts: map<string, string> := map[
    "br1" := "https://br1.api.riotgames.com",
    "na1" := "https://na1.api.riotgames.com",
    "euw1" := "https://euw1.api.riotgames.com",
    "eun1" := "https://eun1.api.riotgames.com",
    "kr" := "https://kr.api.riotgames.com",
    "jp1" := "https://jp1.api.riotgames.com",
    "la1" := "https://la1.api.riotgames.com",
    "la2" := "https://la2.api.riotgames.com",
    "oc1" := "https://oc1.api.riotgames.com",
    "tr1" := "https://tr1.api.riotgames.com",
    "ru" := "https://ru.api.riotgames.com",
    "ph2" := "https://ph2.api.riotgames.com",
    "sg2" := "https://sg2.api.riotgames.com",
    "th2" := "https://th2.api.riotgames.com",
    "tw2" := "https://tw2.api.riotgames.com",
    "vn2" := "https://vn2.api.riotgames.com"]

  const MissingKeyMessage := "Missing RIOT_API_KEY environment variable"
  const UnknownRouteMessage := "Unknown route"
  const InvalidRegionMessage := "Invalid region"
  const InvalidPlatformMessage := "Invalid platform"

  /** What the handler decides before any upstream call. */
  datatype Decision = Forward(url: string) | Respond(status: nat, error: string)

  datatype Body = ErrorBody(error: string) | JsonBody(json: string)
  datatype Response = Response(status: nat, body: Body)

  /** The upstream HTTP reply: status code and body text. */
  datatype Reply = Reply(status: nat, text: string)

  /** The message the handler's `catch` answers with: the thrown error's
      message when it is non-empty, and "Internal error" otherwise. */
  function CaughtMessage(t: Thrown): (m: string)
    ensures m != ""
    ensures t.ErrorObject? && t.message != "" ==> m == t.message
  {
    match t
    case ErrorObject(msg) => if msg != "" then msg else "Internal error"
    case OtherValue => "Internal error"
  }

  /** `TABLE[key]` on a host table, read as an own-key lookup (see the
      findings in the README for the inherited-key case). */
  function ResolveHost(table: map<string, string>, key: string): (h: Option<string>)
    ensures h.Some? <==> key in table
    ensures h.Some? ==> h.value == table[key]
  {
    Get(table, key)
  }

  /** Object.prototype members a plain object literal inherits. */
  const InheritedNames: set<string> := {
    "constructor", "hasOwnProperty", "isPrototypeOf", "propertyIsEnumerable",
    "toString", "toLocaleString", "valueOf", "__proto__",
    "__defineGetter__", "__defineSetter__", "__lookupGetter__", "__lookupSetter__"}

  /** `TABLE[key]` as the JavaScript object lookup performs it: an inherited
      name also yields a (truthy) value, whose string form then becomes the
      "host" of the URL. */
  function ResolveHostAsWritten(table: map<string, string>, key: string): (h: Option<string>)
    ensures key in table ==> h == Some(table[key])
    ensures h.None? <==> key !in table && key !in InheritedNames
  {
    if key in table then Some(table[key])
    else if key == "__proto__" then Some("[object Object]")
    else if key == "constructor" then Some("function Object() { [native code] }")
    else if key in InheritedNames then Some("function " + key + "() { [native code] }")
    else None
  }

  /** The region guard, which refuses only a missing host, lets an inherited
      name through: region "constructor" is not a region, yet the lookup
      yields a value. */
  lemma InheritedRegionPassesGuard()
    ensures "constructor" !in RegionHosts
    ensures ResolveHostAsWritten(RegionHosts, "constructor").Some?
    ensures ResolveHost(RegionHosts, "constructor").None?
  {
  }

  /** `encodeURIComponent(params[name])`; an absent parameter is encoded as
      the text "undefined". */
  function EncodedParam(enc: string -> string, params: map<string, string>, name: string): string {
    enc(ToJsString(Get(params, name)))
  }

  /** `params[name] || fallback`, inserted without encoding. */
  function ParamOr(params: map<string, string>, name: string, fallback: string): (v: string)
    ensures v != "" || fallback == ""
  {
    if Truthy(Get(params, name)) then params[name] else fallback
  }

  /** Looks the host up in `table` under the parameter `hostParam`, then
      either forwards to host + path or throws `invalid`. */
  function ViaHost(table: map<string, string>, params: map<string, string>, hostParam: string,
                   path: string, invalid: string): Decision
  {
    match ResolveHost(table, ToJsString(Get(params, hostParam)))
    case Some(host) => Forward(host + path)
    case None => Respond(500, CaughtMessage(ErrorObject(invalid)))
  }

  function ViaRegion(params: map<string, string>, path: string): Decision {
    ViaHost(RegionHosts, params, "region", path, InvalidRegionMessage)
  }

  function ViaPlatform(params: map<string, string>, path: string): Decision {
    ViaHost(PlatformHosts, params, "platform", path, InvalidPlatformMessage)
  }

  /** The request handler up to the upstream call, one `if` per route in the
      handler's order. */
  function Dispatch(apiKey: Option<string>, params: map<string, string>, enc: string -> string): (d: Decision)
    ensures !Truthy(apiKey) ==> d == Respond(500, MissingKeyMessage)
    ensures d.Forward? ==> Truthy(apiKey) && "route" in params && params["route"] in Routes
    ensures d.Respond? ==> d.status == 500 || d == Respond(404, UnknownRouteMessage)
  {
    var route := Get(params, "route");
    if !Truthy(apiKey) then Respond(500, MissingKeyMessage)
    else if route == Some("account-by-riot-id") then
      ViaRegion(params, "/riot/account/v1/accounts/by-riot-id/" + EncodedParam(enc, params, "gameName")
                        + "/" + EncodedParam(enc, params, "tagLine"))
    else if route == Some("summoner-by-puuid") then
      ViaPlatform(params, "/tft/summoner/v1/summoners/by-puuid/" + EncodedParam(enc, params, "puuid"))
    else if route == Some("lol-summoner-by-puuid") then
      ViaPlatform(params, "/lol/summoner/v4/summoners/by-puuid/" + EncodedParam(enc, params, "puuid"))
    else if route == Some("league-by-summoner") then
      ViaPlatform(params, "/tft/league/v1/entries/by-summoner/" + EncodedParam(enc, params, "summonerId"))
    else if route == Some("tft-rated-by-puuid") then
      ViaPlatform(params, "/tft/league/v1/rated/by-puuid/" + EncodedParam(enc, params, "puuid"))
    else if route == Some("league-by-puuid") then
      ViaPlatform(params, "/tft/league/v1/by-puuid/" + EncodedParam(enc, params, "puuid"))
    else if route == Some("matches-by-puuid") then
      ViaRegion(params, "/tft/match/v1/matches/by-puuid/" + EncodedParam(enc, params, "puuid")
                        + "/ids?count=" + ParamOr(params, "count", "5"))
    else if route == Some("match-by-id") then
      ViaRegion(params, "/tft/match/v1/matches/" + EncodedParam(enc, params, "id"))
    else Respond(404, UnknownRouteMessage)
  }

  // ---------------------------------------------------------------------------
  // The route table: the same routes written as data

  datatype HostTable = RegionTable | PlatformTable

  /** One piece of an upstream path: fixed text, an encoded parameter, or a
      raw parameter with a default for absent or empty values. */
  datatype Piece = Lit(text: string) | Encoded(param: string) | RawOr(param: string, fallback: string)

  datatype RouteSpec = RouteSpec(table: HostTable, pieces: seq<Piece>)

  const Routes: map<string, RouteSpec> := map[
    "account-by-riot-id" := RouteSpec(RegionTable,
      [Lit("/riot/account/v1/accounts/by-riot-id/"), Encoded("gameName"), Lit("/"), Encoded("tagLine")]),
    "summoner-by-puuid" := RouteSpec(PlatformTable,
      [Lit("/tft/summoner/v1/summoners/by-puuid/"), Encoded("puuid")]),
    "lol-summoner-by-puuid" := RouteSpec(PlatformTable,
      [Lit("/lol/summoner/v4/summoners/by-puuid/"), Encoded("puuid")]),
    "league-by-summoner" := RouteSpec(PlatformTable,
      [Lit("/tft/league/v1/entries/by-summoner/"), Encoded("summonerId")]),
    "tft-rated-by-puuid" := RouteSpec(PlatformTable,
      [Lit("/tft/league/v1/rated/by-puuid/"), Encoded("puuid")]),
    "league-by-puuid" := RouteSpec(PlatformTable,
      [Lit("/tft/league/v1/by-puuid/"), Encoded("puuid")]),
    "matches-by-puuid" := RouteSpec(RegionTable,
      [Lit("/tft/match/v1/matches/by-puuid/"), Encoded("puuid"), Lit("/ids?count="), RawOr("count", "5")]),
    "match-by-id" := RouteSpec(RegionTable,
      [Lit("/tft/match/v1/matches/"), Encoded("id")])]

  function HostsOf(t: HostTable): map<string, string> {
    match t
    case RegionTable => RegionHosts
    case PlatformTable => PlatformHosts
  }

  function HostParamOf(t: HostTable): string {
    match t
    case RegionTable => "region"
    case PlatformTable => "platform"
  }

  function InvalidMessageOf(t: HostTable): string {
    match t
    case RegionTable => InvalidRegionMessage
    case PlatformTable => InvalidPlatformMessage
  }

  function RenderPiece(p: Piece, params: map<string, string>, enc: string -> string): string {
    match p
    case Lit(text) => text
    case Encoded(name) => EncodedParam(enc, params, name)
    case RawOr(name, fallback) => ParamOr(params, name, fallback)
  }

  function RenderPath(pieces: seq<Piece>, params: map<string, string>, enc: string -> string): string {
    if pieces == [] then "" else RenderPiece(pieces[0], params, enc) + RenderPath(pieces[1..], params, enc)
  }

  /** Table-driven dispatch: the reference the handler is compared with. */
  function DispatchByTable(apiKey: Option<string>, params: map<string, string>, enc: string -> string): Decision {
    if !Truthy(apiKey) then Respond(500, MissingKeyMessage)
    else if "route" in params && params["route"] in Routes then
      var spec := Routes[params["route"]];
      var key := ToJsString(Get(params, HostParamOf(spec.table)));
      match ResolveHost(HostsOf(spec.table), key)
      case Some(host) => Forward(host + RenderPath(spec.pieces, params, enc))
      case None => Respond(500, InvalidMessageOf(spec.table))
    else Respond(404, UnknownRouteMessage)
  }

  lemma RenderPath2(a: Piece, b: Piece, params: map<string, string>, enc: string -> string)
    ensures RenderPath([a, b], params, enc) == RenderPiece(a, params, enc) + RenderPiece(b, params, enc)
  {
    assert [a, b][1..] == [b];
    assert [b][1..] == [];
    assert RenderPath([b], params, enc) == RenderPiece(b, params, enc) + "";
  }

  lemma RenderPath4(a: Piece, b: Piece, c: Piece, d: Piece, params: map<string, string>, enc: string -> string)
    ensures RenderPath([a, b, c, d], params, enc)
         == RenderPiece(a, params, enc) + RenderPiece(b, params, enc)
            + RenderPiece(c, params, enc) + RenderPiece(d, params, enc)
  {
    var ra, rb, rc, rd := RenderPiece(a, params, enc), RenderPiece(b, params, enc),
                          RenderPiece(c, params, enc), RenderPiece(d, params, enc);
    RenderPath2(c, d, params, enc);
    assert [b, c, d][1..] == [c, d];
    assert RenderPath([b, c, d], params, enc) == rb + (rc + rd);
    assert [a, b, c, d][1..] == [b, c, d];
    assert RenderPath([a, b, c, d], params, enc) == ra + (rb + (rc + rd));
    assert ra + (rb + (rc + rd)) == ra + rb + rc + rd;
  }

  /** The chain of `if`s in the handler and the route table agree on every
      request: same routes, same host table, same path, same errors. */
  lemma DispatchAgreesWithRouteTable(apiKey: Option<string>, params: map<string, string>, enc: string -> string)
    ensures Dispatch(apiKey, params, enc) == DispatchByTable(apiKey, params, enc)
  {
    if Truthy(apiKey) && "route" in params && params["route"] in Routes {
      var r := params["route"];
      if r == "account-by-riot-id" || r == "matches-by-puuid" {
        AgreeOnRegionRoute(apiKey, params, enc);
      } else {
        AgreeOnTwoPieceRoute(apiKey, params, enc);
      }
    }
  }

  lemma AgreeOnRegionRoute(apiKey: Option<string>, params: map<string, string>, enc: string -> string)
    requires Truthy(apiKey) && "route" in params
    requires params["route"] == "account-by-riot-id" || params["route"] == "matches-by-puuid"
    ensures Dispatch(apiKey, params, enc) == DispatchByTable(apiKey, params, enc)
  {
    if params["route"] == "account-by-riot-id" {
      AgreeOnFourPieceRoute(apiKey, params, enc, "account-by-riot-id");
    } else {
      AgreeOnFourPieceRoute(apiKey, params, enc, "matches-by-puuid");
    }
  }

  lemma AgreeOnFourPieceRoute(apiKey: Option<string>, params: map<string, string>, enc: string -> string,
                              route: string)
    requires Truthy(apiKey) && "route" in params && params["route"] == route
    requires route == "account-by-riot-id" || route == "matches-by-puuid"
    ensures Dispatch(apiKey, params, enc) == DispatchByTable(apiKey, params, enc)
  {
    var spec := Routes[route];
    RenderPath4(spec.pieces[0], spec.pieces[1], spec.pieces[2], spec.pieces[3], params, enc);
  }

  /** The six routes whose path has two pieces. */
  lemma AgreeOnTwoPieceRoute(apiKey: Option<string>, params: map<string, string>, enc: string -> string)
    requires Truthy(apiKey) && "route" in params && params["route"] in Routes
    requires params["route"] != "account-by-riot-id" && params["route"] != "matches-by-puuid"
    ensures Dispatch(apiKey, params, enc) == DispatchByTable(apiKey, params, enc)
  {
    var spec := Routes[params["route"]];
    RenderPath2(spec.pieces[0], spec.pieces[1], params, enc);
  }

  // ---------------------------------------------------------------------------
  // Properties of the dispatch

  /** A missing or empty key rejects every request, known route or not,
      before any other check. */
  lemma MissingKeyBeforeRoute(apiKey: Option<string>, params: map<string, string>, enc: string -> string)
    requires !Truthy(apiKey)
    ensures Dispatch(apiKey, params, enc) == Respond(500, MissingKeyMessage)
    ensures !("route" in params && params["route"] in Routes) ==> Dispatch(apiKey, params, enc).status != 404
  {
  }

  /** With the key configured, an absent or unknown route is a 404. */
  lemma UnknownRouteIs404(apiKey: Option<string>, params: map<string, string>, enc: string -> string)
    requires Truthy(apiKey)
    ensures Dispatch(apiKey, params, enc) == Respond(404, UnknownRouteMessage)
        <==> !("route" in params && params["route"] in Routes)
  {
    DispatchAgreesWithRouteTable(apiKey, params, enc);
  }

  /** A known route whose host parameter is absent or not a key of its table
      is refused with the table's message; otherwise it is forwarded to a URL
      that starts with the table's host. */
  lemma HostCheck(apiKey: Option<string>, params: map<string, string>, enc: string -> string)
    requires Truthy(apiKey) && "route" in params && params["route"] in Routes
    ensures var t := Routes[params["route"]].table;
            var key := ToJsString(Get(params, HostParamOf(t)));
            && (key !in HostsOf(t) <==> Dispatch(apiKey, params, enc) == Respond(500, InvalidMessageOf(t)))
            && (key in HostsOf(t) ==>
                  Dispatch(apiKey, params, enc).Forward? && HostsOf(t)[key] <= Dispatch(apiKey, params, enc).url)
  {
    DispatchAgreesWithRouteTable(apiKey, params, enc);
  }

  /** `matches-by-puuid` asks for five ids unless `count` is given and
      non-empty, and inserts `count` without encoding it. */
  lemma MatchesCountDefault(apiKey: Option<string>, params: map<string, string>, enc: string -> string)
    requires Truthy(apiKey) && Get(params, "route") == Some("matches-by-puuid")
    requires "region" in params && params["region"] in RegionHosts
    ensures var d := Dispatch(apiKey, params, enc);
            var prefix := RegionHosts[params["region"]] + "/tft/match/v1/matches/by-puuid/"
                          + enc(ToJsString(Get(params, "puuid"))) + "/ids?count=";
            && d.Forward?
            && (Truthy(Get(params, "count")) ==> d.url == prefix + params["count"])
            && (!Truthy(Get(params, "count")) ==> d.url == prefix + "5")
  {
    var host := RegionHosts[params["region"]];
    var lead := "/tft/match/v1/matches/by-puuid/" + EncodedParam(enc, params, "puuid") + "/ids?count=";
    var count := ParamOr(params, "count", "5");
    assert Dispatch(apiKey, params, enc) == ViaRegion(params, lead + count);
    assert ResolveHost(RegionHosts, ToJsString(Get(params, "region"))) == Some(host);
    assert host + (lead + count) == host + lead + count;
  }

  // ---------------------------------------------------------------------------
  // Host tables against the platform and region enumerations

  /** Every platform of the client has a host and every host key is a
      platform. */
  lemma PlatformHostsMatchPlatforms()
    ensures forall p: Regions.Platform :: Regions.PlatformKey(p) in PlatformHosts
    ensures forall k :: k in PlatformHosts ==> Regions.PlatformOfKey(k).Some?
  {
    forall p: Regions.Platform ensures Regions.PlatformKey(p) in PlatformHosts {
      PlatformHostOf(p);
    }
  }

  lemma PlatformHostOf(p: Regions.Platform)
    ensures Regions.PlatformKey(p) in PlatformHosts
  {
    match p
    case BR1 => case NA1 => case EUW1 => case EUN1 =>
    case KR => case JP1 => case LA1 => case LA2 =>
    case OC1 => case TR1 => case RU => case PH2 =>
    case SG2 => case TH2 => case TW2 => case VN2 =>
  }

  /** Each region the client can derive from a platform is a key of the
      region table, so a client-chosen region never meets "Invalid region". */
  lemma RegionHostsMatchRegions()
    ensures forall r: Regions.Region :: Regions.RegionKey(r) in RegionHosts
    ensures forall k :: k in RegionHosts ==> Regions.RegionOfKey(k).Some?
    ensures forall p: Regions.Platform :: Regions.RegionKey(Regions.PlatformToRegion(p)) in RegionHosts
  {
  }

  // ---------------------------------------------------------------------------
  // After the upstream call

  predicate IsOkStatus(status: nat) {
    200 <= status <= 299
  }

  /** `forward` and the handler's response: a non-ok reply throws its body
      text (or "Upstream error <status>"), an ok reply is parsed and
      re-serialised with status 200, and every throw becomes a 500. */
  function Relay(fetched: Lookup<Reply>, reparse: string -> Lookup<string>): (r: Response)
    ensures r.status == 200 <==> fetched.Ok? && IsOkStatus(fetched.value.status)
                                 && reparse(fetched.value.text).Ok?
    ensures r.status == 200 ==> r.body == JsonBody(reparse(fetched.value.text).value)
    ensures r.status != 200 ==> r.status == 500 && r.body.ErrorBody? && r.body.error != ""
  {
    match fetched
    case Err(t) => Response(500, ErrorBody(CaughtMessage(t)))
    case Ok(reply) =>
      if !IsOkStatus(reply.status) then
        var text := if reply.text != "" then reply.text else "Upstream error " + NatToString(reply.status);
        Response(500, ErrorBody(CaughtMessage(ErrorObject(text))))
      else
        match reparse(reply.text)
        case Err(t) => Response(500, ErrorBody(CaughtMessage(t)))
        case Ok(json) => Response(200, JsonBody(json))
  }

  /** A non-ok upstream reply is reported with its own body text, or, when
      that is empty, with a message from which the upstream status can be
      read back. */
  lemma UpstreamErrorMessage(reply: Reply, reparse: string -> Lookup<string>)
    requires !IsOkStatus(reply.status)
    ensures var r := Relay(Ok(reply), reparse);
            && r.status == 500
            && (reply.text != "" ==> r.body == ErrorBody(reply.text))
            && (reply.text == "" ==> |r.body.error| > 15 && r.body.error[..15] == "Upstream error "
                                     && DigitsValue(r.body.error[15..]) == reply.status)
  {
    var r := Relay(Ok(reply), reparse);
    if reply.text == "" {
      assert r.body.error == "Upstream error " + NatToString(reply.status);
      assert r.body.error[15..] == NatToString(reply.status);
      NatToStringRoundTrip(reply.status);
    }
  }

  /** The whole handler. */
  function Handle(apiKey: Option<string>, params: map<string, string>, enc: string -> string,
                  fetch: string -> Lookup<Reply>, reparse: string -> Lookup<string>): Response
  {
    match Dispatch(apiKey, params, enc)
    case Respond(status, msg) => Response(status, ErrorBody(msg))
    case Forward(url) => Relay(fetch(url), reparse)
  }

  /** A refused request never reaches upstream: its response is the same
      whatever the upstream would have answered; a forwarded request's
      response depends on the upstream only through the one forwarded URL. */
  lemma UpstreamOnlyThroughForwardedUrl(apiKey: Option<string>, params: map<string, string>, enc: string -> string,
                                        fetch1: string -> Lookup<Reply>, fetch2: string -> Lookup<Reply>,
                                        reparse: string -> Lookup<string>)
    ensures Dispatch(apiKey, params, enc).Respond? ==>
              Handle(apiKey, params, enc, fetch1, reparse) == Handle(apiKey, params, enc, fetch2, reparse)
    ensures Dispatch(apiKey, params, enc).Forward? ==>
              var url := Dispatch(apiKey, params, enc).url;
              fetch1(url) == fetch2(url) ==>
              Handle(apiKey, params, enc, fetch1, reparse) == Handle(apiKey, params, enc, fetch2, reparse)
  {
  }
}
