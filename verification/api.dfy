/** The browser-side API client: one request per logical route, sent to the
    proxy as query parameters. A `Backend` stands for the answers those
    requests get; the search orchestrator is evaluated against one. */
module Api {
  import opened Js
  import opened Types
  import opened Regions
  import Proxy

  /** One request the client issues, with the arguments it passes. */
  datatype Call =
    | AccountByRiotId(region: Region, gameName: string, tagLine: string)
    | SummonerByPuuid(platform: Platform, puuid: string)
    | MatchesByPuuid(region: Region, puuid: string, count: nat)
    | MatchById(region: Region, id: string)
    | LeagueBySummoner(platform: Platform, summonerId: string)
    | LolSummonerByPuuid(platform: Platform, puuid: string)
    | TftRatedByPuuid(platform: Platform, puuid: string)
    | LeagueByPuuid(platform: Platform, puuid: string)

  /** The outcome each request would settle with, as a function of its
      arguments. */
  datatype Backend = Backend(
    accountByRiotId: (Region, string, string) -> Lookup<Account>,
    summonerByPuuid: (Platform, string) -> Lookup<Summoner>,
    matchesByPuuid: (Region, string, nat) -> Lookup<seq<string>>,
    matchById: (Region, string) -> Lookup<MatchDto>,
    leagueBySummoner: (Platform, string) -> Lookup<seq<LeagueEntry>>,
    lolSummonerByPuuid: (Platform, string) -> Lookup<Summoner>,
    tftRatedByPuuid: (Platform, string) -> Lookup<RatedStanding>,
    leagueByPuuid: (Platform, string) -> Lookup<seq<LeagueEntry>>)

  /** The query string a call sends to the proxy (`route` plus the named
      arguments, each through `String(v)`). */
  function QueryOf(c: Call): map<string, string> {
    match c
    case AccountByRiotId(r, g, t) =>
      map["route" := "account-by-riot-id", "region" := RegionKey(r), "gameName" := g, "tagLine" := t]
    case SummonerByPuuid(p, id) =>
      map["route" := "summoner-by-puuid", "platform" := PlatformKey(p), "puuid" := id]
    case MatchesByPuuid(r, id, n) =>
      map["route" := "matches-by-puuid", "region" := RegionKey(r), "puuid" := id, "count" := NatToString(n)]
    case MatchById(r, id) =>
      map["route" := "match-by-id", "region" := RegionKey(r), "id" := id]
    case LeagueBySummoner(p, id) =>
      map["route" := "league-by-summoner", "platform" := PlatformKey(p), "summonerId" := id]
    case LolSummonerByPuuid(p, id) =>
      map["route" := "lol-summoner-by-puuid", "platform" := PlatformKey(p), "puuid" := id]
    case TftRatedByPuuid(p, id) =>
      map["route" := "tft-rated-by-puuid", "platform" := PlatformKey(p), "puuid" := id]
    case LeagueByPuuid(p, id) =>
      map["route" := "league-by-puuid", "platform" := PlatformKey(p), "puuid" := id]
  }

  /** Every request the client can issue names a known route and a host key
      the proxy knows, so with the key configured the proxy forwards it
      upstream: it never answers "Unknown route", "Invalid region" or
      "Invalid platform" to this client. */
  lemma ClientRequestsAreForwarded(apiKey: Option<string>, c: Call, enc: string -> string)
    requires Truthy(apiKey)
    ensures Proxy.Dispatch(apiKey, QueryOf(c), enc).Forward?
  {
    if c.AccountByRiotId? || c.MatchesByPuuid? || c.MatchById? {
      RegionCallForwarded(apiKey, c, enc);
    } else {
      PlatformCallForwarded(apiKey, c, enc);
    }
  }

  lemma RegionCallForwarded(apiKey: Option<string>, c: Call, enc: string -> string)
    requires Truthy(apiKey)
    requires c.AccountByRiotId? || c.MatchesByPuuid? || c.MatchById?
    ensures Proxy.Dispatch(apiKey, QueryOf(c), enc).Forward?
  {
    var q := QueryOf(c);
    assert q["region"] == RegionKey(c.region);
    assert q["route"] in Proxy.Routes && Proxy.Routes[q["route"]].table == Proxy.RegionTable;
    Proxy.RegionHostsMatchRegions();
    Proxy.HostCheck(apiKey, q, enc);
  }

  lemma PlatformCallForwarded(apiKey: Option<string>, c: Call, enc: string -> string)
    requires Truthy(apiKey)
    requires !(c.AccountByRiotId? || c.MatchesByPuuid? || c.MatchById?)
    ensures Proxy.Dispatch(apiKey, QueryOf(c), enc).Forward?
  {
    var q := QueryOf(c);
    assert q["platform"] == PlatformKey(c.platform);
    assert q["route"] in Proxy.Routes && Proxy.Routes[q["route"]].table == Proxy.PlatformTable;
    Proxy.PlatformHostOf(c.platform);
    Proxy.HostCheck(apiKey, q, enc);
  }
}
