/** The search orchestrator of the main view and the fields the view derives
    from its state.

    A search is evaluated against a `Backend` that says how every request
    would settle; the result is the next view state together with the
    requests issued, in order. */
module App {
  import opened Js
  import opened Types
  import opened Regions
  import opened Api
  import Ranked

  // ---------------------------------------------------------------------------
  // Riot-ID parsing

  datatype RiotId = RiotId(gameName: string, tagLine: string)

  const DefaultTagLine := "BR1"
  const Separator := '#'

  /** The first position of `c` in `s`, if any. */
  function IndexOfChar(s: string, c: char): (i: Option<nat>)
    ensures i.None? <==> c !in s
    ensures i.Some? ==> i.value < |s| && s[i.value] == c && c !in s[..i.value]
  {
    if s == [] then None
    else if s[0] == c then Some(0)
    else
      match IndexOfChar(s[1..], c)
      case None => None
      case Some(j) =>
        assert s[..j + 1] == [s[0]] + s[1..][..j];
        Some(j + 1)
  }

  /** The text before the first `c`, or all of `s`: `s.split(c)[0]`. */
  function UpTo(s: string, c: char): (r: string)
    ensures c !in r && r <= s
    ensures |r| == |s| || s[|r|] == c
  {
    match IndexOfChar(s, c)
    case None => s
    case Some(i) => s[..i]
  }

  /** The untrimmed input split on '#': the text before the first '#' and
      the text between the first and the second; without '#', the whole
      input and the default tag. */
  function ParseRiotId(input: string): (id: RiotId)
    ensures Separator !in input ==> id == RiotId(input, DefaultTagLine)
    ensures Separator in input ==>
              && Separator !in id.gameName && Separator !in id.tagLine
              && id.gameName + [Separator] + id.tagLine <= input
              && var n := |id.gameName| + 1 + |id.tagLine|;
                 n == |input| || input[n] == Separator
  {
    match IndexOfChar(input, Separator)
    case None => RiotId(input, DefaultTagLine)
    case Some(i) =>
      var tag := UpTo(input[i + 1..], Separator);
      assert input[..i] + [Separator] + tag == input[..i + 1 + |tag|];
      RiotId(input[..i], tag)
  }

  /** Parsing undoes writing "name#tag" for a name and tag without '#',
      whatever follows a second '#'. */
  lemma ParseRiotIdRoundTrip(gameName: string, tagLine: string, rest: string)
    requires Separator !in gameName && Separator !in tagLine
    ensures ParseRiotId(gameName + [Separator] + tagLine) == RiotId(gameName, tagLine)
    ensures ParseRiotId(gameName + [Separator] + tagLine + [Separator] + rest) == RiotId(gameName, tagLine)
  {
    var a := gameName + [Separator] + tagLine;
    var b := gameName + [Separator] + (tagLine + [Separator] + rest);
    assert gameName + [Separator] + tagLine + [Separator] + rest == b;
    IndexOfCharAfter(gameName, Separator, tagLine);
    IndexOfCharAfter(gameName, Separator, tagLine + [Separator] + rest);
    assert a[..|gameName|] == gameName && a[|gameName| + 1..] == tagLine;
    assert b[..|gameName|] == gameName && b[|gameName| + 1..] == tagLine + [Separator] + rest;
    IndexOfCharAfter(tagLine, Separator, rest);
    assert (tagLine + [Separator] + rest)[..|tagLine|] == tagLine;
  }

  /** The first `c` of `prefix + [c] + rest` is the one after `prefix` when
      `prefix` holds none. */
  lemma {:induction false} IndexOfCharAfter(prefix: string, c: char, rest: string)
    requires c !in prefix
    ensures IndexOfChar(prefix + [c] + rest, c) == Some(|prefix|)
  {
    if prefix != [] {
      assert (prefix + [c] + rest)[1..] == prefix[1..] + [c] + rest;
      IndexOfCharAfter(prefix[1..], c, rest);
    }
  }

  /** A trailing '#' gives an empty tag; a third part is ignored. */
  lemma ParseRiotIdEdgeExamples()
    ensures ParseRiotId("a#") == RiotId("a", "")
    ensures ParseRiotId("a#b#c") == RiotId("a", "b")
  {
    assert "a#" == "a" + [Separator] + "";
    ParseRiotIdRoundTrip("a", "", "");
    assert "a#b#c" == "a" + [Separator] + "b" + [Separator] + "c";
    ParseRiotIdRoundTrip("a", "b", "c");
  }

  /** "Rafak#BR1" and "Rafak" name the same player. */
  lemma ParseRiotIdDefaultTagExample()
    ensures ParseRiotId("Rafak#BR1") == ParseRiotId("Rafak")
  {
    assert "Rafak#BR1" == "Rafak" + [Separator] + "BR1";
    ParseRiotIdRoundTrip("Rafak", "BR1", "");
  }

  // ---------------------------------------------------------------------------
  // View state

  datatype ViewState = ViewState(
    loading: bool,
    error: Option<string>,
    puuid: Option<string>,
    summoner: Option<Summoner>,
    matches: seq<MatchDto>,
    league: Option<LeagueEntry>,
    riotAccount: Option<RiotId>)

  const Initial := ViewState(false, None, None, None, [], None, None)

  /** The blank-input reset: every search field emptied, `loading` as it was. */
  function Cleared(prev: ViewState): ViewState {
    prev.(error := None, puuid := None, summoner := None, matches := [], league := None, riotAccount := None)
  }

  const FallbackErrorText := "Erro na busca."

  /** The message a failed search shows: an `Error`'s message, else the
      fixed fallback. */
  function ErrorText(t: Thrown): string {
    match t
    case ErrorObject(message) => message
    case OtherValue => FallbackErrorText
  }

  /** The input is blank when nothing is left once surrounding whitespace
      is trimmed. */
  predicate IsBlank(input: string) {
    Trim(input) == ""
  }

  // ---------------------------------------------------------------------------
  // Ranked standing with its fallback chain

  /** The encrypted summoner id found so far (or the failure that ended the
      ranked step), and the requests that search issued. */
  datatype IdSearch = IdSearch(id: Lookup<Option<string>>, calls: seq<Call>)

  /** The summoner's own id when it is non-empty; otherwise the League
      profile's id, fetched by puuid, when that is non-empty. */
  function FindEncryptedId(api: Backend, platform: Platform, puuid: string, summ: Summoner): (r: IdSearch)
    ensures Truthy(summ.id) ==> r == IdSearch(Ok(summ.id), [])
    ensures !Truthy(summ.id) ==> r.calls == [LolSummonerByPuuid(platform, puuid)]
    ensures r.id.Ok? && r.id.value.Some? ==> Truthy(r.id.value)
    ensures r.id.Err? ==> api.lolSummonerByPuuid(platform, puuid).Err?
    ensures !Truthy(summ.id) && r.id.Ok? ==>
              var lol := api.lolSummonerByPuuid(platform, puuid);
              lol.Ok? && (r.id.value.Some? <==> Truthy(lol.value.id))
              && (r.id.value.Some? ==> r.id.value == lol.value.id)
  {
    if Truthy(summ.id) then IdSearch(Ok(summ.id), [])
    else
      var call := LolSummonerByPuuid(platform, puuid);
      match api.lolSummonerByPuuid(platform, puuid)
      case Err(t) => IdSearch(Err(t), [call])
      case Ok(lol) => IdSearch(Ok(if Truthy(lol.id) then lol.id else None), [call])
  }

  datatype RankedResult = RankedResult(league: Option<LeagueEntry>, calls: seq<Call>)

  const TurboQueue := "RANKED_TFT_TURBO"

  /** The entry synthesised from a rated-ladder standing. */
  function TurboEntry(rated: RatedStanding): LeagueEntry {
    LeagueEntry(TurboQueue, None, None, None, rated.ratedTier, rated.ratedRating, None, None)
  }

  /** League by encrypted id, then the preference selection. */
  function LeagueFromSummonerId(api: Backend, platform: Platform, id: string): RankedResult {
    var call := LeagueBySummoner(platform, id);
    match api.leagueBySummoner(platform, id)
    case Err(_) => RankedResult(None, [call])
    case Ok(entries) => RankedResult(Ranked.SelectLeague(entries), [call])
  }

  /** League by puuid (first entry), else the rated ladder (synthetic Turbo
      entry), else nothing. */
  function LeagueFromPuuid(api: Backend, platform: Platform, puuid: string): RankedResult {
    var call := LeagueByPuuid(platform, puuid);
    match api.leagueByPuuid(platform, puuid)
    case Err(_) => RankedResult(None, [call])
    case Ok(entries) =>
      if |entries| > 0 then RankedResult(Some(entries[0]), [call])
      else
        var ratedCall := TftRatedByPuuid(platform, puuid);
        match api.tftRatedByPuuid(platform, puuid)
        case Err(_) => RankedResult(None, [call, ratedCall])
        case Ok(rated) =>
          RankedResult(if Truthy(rated.ratedTier) then Some(TurboEntry(rated)) else None, [call, ratedCall])
  }

  /** The ranked step inside its own `try`: any rejection yields no league. */
  function ResolveRanked(api: Backend, platform: Platform, puuid: string, summ: Summoner): RankedResult {
    var found := FindEncryptedId(api, platform, puuid, summ);
    match found.id
    case Err(_) => RankedResult(None, found.calls)
    case Ok(Some(id)) =>
      var r := LeagueFromSummonerId(api, platform, id);
      RankedResult(r.league, found.calls + r.calls)
    case Ok(None) =>
      var r := LeagueFromPuuid(api, platform, puuid);
      RankedResult(r.league, found.calls + r.calls)
  }

  /** With an encrypted id the league is the preferred entry of that id's
      list, the earliest one on ties (none when the list is empty), and the
      by-puuid and rated lookups are never issued; without one, it is the
      first by-puuid entry, else the synthetic Turbo entry when the rated
      standing has a tier, else none. A rejected ranked lookup, at any point
      of the chain, yields no league. */
  lemma RankedFallbackChain(api: Backend, platform: Platform, puuid: string, summ: Summoner)
    ensures var found := FindEncryptedId(api, platform, puuid, summ);
            var r := ResolveRanked(api, platform, puuid, summ);
            && (found.id.Err? ==> r.league.None?)
            && (found.id.Ok? && found.id.value.Some? ==>
                  && (forall c :: c in r.calls ==> !c.LeagueByPuuid? && !c.TftRatedByPuuid?)
                  && var entries := api.leagueBySummoner(platform, found.id.value.value);
                     && (entries.Err? ==> r.league.None?)
                     && (entries.Ok? ==>
                       && r.league == Ranked.SelectLeague(entries.value)
                       && (r.league.None? <==> entries.value == [])
                       && (r.league.Some? ==>
                             && r.league.value in entries.value
                             && (forall e :: e in entries.value ==> Ranked.Pref(r.league.value) <= Ranked.Pref(e))
                             && r.league == Some(entries.value[Ranked.FirstMinimum(entries.value, Ranked.Pref)]))))
            && (found.id == Ok(None) ==>
                  var byPuuid := api.leagueByPuuid(platform, puuid);
                  var rated := api.tftRatedByPuuid(platform, puuid);
                  && (byPuuid.Err? ==> r.league.None?)
                  && (byPuuid == Ok([]) && rated.Err? ==> r.league.None?)
                  && (byPuuid.Ok? && byPuuid.value != [] ==> r.league == Some(byPuuid.value[0]))
                  && (byPuuid.Ok? && byPuuid.value == [] && rated.Ok? ==>
                        (r.league.Some? <==> Truthy(rated.value.ratedTier))
                        && (r.league.Some? ==>
                              && r.league.value.queueType == TurboQueue
                              && r.league.value.ratedTier == rated.value.ratedTier
                              && r.league.value.ratedRating == rated.value.ratedRating)))
  {
    var found := FindEncryptedId(api, platform, puuid, summ);
    if found.id.Ok? && found.id.value.Some? {
      RankedByEncryptedId(api, platform, puuid, summ);
    }
  }

  /** The branch with an encrypted id: the preference selection over that
      id's league list. */
  lemma RankedByEncryptedId(api: Backend, platform: Platform, puuid: string, summ: Summoner)
    requires FindEncryptedId(api, platform, puuid, summ).id.Ok?
    requires FindEncryptedId(api, platform, puuid, summ).id.value.Some?
    ensures var id := FindEncryptedId(api, platform, puuid, summ).id.value.value;
            var r := ResolveRanked(api, platform, puuid, summ);
            var entries := api.leagueBySummoner(platform, id);
            && (forall c :: c in r.calls ==> !c.LeagueByPuuid? && !c.TftRatedByPuuid?)
            && (entries.Err? ==> r.league.None?)
            && (entries.Ok? ==>
                  && r.league == Ranked.SelectLeague(entries.value)
                  && (r.league.None? <==> entries.value == [])
                  && (r.league.Some? ==>
                        && r.league.value in entries.value
                        && (forall e :: e in entries.value ==> Ranked.Pref(r.league.value) <= Ranked.Pref(e))
                        && r.league == Some(entries.value[Ranked.FirstMinimum(entries.value, Ranked.Pref)])))
  {
    var id := FindEncryptedId(api, platform, puuid, summ).id.value.value;
    var entries := api.leagueBySummoner(platform, id);
    if entries.Ok? {
      Ranked.SelectLeagueIsEarliestMostPreferred(entries.value);
      if entries.value != [] {
        var i := Ranked.FirstMinimum(entries.value, Ranked.Pref);
        assert entries.value[i] in entries.value;
      }
    }
  }

  /** Whatever the outcome of the ranked step, the league it yields is
      either absent or one whose rank text is computed by `formatRank`; the
      synthetic Turbo entry has no tier and so always reads "Unranked". */
  lemma TurboEntryRendersUnranked(rated: RatedStanding)
    ensures Ranked.FormatRank(TurboEntry(rated)) == "Unranked"
  {
  }

  // ---------------------------------------------------------------------------
  // The search

  /** All match fetches of `Promise.all`: every one is issued; the join fails
      with the first failing fetch in list order, where `Promise.all`
      rejects with whichever fetch rejects first in time. */
  function FetchMatches(api: Backend, region: Region, ids: seq<string>): (r: Lookup<seq<MatchDto>>)
    ensures r.Ok? <==> forall i :: 0 <= i < |ids| ==> api.matchById(region, ids[i]).Ok?
    ensures r.Ok? ==> |r.value| == |ids|
                      && forall i :: 0 <= i < |ids| ==> api.matchById(region, ids[i]) == Ok(r.value[i])
    ensures r.Err? ==> exists i :: 0 <= i < |ids| && api.matchById(region, ids[i]) == Err(r.thrown)
  {
    if ids == [] then Ok([])
    else
      match api.matchById(region, ids[0])
      case Err(t) => Err(t)
      case Ok(m) =>
        match FetchMatches(api, region, ids[1..])
        case Err(t) =>
          ghost var i :| 0 <= i < |ids[1..]| && api.matchById(region, ids[1..][i]) == Err(t);
          assert ids[i + 1] == ids[1..][i];
          Err(t)
        case Ok(ms) =>
          assert forall i :: 1 <= i < |ids| ==> ids[i] == ids[1..][i - 1];
          Ok([m] + ms)
  }

  function MatchCalls(region: Region, ids: seq<string>): (cs: seq<Call>)
    ensures |cs| == |ids|
    ensures forall i :: 0 <= i < |ids| ==> cs[i] == MatchById(region, ids[i])
  {
    if ids == [] then [] else [MatchById(region, ids[0])] + MatchCalls(region, ids[1..])
  }

  datatype SearchResult = SearchResult(state: ViewState, calls: seq<Call>)

  /** How many match ids a search asks for. */
  const MatchCount: nat := 5

  /** A step of the outer `try` failed: the error is shown, `loading` ends,
      and everything set so far stays. */
  function Failed(s: ViewState, t: Thrown, calls: seq<Call>): SearchResult {
    SearchResult(s.(error := Some(ErrorText(t)), loading := false), calls)
  }

  /** `onSearch`: a blank input resets the view without a request; any
      other input is parsed and searched for. */
  function OnSearch(prev: ViewState, input: string, platform: Platform, api: Backend): (out: SearchResult)
    ensures IsBlank(input) ==> out == SearchResult(Cleared(prev), [])
    ensures !IsBlank(input) ==> out == Search(prev, ParseRiotId(input), platform, api)
    ensures !IsBlank(input) ==>
              && !out.state.loading
              && |out.calls| >= 1
              && out.calls[0] == AccountByRiotId(PlatformToRegion(platform),
                                                 ParseRiotId(input).gameName, ParseRiotId(input).tagLine)
  {
    if IsBlank(input) then SearchResult(Cleared(prev), [])
    else Search(prev, ParseRiotId(input), platform, api)
  }

  /** The search for a parsed Riot ID, the outer `try` of `onSearch`: the
      account lookup first, then the steps after it. */
  function Search(prev: ViewState, id: RiotId, platform: Platform, api: Backend): (out: SearchResult)
    ensures !out.state.loading
    ensures |out.calls| >= 1 && out.calls[0] == AccountByRiotId(PlatformToRegion(platform), id.gameName, id.tagLine)
  {
    var region := PlatformToRegion(platform);
    var accountCall := AccountByRiotId(region, id.gameName, id.tagLine);
    match api.accountByRiotId(region, id.gameName, id.tagLine)
    case Err(t) => Failed(prev.(loading := true, error := None), t, [accountCall])
    case Ok(account) =>
      var out := AfterAccount(SignedIn(prev, account), [accountCall], api, platform, account.puuid);
      assert out.calls[0] == out.calls[..1][0];
      out
  }

  /** The state once the account lookup has answered: loading, no error,
      and the account's puuid and Riot ID recorded. */
  function SignedIn(prev: ViewState, account: Account): ViewState {
    prev.(loading := true, error := None, puuid := Some(account.puuid),
          riotAccount := Some(RiotId(account.gameName, account.tagLine)))
  }

  /** The steps after the account lookup: summoner, match ids, matches,
      ranked. */
  function AfterAccount(s: ViewState, calls: seq<Call>, api: Backend, platform: Platform, puuid: string)
    : (out: SearchResult)
    ensures !out.state.loading
    ensures |out.calls| > |calls| && out.calls[..|calls|] == calls
    ensures out.calls[|calls|] == SummonerByPuuid(platform, puuid)
    ensures out.state.puuid == s.puuid && out.state.riotAccount == s.riotAccount
  {
    var calls1 := calls + [SummonerByPuuid(platform, puuid)];
    match api.summonerByPuuid(platform, puuid)
    case Err(t) => Failed(s, t, calls1)
    case Ok(summ) =>
      var out := AfterSummoner(s.(summoner := Some(summ)), calls1, api, platform, puuid, summ);
      assert out.calls[..|calls|] == out.calls[..|calls1|][..|calls|];
      out
  }

  function AfterSummoner(s: ViewState, calls: seq<Call>, api: Backend, platform: Platform, puuid: string,
                         summ: Summoner): (out: SearchResult)
    ensures !out.state.loading
    ensures |out.calls| > |calls| && out.calls[..|calls|] == calls
    ensures out.calls[|calls|] == MatchesByPuuid(PlatformToRegion(platform), puuid, MatchCount)
    ensures out.state.puuid == s.puuid && out.state.riotAccount == s.riotAccount
    ensures out.state.summoner == s.summoner
  {
    var region := PlatformToRegion(platform);
    var calls2 := calls + [MatchesByPuuid(region, puuid, MatchCount)];
    match api.matchesByPuuid(region, puuid, MatchCount)
    case Err(t) => Failed(s, t, calls2)
    case Ok(ids) =>
      var out := AfterMatchIds(s, calls2, api, platform, puuid, summ, ids);
      assert out.calls[..|calls|] == out.calls[..|calls2|][..|calls|];
      out
  }

  function AfterMatchIds(s: ViewState, calls: seq<Call>, api: Backend, platform: Platform, puuid: string,
                         summ: Summoner, ids: seq<string>): (out: SearchResult)
    ensures !out.state.loading
    ensures |out.calls| >= |calls| + |ids| && out.calls[..|calls| + |ids|] == calls + MatchCalls(PlatformToRegion(platform), ids)
    ensures out.state.puuid == s.puuid && out.state.riotAccount == s.riotAccount
    ensures out.state.summoner == s.summoner
  {
    var region := PlatformToRegion(platform);
    var calls3 := calls + MatchCalls(region, ids);
    match FetchMatches(api, region, ids)
    case Err(t) => Failed(s, t, calls3)
    case Ok(ms) =>
      var ranked := ResolveRanked(api, platform, puuid, summ);
      assert (calls3 + ranked.calls)[..|calls3|] == calls3;
      SearchResult(s.(matches := ms, league := ranked.league, loading := false), calls3 + ranked.calls)
  }

  /** The outcomes of the steps outside the ranked `try`, in order: account,
      summoner, match ids, matches. */
  predicate MainStepsSucceed(id: RiotId, platform: Platform, api: Backend) {
    var region := PlatformToRegion(platform);
    var account := api.accountByRiotId(region, id.gameName, id.tagLine);
    && account.Ok?
    && api.summonerByPuuid(platform, account.value.puuid).Ok?
    && var ids := api.matchesByPuuid(region, account.value.puuid, MatchCount);
       && ids.Ok?
       && FetchMatches(api, region, ids.value).Ok?
  }

  /** A non-blank search shows an error exactly when a step outside the
      ranked step fails, so a failing ranked lookup never shows one; on
      success every field is the new search's, and the league is what the
      ranked chain found. */
  lemma ErrorIffMainStepFails(prev: ViewState, id: RiotId, platform: Platform, api: Backend)
    ensures var out := Search(prev, id, platform, api);
            && (out.state.error.None? <==> MainStepsSucceed(id, platform, api))
            && (MainStepsSucceed(id, platform, api) ==>
                  var region := PlatformToRegion(platform);
                  var account := api.accountByRiotId(region, id.gameName, id.tagLine).value;
                  var summ := api.summonerByPuuid(platform, account.puuid).value;
                  var ids := api.matchesByPuuid(region, account.puuid, MatchCount).value;
                  && out.state.puuid == Some(account.puuid)
                  && out.state.riotAccount == Some(RiotId(account.gameName, account.tagLine))
                  && out.state.summoner == Some(summ)
                  && out.state.matches == FetchMatches(api, region, ids).value
                  && out.state.league == ResolveRanked(api, platform, account.puuid, summ).league)
  {
    var region := PlatformToRegion(platform);
    var account := api.accountByRiotId(region, id.gameName, id.tagLine);
    var out := Search(prev, id, platform, api);
    if account.Ok? {
      var puuid := account.value.puuid;
      var s1 := SignedIn(prev, account.value);
      var calls0 := [AccountByRiotId(region, id.gameName, id.tagLine)];
      SearchSignsIn(prev, id, platform, api);
      var summ := api.summonerByPuuid(platform, puuid);
      if summ.Ok? {
        var s2 := s1.(summoner := Some(summ.value));
        var calls1 := calls0 + [SummonerByPuuid(platform, puuid)];
        assert out == AfterSummoner(s2, calls1, api, platform, puuid, summ.value);
        var ids := api.matchesByPuuid(region, puuid, MatchCount);
        if ids.Ok? {
          var calls2 := calls1 + [MatchesByPuuid(region, puuid, MatchCount)];
          assert out == AfterMatchIds(s2, calls2, api, platform, puuid, summ.value, ids.value);
        }
      }
    }
  }

  /** A failed account lookup shows its message (or the fallback text) and
      leaves every other field as the previous search left it; nothing else
      is requested. */
  lemma AccountFailureKeepsPreviousResults(prev: ViewState, id: RiotId, platform: Platform, api: Backend)
    requires api.accountByRiotId(PlatformToRegion(platform), id.gameName, id.tagLine).Err?
    ensures var t := api.accountByRiotId(PlatformToRegion(platform), id.gameName, id.tagLine).thrown;
            var out := Search(prev, id, platform, api);
            && out.state == prev.(loading := false, error := Some(ErrorText(t)))
            && |out.calls| == 1
            && (t.OtherValue? ==> out.state.error == Some(FallbackErrorText))
  {
  }

  /** Once the account lookup succeeds, the puuid and Riot ID shown are the
      account's, whatever the later steps do; the rest of the search is the
      steps after it, started from that state with the account request
      already issued. */
  lemma SearchSignsIn(prev: ViewState, id: RiotId, platform: Platform, api: Backend)
    requires api.accountByRiotId(PlatformToRegion(platform), id.gameName, id.tagLine).Ok?
    ensures var region := PlatformToRegion(platform);
            var account := api.accountByRiotId(region, id.gameName, id.tagLine).value;
            var out := Search(prev, id, platform, api);
            && out.state.puuid == Some(account.puuid)
            && out.state.riotAccount == Some(RiotId(account.gameName, account.tagLine))
            && out == AfterAccount(SignedIn(prev, account), [AccountByRiotId(region, id.gameName, id.tagLine)],
                                   api, platform, account.puuid)
  {
  }

  /** The summoner step: on failure the search stops with its message, on
      success it goes on to the match-id step with the summoner recorded. */
  lemma SummonerStep(s: ViewState, calls: seq<Call>, api: Backend, platform: Platform, puuid: string)
    ensures var summ := api.summonerByPuuid(platform, puuid);
            var calls1 := calls + [SummonerByPuuid(platform, puuid)];
            var out := AfterAccount(s, calls, api, platform, puuid);
            && (summ.Err? ==> out == SearchResult(s.(error := Some(ErrorText(summ.thrown)), loading := false), calls1))
            && (summ.Ok? ==> out == AfterSummoner(s.(summoner := Some(summ.value)), calls1, api, platform, puuid, summ.value))
  {
  }

  /** The match-id step: on failure the search stops with its message, on
      success it goes on to fetch the matches. */
  lemma MatchIdsStep(s: ViewState, calls: seq<Call>, api: Backend, platform: Platform, puuid: string, summ: Summoner)
    ensures var region := PlatformToRegion(platform);
            var ids := api.matchesByPuuid(region, puuid, MatchCount);
            var calls2 := calls + [MatchesByPuuid(region, puuid, MatchCount)];
            var out := AfterSummoner(s, calls, api, platform, puuid, summ);
            && (ids.Err? ==> out == SearchResult(s.(error := Some(ErrorText(ids.thrown)), loading := false), calls2))
            && (ids.Ok? ==> out == AfterMatchIds(s, calls2, api, platform, puuid, summ, ids.value))
  {
  }

  /** The fetch step: when a fetch fails the search stops with that
      message, after every fetch was issued and before the ranked step. */
  lemma FetchStep(s: ViewState, calls: seq<Call>, api: Backend, platform: Platform, puuid: string, summ: Summoner,
                  ids: seq<string>)
    ensures var region := PlatformToRegion(platform);
            var ms := FetchMatches(api, region, ids);
            ms.Err? ==>
              AfterMatchIds(s, calls, api, platform, puuid, summ, ids)
                == SearchResult(s.(error := Some(ErrorText(ms.thrown)), loading := false), calls + MatchCalls(region, ids))
  {
  }

  /** From the summoner step on, a failed match-id lookup ends the search
      with its message, with the summoner recorded. */
  lemma MatchIdsFailAfterAccount(s: ViewState, calls: seq<Call>, api: Backend, platform: Platform, puuid: string)
    requires api.summonerByPuuid(platform, puuid).Ok?
    requires api.matchesByPuuid(PlatformToRegion(platform), puuid, MatchCount).Err?
    ensures var region := PlatformToRegion(platform);
            var summ := api.summonerByPuuid(platform, puuid).value;
            var t := api.matchesByPuuid(region, puuid, MatchCount).thrown;
            AfterAccount(s, calls, api, platform, puuid)
              == SearchResult(s.(summoner := Some(summ), error := Some(ErrorText(t)), loading := false),
                              calls + [SummonerByPuuid(platform, puuid), MatchesByPuuid(region, puuid, MatchCount)])
  {
    var region := PlatformToRegion(platform);
    var summ := api.summonerByPuuid(platform, puuid).value;
    var calls1 := calls + [SummonerByPuuid(platform, puuid)];
    assert calls1 + [MatchesByPuuid(region, puuid, MatchCount)]
        == calls + [SummonerByPuuid(platform, puuid), MatchesByPuuid(region, puuid, MatchCount)];
    SummonerStep(s, calls, api, platform, puuid);
    MatchIdsStep(s.(summoner := Some(summ)), calls1, api, platform, puuid, summ);
  }

  /** From the summoner step on, a failed match fetch ends the search with
      the join's message, after every fetch was issued and before the ranked
      step, with the summoner recorded. */
  lemma FetchFailAfterAccount(s: ViewState, calls: seq<Call>, api: Backend, platform: Platform, puuid: string)
    requires api.summonerByPuuid(platform, puuid).Ok?
    requires var ids := api.matchesByPuuid(PlatformToRegion(platform), puuid, MatchCount);
             ids.Ok? && FetchMatches(api, PlatformToRegion(platform), ids.value).Err?
    ensures var region := PlatformToRegion(platform);
            var summ := api.summonerByPuuid(platform, puuid).value;
            var ids := api.matchesByPuuid(region, puuid, MatchCount).value;
            var t := FetchMatches(api, region, ids).thrown;
            AfterAccount(s, calls, api, platform, puuid)
              == SearchResult(s.(summoner := Some(summ), error := Some(ErrorText(t)), loading := false),
                              calls + [SummonerByPuuid(platform, puuid), MatchesByPuuid(region, puuid, MatchCount)]
                              + MatchCalls(region, ids))
  {
    var region := PlatformToRegion(platform);
    var summ := api.summonerByPuuid(platform, puuid).value;
    var ids := api.matchesByPuuid(region, puuid, MatchCount).value;
    var calls1 := calls + [SummonerByPuuid(platform, puuid)];
    var calls2 := calls1 + [MatchesByPuuid(region, puuid, MatchCount)];
    assert calls2 == calls + [SummonerByPuuid(platform, puuid), MatchesByPuuid(region, puuid, MatchCount)];
    SummonerStep(s, calls, api, platform, puuid);
    MatchIdsStep(s.(summoner := Some(summ)), calls1, api, platform, puuid, summ);
    FetchStep(s.(summoner := Some(summ)), calls2, api, platform, puuid, summ, ids);
  }

  /** A failed summoner lookup shows its message; the account's puuid and
      Riot ID are already recorded, while the summoner, matches and league
      stay as the previous search left them. Nothing further is requested. */
  lemma SummonerFailureShowsError(prev: ViewState, id: RiotId, platform: Platform, api: Backend)
    requires var account := api.accountByRiotId(PlatformToRegion(platform), id.gameName,
                                                id.tagLine);
             account.Ok? && api.summonerByPuuid(platform, account.value.puuid).Err?
    ensures var region := PlatformToRegion(platform);
            var account := api.accountByRiotId(region, id.gameName, id.tagLine).value;
            var t := api.summonerByPuuid(platform, account.puuid).thrown;
            var out := Search(prev, id, platform, api);
            && out.state == prev.(loading := false, error := Some(ErrorText(t)), puuid := Some(account.puuid),
                                  riotAccount := Some(RiotId(account.gameName, account.tagLine)))
            && out.calls == [AccountByRiotId(region, id.gameName, id.tagLine), SummonerByPuuid(platform, account.puuid)]
  {
    var region := PlatformToRegion(platform);
    var account := api.accountByRiotId(region, id.gameName, id.tagLine).value;
    SearchSignsIn(prev, id, platform, api);
    SummonerStep(SignedIn(prev, account), [AccountByRiotId(region, id.gameName, id.tagLine)], api, platform, account.puuid);
  }

  /** A failed match-id lookup shows its message; the account and the new
      summoner are recorded, while the matches and league stay as the
      previous search left them. Nothing further is requested. */
  lemma MatchIdsFailureShowsError(prev: ViewState, id: RiotId, platform: Platform, api: Backend)
    requires var region := PlatformToRegion(platform);
             var account := api.accountByRiotId(region, id.gameName, id.tagLine);
             && account.Ok?
             && api.summonerByPuuid(platform, account.value.puuid).Ok?
             && api.matchesByPuuid(region, account.value.puuid, MatchCount).Err?
    ensures var region := PlatformToRegion(platform);
            var account := api.accountByRiotId(region, id.gameName, id.tagLine).value;
            var summ := api.summonerByPuuid(platform, account.puuid).value;
            var t := api.matchesByPuuid(region, account.puuid, MatchCount).thrown;
            var out := Search(prev, id, platform, api);
            && out.state == prev.(loading := false, error := Some(ErrorText(t)), puuid := Some(account.puuid),
                                  riotAccount := Some(RiotId(account.gameName, account.tagLine)),
                                  summoner := Some(summ))
            && out.calls == [AccountByRiotId(region, id.gameName, id.tagLine), SummonerByPuuid(platform, account.puuid),
                             MatchesByPuuid(region, account.puuid, MatchCount)]
  {
    var region := PlatformToRegion(platform);
    var account := api.accountByRiotId(region, id.gameName, id.tagLine).value;
    SearchSignsIn(prev, id, platform, api);
    MatchIdsFailAfterAccount(SignedIn(prev, account), [AccountByRiotId(region, id.gameName, id.tagLine)],
                             api, platform, account.puuid);
  }

  /** A failed match fetch shows the message the join failed with, which is
      that of a fetch that failed (see `FetchMatches`); every fetch was issued, the account and the new summoner are recorded, and
      the matches and league stay as the previous search left them. The
      ranked step is not reached. */
  lemma MatchFetchFailureShowsError(prev: ViewState, id: RiotId, platform: Platform, api: Backend)
    requires var region := PlatformToRegion(platform);
             var account := api.accountByRiotId(region, id.gameName, id.tagLine);
             && account.Ok?
             && api.summonerByPuuid(platform, account.value.puuid).Ok?
             && var ids := api.matchesByPuuid(region, account.value.puuid, MatchCount);
                ids.Ok? && FetchMatches(api, region, ids.value).Err?
    ensures var region := PlatformToRegion(platform);
            var account := api.accountByRiotId(region, id.gameName, id.tagLine).value;
            var summ := api.summonerByPuuid(platform, account.puuid).value;
            var ids := api.matchesByPuuid(region, account.puuid, MatchCount).value;
            var out := Search(prev, id, platform, api);
            && out.state == prev.(loading := false, error := Some(ErrorText(FetchMatches(api, region, ids).thrown)),
                                  puuid := Some(account.puuid),
                                  riotAccount := Some(RiotId(account.gameName, account.tagLine)),
                                  summoner := Some(summ))
            && out.calls == [AccountByRiotId(region, id.gameName, id.tagLine), SummonerByPuuid(platform, account.puuid),
                             MatchesByPuuid(region, account.puuid, MatchCount)] + MatchCalls(region, ids)
  {
    var region := PlatformToRegion(platform);
    var account := api.accountByRiotId(region, id.gameName, id.tagLine).value;
    var summ := api.summonerByPuuid(platform, account.puuid).value;
    var ids := api.matchesByPuuid(region, account.puuid, MatchCount).value;
    var t := FetchMatches(api, region, ids).thrown;
    var calls0 := [AccountByRiotId(region, id.gameName, id.tagLine)];
    var tail := [SummonerByPuuid(platform, account.puuid), MatchesByPuuid(region, account.puuid, MatchCount)];
    assert calls0 + tail == [AccountByRiotId(region, id.gameName, id.tagLine), SummonerByPuuid(platform, account.puuid),
                             MatchesByPuuid(region, account.puuid, MatchCount)];
    SearchSignsIn(prev, id, platform, api);
    FetchFailAfterAccount(SignedIn(prev, account), calls0, api, platform, account.puuid);
    assert Search(prev, id, platform, api)
        == SearchResult(SignedIn(prev, account).(summoner := Some(summ), error := Some(ErrorText(t)), loading := false),
                        calls0 + tail + MatchCalls(region, ids));
  }

  /** Requests go out in dependency order: after the account, the summoner
      for the puuid the account returned, then the match ids for it. */
  lemma SearchRequestOrder(prev: ViewState, id: RiotId, platform: Platform, api: Backend)
    requires api.accountByRiotId(PlatformToRegion(platform), id.gameName, id.tagLine).Ok?
    ensures var region := PlatformToRegion(platform);
            var puuid := api.accountByRiotId(region, id.gameName, id.tagLine).value.puuid;
            var out := Search(prev, id, platform, api);
            && |out.calls| >= 2 && out.calls[1] == SummonerByPuuid(platform, puuid)
            && (api.summonerByPuuid(platform, puuid).Ok? ==>
                  |out.calls| >= 3 && out.calls[2] == MatchesByPuuid(region, puuid, MatchCount))
  {
    var region := PlatformToRegion(platform);
    var account := api.accountByRiotId(region, id.gameName, id.tagLine).value;
    SearchSignsIn(prev, id, platform, api);
    SummonerThenMatchIds(SignedIn(prev, account), [AccountByRiotId(region, id.gameName, id.tagLine)],
                         api, platform, account.puuid);
  }

  /** When the account, summoner and match-id lookups all succeed, the
      fourth request onwards are the match fetches, one per returned id and
      in the order of the ids. */
  lemma SearchFetchesMatchesInOrder(prev: ViewState, id: RiotId, platform: Platform, api: Backend)
    requires api.accountByRiotId(PlatformToRegion(platform), id.gameName, id.tagLine).Ok?
    requires var puuid := api.accountByRiotId(PlatformToRegion(platform), id.gameName,
                                              id.tagLine).value.puuid;
             && api.summonerByPuuid(platform, puuid).Ok?
             && api.matchesByPuuid(PlatformToRegion(platform), puuid, MatchCount).Ok?
    ensures var region := PlatformToRegion(platform);
            var puuid := api.accountByRiotId(region, id.gameName, id.tagLine).value.puuid;
            var ids := api.matchesByPuuid(region, puuid, MatchCount).value;
            var out := Search(prev, id, platform, api);
            && |out.calls| >= 3 + |ids|
            && out.calls[3..3 + |ids|] == MatchCalls(region, ids)
  {
    var region := PlatformToRegion(platform);
    var account := api.accountByRiotId(region, id.gameName, id.tagLine).value;
    SearchSignsIn(prev, id, platform, api);
    SummonerThenMatchIds(SignedIn(prev, account), [AccountByRiotId(region, id.gameName, id.tagLine)],
                         api, platform, account.puuid);
  }

  /** After the summoner lookup succeeds, the match-id lookup follows it,
      and then the fetches of the returned ids. */
  lemma SummonerThenMatchIds(s: ViewState, calls: seq<Call>, api: Backend, platform: Platform, puuid: string)
    ensures var region := PlatformToRegion(platform);
            var out := AfterAccount(s, calls, api, platform, puuid);
            var summ := api.summonerByPuuid(platform, puuid);
            summ.Ok? ==>
              && |out.calls| >= |calls| + 2 && out.calls[|calls| + 1] == MatchesByPuuid(region, puuid, MatchCount)
              && var ids := api.matchesByPuuid(region, puuid, MatchCount);
                 ids.Ok? ==>
                   && |out.calls| >= |calls| + 2 + |ids.value|
                   && out.calls[|calls| + 2..|calls| + 2 + |ids.value|] == MatchCalls(region, ids.value)
  {
    var out := AfterAccount(s, calls, api, platform, puuid);
    var summ := api.summonerByPuuid(platform, puuid);
    if summ.Ok? {
      var calls1 := calls + [SummonerByPuuid(platform, puuid)];
      assert out == AfterSummoner(s.(summoner := Some(summ.value)), calls1, api, platform, puuid, summ.value);
      if api.matchesByPuuid(PlatformToRegion(platform), puuid, MatchCount).Ok? {
        MatchFetchesFollowIds(s.(summoner := Some(summ.value)), calls1, api, platform, puuid, summ.value);
      }
    }
  }

  /** After the match-id lookup succeeds, one fetch per returned id follows
      it, in the order of the ids. */
  lemma MatchFetchesFollowIds(s: ViewState, calls: seq<Call>, api: Backend, platform: Platform, puuid: string,
                              summ: Summoner)
    requires api.matchesByPuuid(PlatformToRegion(platform), puuid, MatchCount).Ok?
    ensures var region := PlatformToRegion(platform);
            var ids := api.matchesByPuuid(region, puuid, MatchCount).value;
            var out := AfterSummoner(s, calls, api, platform, puuid, summ);
            && |out.calls| >= |calls| + 1 + |ids|
            && out.calls[|calls| + 1..|calls| + 1 + |ids|] == MatchCalls(region, ids)
  {
    var region := PlatformToRegion(platform);
    var ids := api.matchesByPuuid(region, puuid, MatchCount).value;
    var out := AfterSummoner(s, calls, api, platform, puuid, summ);
    var calls2 := calls + [MatchesByPuuid(region, puuid, MatchCount)];
    assert out == AfterMatchIds(s, calls2, api, platform, puuid, summ, ids);
    assert out.calls[|calls2|..|calls2| + |ids|] == out.calls[..|calls2| + |ids|][|calls2|..];
  }

  /** The scenario with every ranked source empty: no league, and no error. */
  lemma AllRankedSourcesEmpty(prev: ViewState, id: RiotId, platform: Platform, api: Backend)
    requires MainStepsSucceed(id, platform, api)
    requires forall p, id :: api.leagueBySummoner(p, id) == Ok([])
    requires forall p, id :: api.leagueByPuuid(p, id) == Ok([])
    requires forall p, id :: api.tftRatedByPuuid(p, id) == Ok(RatedStanding(None, None))
    ensures Search(prev, id, platform, api).state.league.None?
    ensures Search(prev, id, platform, api).state.error.None?
  {
    ErrorIffMainStepFails(prev, id, platform, api);
    var account := api.accountByRiotId(PlatformToRegion(platform), id.gameName, id.tagLine).value;
    var summ := api.summonerByPuuid(platform, account.puuid).value;
    RankedFallbackChain(api, platform, account.puuid, summ);
    Ranked.SelectLeagueIsEarliestMostPreferred([]);
  }

  /** An input of whitespace only is blank; the blank reset issues no
      request. */
  lemma BlankIsAllWhitespace(input: string)
    ensures IsBlank(input) <==> AllWhitespace(input)
  {
    TrimEmptyIffAllWhitespace(input);
  }

  // ---------------------------------------------------------------------------
  // Derived display fields

  datatype Display = Display(
    showWelcome: bool,
    primaryName: string,
    secondaryName: Option<string>,
    rankText: string,
    summonerPresent: bool,
    profileIconId: int,
    summonerLevel: int)

  /** The fields the view is rendered from, given the current input text. */
  function Derive(input: string, s: ViewState): (d: Display)
    ensures d.rankText == "Unranked" <==> s.league.None? || !Truthy(s.league.value.tier)
    ensures s.league.Some? ==> d.rankText == Ranked.FormatRank(s.league.value)
    ensures s.riotAccount.Some? ==> d.primaryName == s.riotAccount.value.gameName + "#" + s.riotAccount.value.tagLine
    ensures d.secondaryName.Some? <==> s.summoner.Some? && Truthy(s.summoner.value.name)
    ensures d.secondaryName.Some? ==> d.secondaryName == s.summoner.value.name
    ensures d.summonerPresent <==> s.summoner.Some?
    ensures s.summoner.Some? && s.summoner.value.profileIconId.Some? ==>
              d.profileIconId == s.summoner.value.profileIconId.value
    ensures !(s.summoner.Some? && s.summoner.value.profileIconId.Some?) ==> d.profileIconId == 0
    ensures s.summoner.Some? && s.summoner.value.summonerLevel.Some? ==>
              d.summonerLevel == s.summoner.value.summonerLevel.value
    ensures !(s.summoner.Some? && s.summoner.value.summonerLevel.Some?) ==> d.summonerLevel == 0
    ensures d.showWelcome <==> s.summoner.None? && s.matches == []
  {
    var summonerName := if s.summoner.Some? && Truthy(s.summoner.value.name) then s.summoner.value.name else None;
    var primary :=
      if s.riotAccount.Some? then s.riotAccount.value.gameName + [Separator] + s.riotAccount.value.tagLine
      else if summonerName.Some? then summonerName.value
      else input;
    Display(
      s.summoner.None? && |s.matches| == 0,
      primary,
      summonerName,
      if s.league.Some? then Ranked.FormatRank(s.league.value) else "Unranked",
      s.summoner.Some?,
      if s.summoner.Some? && s.summoner.value.profileIconId.Some? then s.summoner.value.profileIconId.value else 0,
      if s.summoner.Some? && s.summoner.value.summonerLevel.Some? then s.summoner.value.summonerLevel.value else 0)
  }

  /** After a successful search the primary name is the account's
      "name#tag", which parses back to the account's name and tag when they
      hold no '#'; a missing icon or level shows as 0. */
  lemma SuccessfulSearchDisplay(prev: ViewState, id: RiotId, platform: Platform, api: Backend, input: string)
    requires MainStepsSucceed(id, platform, api)
    ensures var out := Search(prev, id, platform, api);
            var d := Derive(input, out.state);
            var account := api.accountByRiotId(PlatformToRegion(platform), id.gameName, id.tagLine).value;
            var summ := api.summonerByPuuid(platform, account.puuid).value;
            && d.primaryName == account.gameName + [Separator] + account.tagLine
            && (Separator !in account.gameName && Separator !in account.tagLine ==>
                  ParseRiotId(d.primaryName) == RiotId(account.gameName, account.tagLine))
            && d.summonerPresent
            && (summ.profileIconId.None? ==> d.profileIconId == 0)
            && (summ.summonerLevel.None? ==> d.summonerLevel == 0)
  {
    ErrorIffMainStepFails(prev, id, platform, api);
    var account := api.accountByRiotId(PlatformToRegion(platform), id.gameName, id.tagLine).value;
    if Separator !in account.gameName && Separator !in account.tagLine {
      ParseRiotIdRoundTrip(account.gameName, account.tagLine, "");
    }
  }

  /** Without an account the primary name falls back to the summoner's
      non-empty name, then to the raw input; the blank reset therefore shows
      the raw input. */
  lemma PrimaryNameFallback(input: string, s: ViewState)
    requires s.riotAccount.None?
    ensures s.summoner.Some? && Truthy(s.summoner.value.name) ==>
              Derive(input, s).primaryName == s.summoner.value.name.value
    ensures !(s.summoner.Some? && Truthy(s.summoner.value.name)) ==> Derive(input, s).primaryName == input
  {
  }
}
