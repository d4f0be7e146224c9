# TFT match-history lookup: search orchestration, Riot API proxy and match card

This project models the core of a small web client for Teamfight Tactics
match histories, together with the serverless proxy that holds the Riot API
key.

- **Search (`App`).** A user types a Riot ID ("name#tag") and picks a
  platform. The search does four things:
  - resolves the account;
  - loads the summoner profile, the last five match ids and every match;
  - finds a ranked standing through a chain of fallbacks;
  - updates the view state.
- **Ranked (`Ranked`).** A ranked entry is chosen from a league list by
  queue-type preference and is rendered as text ("Gold II 37LP").
- **Proxy (`Proxy`).** The proxy maps a `route` query parameter and its
  arguments onto exactly one upstream URL on a region or platform host. It
  also maps the upstream reply (or any failure) onto the response the browser
  receives.
- **API client (`Api`).** The browser-side client sends one request per
  route. The project proves that, when the API key is configured, every
  request it can send is one the proxy forwards.
- **Match card (`MatchCard`).** Each match card shows, for the searched
  player:
  - the game mode;
  - the relative time;
  - the player's placement, units and active traits, with names resolved
    through the reference-data tables.

How the model is built:
- Network answers are a `Backend`: a record of functions from request
  arguments to outcomes (`Ok(value)` or `Err(thrown)`).
- A search is a pure function of the previous view state, the input text,
  the platform and a backend. It returns the next state and the list of
  requests issued, in order.
- `OnSearch` parses a non-blank input and hands the Riot ID to `Search`.
  The properties of a search are stated over `Search` for any Riot ID, and
  `OnSearch`'s contract says which Riot ID it is searched with.
- The clock (`Date.now()`) is a parameter of the match card.
- In the proxy, `encodeURIComponent`, `fetch` and the `JSON.parse`/`stringify`
  round are parameters.
- JavaScript semantics that decide branches are written out:
  - truthiness of optional strings;
  - `String(undefined)`;
  - `trim`;
  - ASCII `toLowerCase`;
  - decimal printing of integers;
  - `e?.message || …`;
  - `Number.MAX_SAFE_INTEGER`;
  - the stable `Array.prototype.sort`.

Files:
- `js.dfy`: JavaScript primitives.
- `regions.dfy`: platforms, regions and the platform-to-region table.
- `types.dfy`: JSON shapes.
- `proxy.dfy`: the proxy.
- `api.dfy`: client requests.
- `ranked.dfy`: league selection and rank text.
- `app.dfy`: the search and the derived display fields.
- `matchcard.dfy`: the match card.

Behaviour of the code worth noting:
- **Preference order.** The preference list is the one in `App.tsx`:
  `RANKED_TFT`, `RANKED_TFT_STANDARD`, `RANKED_TFT_DOUBLE_UP`,
  `RANKED_TFT_TURBO`, `RANKED_TFT_PAIRS`. It has no entry for an
  unranked default; every unlisted queue type shares the last place.
- **Stale state.** A failed search keeps the fields that earlier steps of the
  same search, or the previous search, left behind. Only `error` and `loading`
  change at the failing step.
- **Blank input.** The blank-input reset clears every search field but leaves
  `loading` untouched.
- **Ties.** Ties in the preference sort keep list order, because the sort is
  stable.

## Model

| member | source | states |
|---|---|---|
| Regions.PlatformOfKey | src/lib/regions.ts:1-2 | a platform name read back yields the platform whose name it is |
| Regions.PlatformKeyRoundTrip | src/lib/regions.ts:1-2 | every platform's name reads back to that platform, so names are distinct |
| Regions.PreimagesExact | src/lib/regions.ts:6-27 | a platform maps to a region exactly when it is among that region's listed platforms |
| Regions.RegionsPartitionPlatforms | src/lib/regions.ts:1-23 | the three regions' platform sets are pairwise disjoint and together are all sixteen platforms |
| Js.TrimEmptyIffAllWhitespace | src/App.tsx:38 | `trim` gives "" exactly when every character is ECMAScript whitespace or a line terminator |
| Js.NatToStringRoundTrip | api/riot-proxy.ts:35 | the decimal text of a non-negative integer reads back to that integer |
| Js.IntToStringInjective | src/components/MatchCard.tsx:23 | distinct integers print as distinct template-literal texts |
| Proxy.CaughtMessage | api/riot-proxy.ts:136-139 | the error text of a 500 is never empty and is the thrown error's message whenever that is non-empty |
| Proxy.ResolveHost | api/riot-proxy.ts:57-58 | a host is found exactly for the table's own keys, and it is the listed host |
| Proxy.ResolveHostAsWritten | api/riot-proxy.ts:57-58 | the object lookup as written also yields a value for inherited names; it is absent only for names neither listed nor inherited |
| Proxy.InheritedRegionPassesGuard | api/riot-proxy.ts:57-58 | region "constructor" is not a region, yet the lookup as written yields a value, so the guard lets it through |
| Proxy.Dispatch | api/riot-proxy.ts:46-135 | a missing or empty key answers 500 before anything else; a forward only happens for a known route with the key set; every refusal is a 500 or the 404 "Unknown route" |
| Proxy.DispatchAgreesWithRouteTable | api/riot-proxy.ts:53-135 | the handler's chain of route branches equals an independent route table (host table, path pieces, error per route) on every request |
| Proxy.MissingKeyBeforeRoute | api/riot-proxy.ts:46-51 | without the key every request, known or unknown route, gets the missing-key 500 and never a 404 |
| Proxy.UnknownRouteIs404 | api/riot-proxy.ts:135 | with the key set, the answer is the 404 "Unknown route" exactly when the route is absent or not one of the eight |
| Proxy.HostCheck | api/riot-proxy.ts:53-133 | a known route is refused with its table's "Invalid region"/"Invalid platform" exactly when its host parameter is not a key of that table; otherwise the URL starts with the listed host |
| Proxy.MatchesCountDefault | api/riot-proxy.ts:114-123 | the match-ids URL ends in the given `count`, or in 5 when `count` is absent or empty |
| Proxy.PlatformHostsMatchPlatforms | api/riot-proxy.ts:12-29 | every client platform has a platform host, and every platform-host key is a client platform |
| Proxy.PlatformHostOf | api/riot-proxy.ts:12-29 | the given platform's name is a key of the platform-host table |
| Proxy.RegionHostsMatchRegions | api/riot-proxy.ts:6-10 | the region-host keys are exactly the three regions, so every region derived from a platform has a host |
| Proxy.Relay | api/riot-proxy.ts:31-38 | the answer is 200 exactly when the upstream call succeeded with a 2xx status and its body parsed, and then the body is the re-serialised JSON; otherwise it is a 500 with a non-empty error |
| Proxy.UpstreamErrorMessage | api/riot-proxy.ts:34-36 | a non-2xx reply is reported with its own body text, or, if that is empty, as "Upstream error " followed by digits that read back to the status |
| Proxy.UpstreamOnlyThroughForwardedUrl | api/riot-proxy.ts:40-140 | a refused request's response does not depend on upstream; a forwarded one depends on upstream only through the single forwarded URL |
| Api.ClientRequestsAreForwarded | src/lib/api.ts:12-42 | with the key set, every request the client can build is forwarded upstream, never answered "Unknown route", "Invalid region" or "Invalid platform" |
| Ranked.IndexOf | src/App.tsx:81 | -1 exactly when absent; otherwise the position holds the value and no earlier position does |
| Ranked.PreferenceIndex | src/App.tsx:79-86 | a listed queue type gets its position in the preference list; every unlisted one gets `Number.MAX_SAFE_INTEGER` |
| Ranked.SortBy | src/App.tsx:87 | the result is sorted by the key and is a permutation of the input |
| Ranked.SortIsStable | src/App.tsx:87 | for every key value, the entries sharing it keep their input order |
| Ranked.SelectLeagueIsEarliestMostPreferred | src/App.tsx:87-92 | nothing is selected exactly for the empty list; otherwise the selection is the earliest entry of the most preferred queue type present |
| Ranked.SelectionExamples | src/App.tsx:79-92 | standard ranked listed after Double Up is still chosen, and Pairs is chosen over an earlier unlisted queue type |
| Ranked.Capitalize | src/App.tsx:170 | "" exactly for an absent or empty tier; otherwise the first character is kept and the rest are lower-cased |
| Ranked.FormatRank | src/App.tsx:169-185 | the text is "Unranked" exactly when the entry has no non-empty tier |
| Ranked.FormatRankShape | src/App.tsx:169-185 | a ranked entry reads: capitalised tier, then the division (only below Master), then the LP (0 when absent) and "LP"; an apex tier ignores the division |
| Ranked.FormatRankGoldExample | src/App.tsx:180-184 | GOLD, II, 37 LP reads "Gold II 37LP" |
| Ranked.FormatRankChallengerExample | src/App.tsx:177-178 | CHALLENGER with 500 LP reads "Challenger 500LP" |
| App.ParseRiotId | src/App.tsx:49-57 | without '#' the whole input is the name and the tag is "BR1"; with '#' the name and tag hold no '#' and "name#tag" is a prefix of the input ending at its end or at a second '#' |
| App.ParseRiotIdRoundTrip | src/App.tsx:49-57 | parsing "name#tag" (with anything after a further '#') gives back the name and tag when neither holds '#' |
| App.ParseRiotIdEdgeExamples | src/App.tsx:51-56 | "a#" gives an empty tag, and "a#b#c" ignores the third part |
| App.ParseRiotIdDefaultTagExample | src/App.tsx:49-57 | "Rafak#BR1" and "Rafak" parse to the same Riot ID |
| App.BlankIsAllWhitespace | src/App.tsx:38 | an input is treated as blank exactly when it is all whitespace |
| App.FindEncryptedId | src/App.tsx:67-76 | the summoner's non-empty id is used with no request; otherwise one League-profile request is made, and its non-empty id (if any) is the result |
| App.RankedFallbackChain | src/App.tsx:66-108 | with an id, the league is the preferred entry of that id's list, the earliest on ties, and no by-puuid or rated request is made; without one, it is the first by-puuid entry, else a Turbo entry exactly when the rated standing has a tier, else none; a rejected lookup anywhere in the chain (League profile, league by id, league by puuid, rated ladder) gives no league |
| App.RankedByEncryptedId | src/App.tsx:76-91 | with an encrypted id, the league is the earliest most-preferred entry of that id's list, none when the list is empty or its lookup fails, and the by-puuid and rated lookups are not made |
| App.TurboEntryRendersUnranked | src/App.tsx:100-103 | the synthetic Turbo entry has no tier, so its rank text is "Unranked" |
| App.FetchMatches | src/App.tsx:64 | the join succeeds exactly when every fetch does, giving every match in id order; a failure is the failure of one of the fetches |
| App.MatchCalls | src/App.tsx:64 | one match request per id, in id order |
| App.OnSearch | src/App.tsx:37-120 | blank input clears every search field with no request; any other input ends with `loading` off, and its first request is the account lookup for the parsed name and tag in the platform's region |
| App.Search | src/App.tsx:51-118 | the search for a parsed Riot ID ends with `loading` off, and its first request is the account lookup for that name and tag in the platform's region |
| App.AfterAccount | src/App.tsx:59-62 | after the account, the next request is the summoner lookup for the returned puuid, `loading` ends off, and the recorded puuid and Riot ID are not changed by the later steps |
| App.AfterSummoner | src/App.tsx:62-63 | after the summoner, the next request is the five-id match-list lookup in the platform's region; the later steps change neither the puuid, the Riot ID nor the summoner |
| App.AfterMatchIds | src/App.tsx:64-65 | after the id list, the requests continue with one match fetch per id, in id order; the ranked step changes neither the puuid, the Riot ID nor the summoner |
| App.ErrorIffMainStepFails | src/App.tsx:58-119 | the error field is set exactly when the account, summoner, id-list or a match fetch fails; on success every field comes from this search and the league is the ranked chain's result |
| App.AccountFailureKeepsPreviousResults | src/App.tsx:58-119 | a failed account lookup shows its message (or "Erro na busca." for a non-Error), keeps every other field as it was, and makes one request |
| App.SearchSignsIn | src/App.tsx:58-60 | once the account lookup succeeds, the shown puuid and Riot ID are the account's, whatever the later steps do |
| App.SummonerFailureShowsError | src/App.tsx:58-118 | a failed summoner lookup shows its message; the puuid and Riot ID are the new account's, the summoner, matches and league stay as before, and only the account and summoner requests are made |
| App.MatchIdsFailureShowsError | src/App.tsx:58-118 | a failed match-id lookup shows its message; the account and new summoner are recorded, the matches and league stay as before, and three requests are made |
| App.MatchFetchFailureShowsError | src/App.tsx:58-118 | a failed match fetch shows the join's message; the account and new summoner are recorded, the matches and league stay as before, every fetch is issued and no ranked request is made |
| App.SearchRequestOrder | src/App.tsx:58-62 | requests go in dependency order: account first; then the summoner for the returned puuid; then the match ids for that puuid |
| App.SearchFetchesMatchesInOrder | src/App.tsx:58-64 | after successful account, summoner and match-id lookups, the next requests are one match fetch per returned id, in id order |
| App.SummonerThenMatchIds | src/App.tsx:61-64 | once the summoner lookup succeeds, the id-list request follows it, and after a successful id list the match fetches follow in id order |
| App.MatchFetchesFollowIds | src/App.tsx:63-64 | after a successful id list, the match fetches follow it in id order |
| App.AllRankedSourcesEmpty | src/App.tsx:66-109 | when every ranked source comes back empty, the search succeeds with no league and no error |
| App.Derive | src/App.tsx:122-144 | the rank text is "Unranked" exactly when there is no league or it has no tier, and otherwise the league's `formatRank` text; with an account the primary name is "name#tag"; the secondary name is the summoner's name exactly when it is non-empty; icon and level are the summoner's when present, else 0; the welcome shows exactly with no summoner and no matches |
| App.SuccessfulSearchDisplay | src/App.tsx:122-144 | after a successful search the primary name is "name#tag" of the account, which parses back to that account; a missing icon or level shows as 0 |
| App.PrimaryNameFallback | src/App.tsx:123-128 | with no account, the primary name is the summoner's non-empty name, else the raw input |
| MatchCard.TftModeName | src/components/MatchCard.tsx:16-25 | the five listed queue ids get their names; every other id gets "Desconhecido (<id>)" |
| MatchCard.ModeNameInjective | src/components/MatchCard.tsx:16-25 | distinct queue ids get distinct names, and a name starts "Desconhecido (" exactly for unlisted ids |
| MatchCard.TimeParts | src/components/MatchCard.tsx:5-14 | minutes under an hour, hours under a day, days beyond; the count is the floor of the elapsed time in that unit; an out-of-range date is invalid |
| MatchCard.FloorDivCompose | src/components/MatchCard.tsx:8-12 | flooring by one divisor and then another equals flooring by their product |
| MatchCard.TimeAgoReadsBack | src/components/MatchCard.tsx:5-14 | two times give the same text exactly when they fall in the same whole unit (or are both invalid) |
| MatchCard.TimeAgoBoundaries | src/components/MatchCard.tsx:8-13 | one millisecond short of an hour is 59 minutes; exactly an hour is 1 hour; exactly a day is 1 day; one millisecond in the future is -1 minutes |
| MatchCard.FirstWithPuuid | src/components/MatchCard.tsx:34 | none exactly when no record has the puuid; otherwise the first position of a record that has it |
| MatchCard.FindParticipantIsFirst | src/components/MatchCard.tsx:34 | the found record is the first with the puuid, and nothing is found exactly when no record has it |
| MatchCard.RenderUnit | src/components/MatchCard.tsx:54-66 | a portrait shows exactly for a known champion, and then the name is the champion's and the URL is built from the data version and image file; an unknown id shows as itself |
| MatchCard.RenderUnits | src/components/MatchCard.tsx:54-66 | one entry per unit, at the same position |
| MatchCard.RenderUnitsAppend | src/components/MatchCard.tsx:54 | rendering a concatenation renders each part in turn, so no unit is dropped, repeated or moved |
| MatchCard.PortraitsExactlyForKnownChampions | src/components/MatchCard.tsx:55-59 | the unit at each position has a portrait exactly when its champion is known |
| MatchCard.ActiveTraits | src/components/MatchCard.tsx:73 | a trait is kept exactly when it is in the list with style above 0 |
| MatchCard.ActiveTraitsAppend | src/components/MatchCard.tsx:73 | the filter distributes over concatenation, so order is kept |
| MatchCard.ActiveTraitsIdempotent | src/components/MatchCard.tsx:73 | filtering twice changes nothing, and a list of styled traits is kept whole |
| MatchCard.RenderTrait | src/components/MatchCard.tsx:74-78 | the chip's name is the trait table's name when the trait is known, else the raw name; its unit count is the trait's |
| MatchCard.TraitSection | src/components/MatchCard.tsx:69-82 | the section exists exactly when the player has any trait; it holds one chip per styled trait, in order |
| MatchCard.TraitSectionWithoutActiveTraits | src/components/MatchCard.tsx:69-73 | traits that are all unstyled still give a section, with no chips |
| MatchCard.NoStyledTraitsNoneActive | src/components/MatchCard.tsx:73 | a list with no styled trait filters to nothing |
| MatchCard.ChipsAreStyledTraits | src/components/MatchCard.tsx:73-79 | the chips are exactly the renderings of the player's styled traits |
| MatchCard.RenderMatchCard | src/components/MatchCard.tsx:33-44 | the not-found placeholder, with its fixed text, shows exactly when no record has the puuid |
| MatchCard.CardShowsFirstRecord | src/components/MatchCard.tsx:34-82 | a card shows the first record with the puuid: its placement, the subtitle "<mode> • <time ago>", that record's units rendered in order, and its trait section, present exactly when it has traits |

## Left out

- Browser and React machinery are left out: component state hooks, effects, memoisation, JSX markup, CSS, the React `key` strings of units and trait chips, and the search bar and page layout components. The model keeps only the values the view is built from.
- Js.IntToString: prints every digit. JavaScript writes a Number of magnitude 1e21 or more in exponent form ("1e+21"). The only integer printed this way is a queue id, which never comes near that range.
- Concurrency is left out. A search runs start to finish against one backend, and overlapping searches are not modelled.
- `Promise.all` over the match fetches is modelled as failing with the first failing fetch in list order. `Promise.all` rejects with whichever fetch rejects first in time.
- Reference-data loading (`getLatestDDragon`, `loadTftData`) and its error message are left out. The tables are an input of the match card.
- The client's `http` helper (URL building, `fetch`, its "HTTP <status>" error text and `res.json()`) is not modelled. Each request's outcome comes from the backend; what is modelled is only which query parameters a request sends.
- `fetch`, the `X-Riot-Token` header, `JSON.parse` and `JSON.stringify` are parameters or left out. A non-object JSON value is not distinguished from an object.
- The development-server copy of the proxy is not modelled: its dispatch duplicates the serverless handler line for line. Environment loading and the preview server are also left out.
- Numbers are integers. Fractional timestamps and NaN league points are left out, as are the floating-point division in `timeAgo` and non-integral `count` texts.
- Non-ASCII `toLowerCase` is left out: tiers are ASCII upper-case words.
- `dd.champions[...]` and `dd.traits[...]` are read as own-key lookups. An id equal to an inherited `Object.prototype` name is not modelled there; see the finding for the same pattern in the proxy.
- The summoner, league and rated-standing answers are typed records. Arbitrary `any` values (e.g. `null` answers) are not modelled.
- Proxy.Dispatch, Proxy.HostCheck: model the corrected own-key host lookup, so an inherited name such as `constructor` is refused with "Invalid region" or "Invalid platform". The handler as written accepts it, builds a URL that starts "function Object() { [native code] }" and fails inside `fetch`; see "## Findings" and `Proxy.ResolveHostAsWritten`.
- Proxy.PlatformHostOf: states that each platform has a host, but not that the host text is "https://<platform>.api.riotgames.com".

## Findings

| source | as written | input that shows it | evidently intended | confidence | as-written member | corrected member |
|---|---|---|---|---|---|---|
| api/riot-proxy.ts:57-58 | the host is `REGION_HOSTS[region]` on a plain object, guarded only by `!host` | `route=account-by-riot-id&region=constructor` | an unlisted region is refused with "Invalid region" (the same applies to `PLATFORM_HOSTS` and "Invalid platform") | not executed | Proxy.InheritedRegionPassesGuard | Proxy.ResolveHost |

For an inherited name such as `constructor`, the lookup returns a truthy value
(the `Object` function), so the guard passes. The proxy then builds a URL
from that value's string form. `Proxy.ResolveHostAsWritten` models this
lookup. `Proxy.ResolveHost` is the own-key lookup that the rest of the model
uses, and `Proxy.HostCheck` proves about it that the refusal happens exactly
for keys outside the table.
