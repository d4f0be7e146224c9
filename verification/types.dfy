/** The JSON shapes the client reads: match records, league entries, the
    account and summoner profiles, and the reference-data tables. Optional
    JSON fields are `Option`s; numbers the client only displays or compares
    are integers. */
module Types {
  import opened Js

  datatype TraitDto = TraitDto(
    name: string,
    numUnits: int,
    style: int,
    tierCurrent: Option<int>,
    tierTotal: Option<int>)

  datatype UnitDto = UnitDto(
    characterId: string,
    itemNames: Option<seq<string>>,
    items: Option<seq<int>>,
    tier: int)

  datatype ParticipantDto = ParticipantDto(
    puuid: string,
    placement: int,
    level: int,
    traits: seq<TraitDto>,
    units: seq<UnitDto>)

  datatype InfoDto = InfoDto(
    gameDatetime: int,
    gameLength: real,
    gameVersion: string,
    queueId: int,
    participants: seq<ParticipantDto>,
    tftSetNumber: Option<int>)

  datatype MetadataDto = MetadataDto(
    dataVersion: string,
    matchId: string,
    participants: seq<string>)

  datatype MatchDto = MatchDto(metadata: MetadataDto, info: InfoDto)

  datatype LeagueEntry = LeagueEntry(
    queueType: string,
    tier: Option<string>,
    rank: Option<string>,
    leaguePoints: Option<int>,
    ratedTier: Option<string>,
    ratedRating: Option<int>,
    wins: Option<int>,
    losses: Option<int>)

  /** The account lookup's answer. */
  datatype Account = Account(puuid: string, gameName: string, tagLine: string)

  /** A summoner profile; `id` is the encrypted summoner id, absent in newer
      API versions. */
  datatype Summoner = Summoner(
    id: Option<string>,
    profileIconId: Option<int>,
    summonerLevel: Option<int>,
    name: Option<string>)

  /** The rated-ladder standing (the Hyper Roll ladder). */
  datatype RatedStanding = RatedStanding(ratedTier: Option<string>, ratedRating: Option<int>)

  // Reference data (Data Dragon), keyed by internal identifier.

  datatype Champion = Champion(id: string, name: string, tier: int, imageFull: string)
  datatype Item = Item(id: string, name: string, imageFull: string)
  datatype Trait = Trait(id: string, name: string, imageFull: Option<string>)

  datatype Databases = Databases(
    version: string,
    champions: map<string, Champion>,
    items: map<string, Item>,
    traits: map<string, Trait>)
}
