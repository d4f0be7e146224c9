/** The sixteen game platforms, the three routing regions, and the fixed
    table that sends each platform to its region. */
module Regions {
  import opened Js

  datatype Platform =
    | BR1 | NA1 | EUW1 | EUN1 | KR | JP1 | LA1 | LA2
    | OC1 | TR1 | RU | PH2 | SG2 | TH2 | TW2 | VN2

  datatype Region = Americas | Europe | Asia

  /** The string literal that names a platform on the wire. */
  function PlatformKey(p: Platform): string {
    match p
    case BR1 => "br1"   case NA1 => "na1"   case EUW1 => "euw1" case EUN1 => "eun1"
    case KR => "kr"     case JP1 => "jp1"   case LA1 => "la1"   case LA2 => "la2"
    case OC1 => "oc1"   case TR1 => "tr1"   case RU => "ru"     case PH2 => "ph2"
    case SG2 => "sg2"   case TH2 => "th2"   case TW2 => "tw2"   case VN2 => "vn2"
  }

  function RegionKey(r: Region): string {
    match r
    case Americas => "americas"
    case Europe => "europe"
    case Asia => "asia"
  }

  /** Reads a platform name back: the partial inverse of `PlatformKey`. */
  function PlatformOfKey(s: string): (p: Option<Platform>)
    ensures p.Some? ==> PlatformKey(p.value) == s
  {
    if s == "br1" then Some(BR1) else if s == "na1" then Some(NA1)
    else if s == "euw1" then Some(EUW1) else if s == "eun1" then Some(EUN1)
    else if s == "kr" then Some(KR) else if s == "jp1" then Some(JP1)
    else if s == "la1" then Some(LA1) else if s == "la2" then Some(LA2)
    else if s == "oc1" then Some(OC1) else if s == "tr1" then Some(TR1)
    else if s == "ru" then Some(RU) else if s == "ph2" then Some(PH2)
    else if s == "sg2" then Some(SG2) else if s == "th2" then Some(TH2)
    else if s == "tw2" then Some(TW2) else if s == "vn2" then Some(VN2)
    else None
  }

  /** Every platform's name reads back as that platform, so no two platforms
      share a name. */
  lemma PlatformKeyRoundTrip(p: Platform)
    ensures PlatformOfKey(PlatformKey(p)) == Some(p)
  {
  }

  function RegionOfKey(s: string): (r: Option<Region>)
    ensures r.Some? ==> RegionKey(r.value) == s
  {
    if s == "americas" then Some(Americas)
    else if s == "europe" then Some(Europe)
    else if s == "asia" then Some(Asia)
    else None
  }

  /** `platformToRegion`: the lookup in `PLATFORM_TO_REGION`. */
  function PlatformToRegion(p: Platform): Region {
    match p
    case BR1 => Americas case LA1 => Americas case LA2 => Americas
    case NA1 => Americas case OC1 => Americas
    case RU => Europe    case TR1 => Europe   case EUN1 => Europe case EUW1 => Europe
    case JP1 => Asia     case KR => Asia      case PH2 => Asia    case SG2 => Asia
    case TH2 => Asia     case TW2 => Asia     case VN2 => Asia
  }

  const AllPlatforms: set<Platform> :=
    {BR1, NA1, EUW1, EUN1, KR, JP1, LA1, LA2, OC1, TR1, RU, PH2, SG2, TH2, TW2, VN2}
  const AmericasPlatforms: set<Platform> := {BR1, LA1, LA2, NA1, OC1}
  const EuropePlatforms: set<Platform> := {RU, TR1, EUN1, EUW1}
  const AsiaPlatforms: set<Platform> := {JP1, KR, PH2, SG2, TH2, TW2, VN2}

  function Preimage(r: Region): set<Platform> {
    match r
    case Americas => AmericasPlatforms
    case Europe => EuropePlatforms
    case Asia => AsiaPlatforms
  }

  /** The platforms routed to each region are exactly the listed ones. */
  lemma PreimagesExact(p: Platform, r: Region)
    ensures PlatformToRegion(p) == r <==> p in Preimage(r)
  {
  }

  /** The three preimages partition the platforms: pairwise disjoint, jointly
      covering every platform, and the enumeration is complete. */
  lemma RegionsPartitionPlatforms()
    ensures AmericasPlatforms !! EuropePlatforms
    ensures AmericasPlatforms !! AsiaPlatforms
    ensures EuropePlatforms !! AsiaPlatforms
    ensures AmericasPlatforms + EuropePlatforms + AsiaPlatforms == AllPlatforms
    ensures forall p: Platform :: p in AllPlatforms
  {
    forall p: Platform ensures p in AllPlatforms {
      PlatformKeyRoundTrip(p);
    }
  }
}
