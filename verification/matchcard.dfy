/** The match card: the game mode's name, the relative time of the game, the
    searched player's participant record, and the unit and trait lists shown
    for that player with names resolved through the reference data. */
module MatchCard {
  import opened Js
  import opened Types

  // ---------------------------------------------------------------------------
  // Game mode

  /** The queue ids with a name of their own. */
  const KnownModes: map<int, string> :=
    map[1090 := "Normal", 1100 := "Ranqueada", 1130 := "Hyper Roll", 1160 := "Dupla", 1180 := "Modo especial"]

  const UnknownModePrefix := "Desconhecido ("

  /** `tftModeName`: the queue's name, or "Desconhecido (<id>)". */
  function TftModeName(queueId: int): (r: string)
    ensures queueId in KnownModes ==> r == KnownModes[queueId]
    ensures queueId !in KnownModes ==> r == UnknownModePrefix + IntToString(queueId) + ")"
  {
    if queueId in KnownModes then KnownModes[queueId] else UnknownModePrefix + IntToString(queueId) + ")"
  }

  /** Distinct queue ids get distinct names, so the shown name identifies
      the queue; an id falls back to the unknown-mode text exactly when it
      has no name of its own. */
  lemma ModeNameInjective(a: int, b: int)
    ensures TftModeName(a) == TftModeName(b) ==> a == b
    ensures UnknownModePrefix <= TftModeName(a) <==> a !in KnownModes
  {
    if TftModeName(a) == TftModeName(b) {
      if a !in KnownModes && b !in KnownModes {
        var ta, tb := IntToString(a), IntToString(b);
        assert TftModeName(a)[|UnknownModePrefix|..|TftModeName(a)| - 1] == ta;
        assert TftModeName(b)[|UnknownModePrefix|..|TftModeName(b)| - 1] == tb;
        IntToStringInjective(a, b);
      } else if a in KnownModes && b in KnownModes {
        assert a == b;
      }
    }
  }

  // ---------------------------------------------------------------------------
  // Relative time

  /** The largest magnitude of a valid `Date` time value, in milliseconds
      (section 21.4.1.1 of ECMA-262). */
  const MaxTimeValue: int := 8640000000000000

  const MinuteMs: int := 60000
  const HourMs: int := 3600000
  const DayMs: int := 86400000

  datatype TimeUnit = Minutes | Hours | Days

  /** What `timeAgo` shows: a count of some unit, or the text of an invalid
      date (every step on `NaN` fails its comparison, ending in days). */
  datatype Ago = Ago(count: int, unit: TimeUnit) | InvalidDate

  function UnitMs(u: TimeUnit): int {
    match u
    case Minutes => MinuteMs
    case Hours => HourMs
    case Days => DayMs
  }

  function UnitSuffix(u: TimeUnit): char {
    match u
    case Minutes => 'm'
    case Hours => 'h'
    case Days => 'd'
  }

  /** `timeAgo` up to the text: floor division into whole minutes, then
      hours, then days, with `now` standing for `Date.now()`. */
  function TimeParts(now: int, ts: int): (a: Ago)
    ensures a.InvalidDate? <==> ts < -MaxTimeValue || ts > MaxTimeValue
    ensures a.Ago? ==>
              && (a.unit == Minutes <==> now - ts < HourMs)
              && (a.unit == Hours <==> HourMs <= now - ts < DayMs)
              && (a.unit == Days <==> DayMs <= now - ts)
              && UnitMs(a.unit) * a.count <= now - ts < UnitMs(a.unit) * (a.count + 1)
  {
    if ts < -MaxTimeValue || ts > MaxTimeValue then InvalidDate
    else
      var diff := now - ts;
      var minutes := diff / MinuteMs;
      if minutes < 60 then Ago(minutes, Minutes)
      else
        var hours := minutes / 60;
        FloorDivCompose(diff, MinuteMs, 60);
        if hours < 24 then Ago(hours, Hours)
        else
          FloorDivCompose(diff, HourMs, 24);
          Ago(hours / 24, Days)
  }

  /** Dividing with floor by `b` and then by `c` is dividing by `b * c`. */
  lemma FloorDivCompose(a: int, b: int, c: int)
    requires b > 0 && c > 0
    ensures (a / b) / c == a / (b * c)
  {
    var q, r := a / b, a % b;
    var q2, r2 := q / c, q % c;
    assert a == b * q + r;
    assert q == c * q2 + r2;
    MulDistributes(b, c * q2, r2);
    MulAssociates(b, c, q2);
    assert a == (b * c) * q2 + (b * r2 + r);
    MulMonotone(b, 0, r2);
    MulMonotone(b, r2, c - 1);
    MulDistributes(b, c, -1);
    assert 0 <= b * r2 + r < b * c;
    DivUnique(a, b * c, q2, b * r2 + r);
  }

  lemma MulDistributes(a: int, x: int, y: int)
    ensures a * (x + y) == a * x + a * y
  {
  }

  lemma MulAssociates(a: int, b: int, c: int)
    ensures a * (b * c) == (a * b) * c
  {
  }

  lemma MulMonotone(a: int, x: int, y: int)
    requires a >= 0 && x <= y
    ensures a * x <= a * y
  {
    MulDistributes(a, x, y - x);
  }

  lemma DivUnique(a: int, d: int, q: int, r: int)
    requires d > 0 && 0 <= r < d && a == d * q + r
    ensures a / d == q
  {
    var q', r' := a / d, a % d;
    var k := q - q';
    assert d * k == r' - r;
  }

  const AgoSuffix := " atr\U{E1}s"

  /** `timeAgo`: the count, the unit letter and " atrás"; "NaNd atrás" for
      an invalid date. */
  function TimeAgo(now: int, ts: int): string {
    match TimeParts(now, ts)
    case InvalidDate => "NaN" + [UnitSuffix(Days)] + AgoSuffix
    case Ago(n, u) => IntToString(n) + [UnitSuffix(u)] + AgoSuffix
  }

  /** The text determines the count and the unit: two times read the same
      exactly when they fall in the same whole unit. */
  lemma TimeAgoReadsBack(now: int, a: int, b: int)
    ensures TimeAgo(now, a) == TimeAgo(now, b) <==> TimeParts(now, a) == TimeParts(now, b)
  {
    var ta, tb := TimeAgo(now, a), TimeAgo(now, b);
    if ta == tb {
      var pa, pb := TimeParts(now, a), TimeParts(now, b);
      var k := |AgoSuffix| + 1;
      assert ta[..|ta| - k] == (if pa.Ago? then IntToString(pa.count) else "NaN");
      assert tb[..|tb| - k] == (if pb.Ago? then IntToString(pb.count) else "NaN");
      assert ta[|ta| - k] == (if pa.Ago? then UnitSuffix(pa.unit) else 'd');
      assert tb[|tb| - k] == (if pb.Ago? then UnitSuffix(pb.unit) else 'd');
      if pa.Ago? && pb.Ago? {
        IntToStringInjective(pa.count, pb.count);
      }
    }
  }

  /** The boundaries: just under an hour is still minutes, a full hour is
      hours, a full day is days, and a game in the future counts negative
      minutes. */
  lemma TimeAgoBoundaries(now: int)
    requires -MaxTimeValue + DayMs <= now <= MaxTimeValue
    ensures TimeParts(now, now - (HourMs - 1)) == Ago(59, Minutes)
    ensures TimeParts(now, now - HourMs) == Ago(1, Hours)
    ensures TimeParts(now, now - DayMs) == Ago(1, Days)
    ensures now < MaxTimeValue ==> TimeParts(now, now + 1) == Ago(-1, Minutes)
  {
  }

  // ---------------------------------------------------------------------------
  // The searched player's record

  /** The position of the first participant with `puuid`, if any. */
  function FirstWithPuuid(ps: seq<ParticipantDto>, puuid: string): (i: Option<nat>)
    ensures i.None? <==> forall j :: 0 <= j < |ps| ==> ps[j].puuid != puuid
    ensures i.Some? ==> i.value < |ps| && ps[i.value].puuid == puuid
                        && forall j :: 0 <= j < i.value ==> ps[j].puuid != puuid
  {
    if ps == [] then None
    else if ps[0].puuid == puuid then Some(0)
    else
      match FirstWithPuuid(ps[1..], puuid)
      case None => None
      case Some(k) => Some(k + 1)
  }

  /** The first participant whose puuid is the searched one, if any. */
  function FindParticipant(ps: seq<ParticipantDto>, puuid: string): Option<ParticipantDto> {
    match FirstWithPuuid(ps, puuid)
    case None => None
    case Some(i) => Some(ps[i])
  }

  /** The lookup finds the first record with the puuid, and nothing exactly
      when no record has it. */
  lemma FindParticipantIsFirst(ps: seq<ParticipantDto>, puuid: string)
    ensures FindParticipant(ps, puuid).None? <==> forall p :: p in ps ==> p.puuid != puuid
    ensures FindParticipant(ps, puuid).Some? ==>
              exists i :: 0 <= i < |ps| && ps[i] == FindParticipant(ps, puuid).value
                          && ps[i].puuid == puuid
                          && forall j :: 0 <= j < i ==> ps[j].puuid != puuid
  {
    if FindParticipant(ps, puuid).None? {
      forall p | p in ps
        ensures p.puuid != puuid
      {
        var j :| 0 <= j < |ps| && ps[j] == p;
      }
    }
  }

  // ---------------------------------------------------------------------------
  // Units

  /** One unit as shown: its portrait (when the champion is known), its name
      and its star level. */
  datatype UnitView = UnitView(image: Option<string>, name: string, stars: int)

  function ChampionImageUrl(version: string, imageFull: string): string {
    "https://ddragon.leagueoflegends.com/cdn/" + version + "/img/tft-champion/" + imageFull
  }

  /** A unit's name and portrait resolved through the champion table; an
      unknown id shows as itself with no portrait. */
  function RenderUnit(u: UnitDto, dd: Databases): (v: UnitView)
    ensures v.image.Some? <==> u.characterId in dd.champions
    ensures u.characterId in dd.champions ==>
              var c := dd.champions[u.characterId];
              v.name == c.name && v.image == Some(ChampionImageUrl(dd.version, c.imageFull))
    ensures u.characterId !in dd.champions ==> v.name == u.characterId
    ensures v.stars == u.tier
  {
    match Get(dd.champions, u.characterId)
    case Some(c) => UnitView(Some(ChampionImageUrl(dd.version, c.imageFull)), c.name, u.tier)
    case None => UnitView(None, u.characterId, u.tier)
  }

  /** `units.map(...)`: every unit once, in order. */
  function RenderUnits(units: seq<UnitDto>, dd: Databases): (vs: seq<UnitView>)
    ensures |vs| == |units|
    ensures forall i :: 0 <= i < |units| ==> vs[i] == RenderUnit(units[i], dd)
  {
    seq(|units|, i requires 0 <= i < |units| => RenderUnit(units[i], dd))
  }

  /** Rendering a concatenation renders each part in turn, so no unit is
      dropped, repeated or moved. */
  lemma RenderUnitsAppend(a: seq<UnitDto>, b: seq<UnitDto>, dd: Databases)
    ensures RenderUnits(a + b, dd) == RenderUnits(a, dd) + RenderUnits(b, dd)
  {
    var l, r := RenderUnits(a + b, dd), RenderUnits(a, dd) + RenderUnits(b, dd);
    forall i | 0 <= i < |l|
      ensures l[i] == r[i]
    {
      if i < |a| {
        assert (a + b)[i] == a[i];
      } else {
        assert (a + b)[i] == b[i - |a|];
      }
    }
  }

  /** A portrait appears exactly for the units whose champion is known. */
  lemma PortraitsExactlyForKnownChampions(units: seq<UnitDto>, dd: Databases)
    ensures forall i :: 0 <= i < |units| ==>
              (RenderUnits(units, dd)[i].image.Some? <==> units[i].characterId in dd.champions)
  {
  }

  // ---------------------------------------------------------------------------
  // Traits

  /** The styled traits (style above 0), in their original order. */
  function ActiveTraits(ts: seq<TraitDto>): (r: seq<TraitDto>)
    ensures |r| <= |ts|
    ensures forall t :: t in r <==> t in ts && t.style > 0
  {
    if ts == [] then []
    else (if ts[0].style > 0 then [ts[0]] else []) + ActiveTraits(ts[1..])
  }

  /** The filter keeps the original order: it distributes over
      concatenation. */
  lemma {:induction false} ActiveTraitsAppend(a: seq<TraitDto>, b: seq<TraitDto>)
    ensures ActiveTraits(a + b) == ActiveTraits(a) + ActiveTraits(b)
  {
    if a == [] {
      assert a + b == b;
    } else {
      assert (a + b)[0] == a[0];
      assert (a + b)[1..] == a[1..] + b;
      ActiveTraitsAppend(a[1..], b);
    }
  }

  /** Filtering twice changes nothing; a list of styled traits is kept
      whole. */
  lemma {:induction false} ActiveTraitsIdempotent(ts: seq<TraitDto>)
    ensures ActiveTraits(ActiveTraits(ts)) == ActiveTraits(ts)
    ensures (forall i :: 0 <= i < |ts| ==> ts[i].style > 0) ==> ActiveTraits(ts) == ts
  {
    if ts != [] {
      ActiveTraitsIdempotent(ts[1..]);
      var head := if ts[0].style > 0 then [ts[0]] else [];
      ActiveTraitsAppend(head, ActiveTraits(ts[1..]));
      if ts[0].style > 0 {
        assert ActiveTraits(head) == head by {
          assert head[1..] == [];
        }
      }
      assert (forall i :: 0 <= i < |ts| ==> ts[i].style > 0) ==>
               (forall i :: 0 <= i < |ts[1..]| ==> ts[1..][i].style > 0) by {
        if forall i :: 0 <= i < |ts| ==> ts[i].style > 0 {
          forall i | 0 <= i < |ts[1..]|
            ensures ts[1..][i].style > 0
          {
            assert ts[1..][i] == ts[i + 1];
          }
        }
      }
    }
  }

  /** One trait chip: the trait's display name and its unit count. */
  datatype TraitChip = TraitChip(name: string, numUnits: int)

  /** A trait's name resolved through the trait table, or the raw name. */
  function RenderTrait(t: TraitDto, dd: Databases): (c: TraitChip)
    ensures t.name in dd.traits ==> c.name == dd.traits[t.name].name
    ensures t.name !in dd.traits ==> c.name == t.name
    ensures c.numUnits == t.numUnits
  {
    match Get(dd.traits, t.name)
    case Some(tr) => TraitChip(tr.name, t.numUnits)
    case None => TraitChip(t.name, t.numUnits)
  }

  /** The trait section: absent when the player has no traits at all, and
      otherwise the chips of the styled traits, in order — possibly none. */
  function TraitSection(traits: seq<TraitDto>, dd: Databases): (r: Option<seq<TraitChip>>)
    ensures r.Some? <==> |traits| > 0
    ensures r.Some? ==> |r.value| == |ActiveTraits(traits)|
                        && forall i :: 0 <= i < |r.value| ==> r.value[i] == RenderTrait(ActiveTraits(traits)[i], dd)
  {
    if |traits| > 0 then
      var active := ActiveTraits(traits);
      Some(seq(|active|, i requires 0 <= i < |active| => RenderTrait(active[i], dd)))
    else None
  }

  /** The section shows (with its title) even when no trait is styled. */
  lemma TraitSectionWithoutActiveTraits(traits: seq<TraitDto>, dd: Databases)
    requires |traits| > 0 && forall i :: 0 <= i < |traits| ==> traits[i].style <= 0
    ensures TraitSection(traits, dd) == Some([])
  {
    NoStyledTraitsNoneActive(traits);
  }

  lemma {:induction false} NoStyledTraitsNoneActive(ts: seq<TraitDto>)
    requires forall i :: 0 <= i < |ts| ==> ts[i].style <= 0
    ensures ActiveTraits(ts) == []
  {
    if ts != [] {
      assert ts[0].style <= 0;
      assert forall i :: 0 <= i < |ts[1..]| ==> ts[1..][i] == ts[i + 1];
      NoStyledTraitsNoneActive(ts[1..]);
    }
  }

  /** Every chip stands for a styled trait of the player, and every styled
      trait has a chip. */
  lemma ChipsAreStyledTraits(traits: seq<TraitDto>, dd: Databases)
    requires |traits| > 0
    ensures forall c :: c in TraitSection(traits, dd).value <==>
              exists t :: t in traits && t.style > 0 && c == RenderTrait(t, dd)
  {
    var chips := TraitSection(traits, dd).value;
    var active := ActiveTraits(traits);
    forall c
      ensures c in chips <==> exists t :: t in traits && t.style > 0 && c == RenderTrait(t, dd)
    {
      if c in chips {
        var i :| 0 <= i < |chips| && chips[i] == c;
        assert active[i] in active;
      }
      if exists t :: t in traits && t.style > 0 && c == RenderTrait(t, dd) {
        var t :| t in traits && t.style > 0 && c == RenderTrait(t, dd);
        assert t in active;
        var i :| 0 <= i < |active| && active[i] == t;
        assert chips[i] == c;
      }
    }
  }

  // ---------------------------------------------------------------------------
  // The card

  const NotFoundText := "Jogador n\U{E3}o encontrado nesta partida."

  /** The card as rendered: the not-found placeholder, or the header lines,
      the units and the optional trait section. */
  datatype CardView =
    | NotFoundPlaceholder(text: string)
    | Card(placement: string, subtitle: string, units: seq<UnitView>, traits: Option<seq<TraitChip>>)

  function PlacementText(placement: int): string {
    "Coloca\U{E7}\U{E3}o: " + IntToString(placement) + "\U{BA}"
  }

  /** `MatchCard`, with `now` standing for the clock. */
  function RenderMatchCard(m: MatchDto, puuid: string, dd: Databases, now: int): (v: CardView)
    ensures v.NotFoundPlaceholder? <==> FindParticipant(m.info.participants, puuid).None?
    ensures v.NotFoundPlaceholder? ==> v.text == NotFoundText
  {
    match FindParticipant(m.info.participants, puuid)
    case None => NotFoundPlaceholder(NotFoundText)
    case Some(me) =>
      Card(PlacementText(me.placement),
           TftModeName(m.info.queueId) + " \U{2022} " + TimeAgo(now, m.info.gameDatetime),
           RenderUnits(me.units, dd),
           TraitSection(me.traits, dd))
  }

  /** A card shows the first record with the searched puuid: its placement,
      the mode name and elapsed time under it, that record's units in order,
      and its trait section, present exactly when it has traits. */
  lemma CardShowsFirstRecord(m: MatchDto, puuid: string, dd: Databases, now: int)
    ensures var ps := m.info.participants;
            var v := RenderMatchCard(m, puuid, dd, now);
            && (v.NotFoundPlaceholder? <==> forall p :: p in ps ==> p.puuid != puuid)
            && (v.Card? ==>
                  exists i :: 0 <= i < |ps| && ps[i].puuid == puuid
                              && (forall j :: 0 <= j < i ==> ps[j].puuid != puuid)
                              && v.placement == PlacementText(ps[i].placement)
                              && v.subtitle == TftModeName(m.info.queueId) + " \U{2022} " + TimeAgo(now, m.info.gameDatetime)
                              && v.units == RenderUnits(ps[i].units, dd)
                              && |v.units| == |ps[i].units|
                              && v.traits == TraitSection(ps[i].traits, dd)
                              && (v.traits.Some? <==> |ps[i].traits| > 0))
  {
    FindParticipantIsFirst(m.info.participants, puuid);
  }
}
