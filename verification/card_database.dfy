/**
 * The card catalogue: it validates card records (one JSON object per card in
 * the original), turns them into `Card` values with dense internal ids that
 * start at 1, and keeps two lookup tables: internal id -> card and original
 * string id -> internal id.
 */
module CardDatabase {
  import opened Wrappers

  datatype Rarity = RarityUnknown | RarityFree | RarityCommon | RarityRare | RarityEpic | RarityLegendary

  datatype MinionRace =
    | RaceNormal | RaceBeast | RaceDemon | RaceDragon | RaceMech | RaceMurloc | RacePirate | RaceTotem

  datatype CardType = TypeInvalid | TypeMinion | TypeSpell

  /** The minion half of the card's data union. */
  datatype MinionData = MinionData(
    attack: int, hp: int, race: MinionRace,
    taunt: bool, charge: bool, shield: bool, stealth: bool)

  datatype CardData = MinionPayload(minion: MinionData) | SpellPayload | NoPayload

  datatype Card = Card(id: int, cardType: CardType, rarity: Rarity, cost: int, data: CardData)

  /**
   * A minion's data after its `Clear()`, taken to be zero stats, normal race
   * and no mechanic flag; the card header that defines `Clear()` is not part
   * of this model.
   */
  const ClearedMinion := MinionData(0, 0, RaceNormal, false, false, false, false)

  /** What `GetCard` hands out for an id it does not know: a card marked invalid. */
  const InvalidCard := Card(0, TypeInvalid, RarityUnknown, 0, NoPayload)

  /** The three exceptions ingestion can raise. */
  datatype CatalogError =
    | RarityParseError   // "parse error"
    | UnknownRace        // "unknown race"
    | UnknownMechanic    // "unknown error"

  // ---------------------------------------------------------------------------
  // Card records: the JSON input, without the JSON library
  // ---------------------------------------------------------------------------

  datatype Mechanics = MechanicsArray(names: seq<string>) | MechanicsNotArray

  /** One element of the catalogue array; `None` is a member the object lacks. */
  datatype CardRecord = CardRecord(
    cardType: Option<string>, id: Option<string>, cost: Option<int>,
    attack: Option<int>, health: Option<int>,
    race: Option<string>, rarity: Option<string>, mechanics: Option<Mechanics>)

  datatype CardsJson = CardsArray(records: seq<CardRecord>) | NotAnArray

  /** A missing member read as a string is empty, read as an integer is 0. */
  function AsString(v: Option<string>): string { v.GetOr("") }
  function AsInt(v: Option<int>): int { v.GetOr(0) }

  // ---------------------------------------------------------------------------
  // Rarity and race
  // ---------------------------------------------------------------------------

  const RarityNames: set<string> := {"FREE", "COMMON", "RARE", "EPIC", "LEGENDARY"}

  /** The catalogue spelling of a rarity; RarityUnknown has none. */
  function RarityName(r: Rarity): string
    requires r != RarityUnknown
  {
    match r
    case RarityFree => "FREE"
    case RarityCommon => "COMMON"
    case RarityRare => "RARE"
    case RarityEpic => "EPIC"
    case RarityLegendary => "LEGENDARY"
  }

  function GetRarity(rarity: Option<string>): (r: Result<Rarity, CatalogError>)
    ensures rarity.None? ==> r == Success(RarityUnknown)
    ensures rarity.Some? ==> (r.Success? <==> rarity.value in RarityNames)
    ensures rarity.Some? && r.Success? ==> r.value != RarityUnknown && RarityName(r.value) == rarity.value
    ensures r.Failure? ==> r.error == RarityParseError
  {
    if rarity.None? then Success(RarityUnknown)
    else
      var s := rarity.value;
      if s == "FREE" then Success(RarityFree)
      else if s == "COMMON" then Success(RarityCommon)
      else if s == "RARE" then Success(RarityRare)
      else if s == "EPIC" then Success(RarityEpic)
      else if s == "LEGENDARY" then Success(RarityLegendary)
      else Failure(RarityParseError)
  }

  lemma RarityRoundTrip(r: Rarity)
    requires r != RarityUnknown
    ensures GetRarity(Some(RarityName(r))) == Success(r)
  {
  }

  const RaceNames: set<string> := {"BEAST", "DEMON", "DRAGON", "MECHANICAL", "MURLOC", "PIRATE", "TOTEM"}

  /** The catalogue spelling of a race; RaceNormal has none ("NORMAL" is rejected). */
  function RaceName(r: MinionRace): string
    requires r != RaceNormal
  {
    match r
    case RaceBeast => "BEAST"
    case RaceDemon => "DEMON"
    case RaceDragon => "DRAGON"
    case RaceMech => "MECHANICAL"
    case RaceMurloc => "MURLOC"
    case RacePirate => "PIRATE"
    case RaceTotem => "TOTEM"
  }

  function GetMinionRace(race: Option<string>): (r: Result<MinionRace, CatalogError>)
    ensures race.None? ==> r == Success(RaceNormal)
    ensures race.Some? ==> (r.Success? <==> race.value in RaceNames)
    ensures race.Some? && r.Success? ==> r.value != RaceNormal && RaceName(r.value) == race.value
    ensures r.Failure? ==> r.error == UnknownRace
  {
    if race.None? then Success(RaceNormal)
    else
      var s := race.value;
      if s == "BEAST" then Success(RaceBeast)
      else if s == "DEMON" then Success(RaceDemon)
      else if s == "DRAGON" then Success(RaceDragon)
      else if s == "MECHANICAL" then Success(RaceMech)
      else if s == "MURLOC" then Success(RaceMurloc)
      else if s == "PIRATE" then Success(RacePirate)
      else if s == "TOTEM" then Success(RaceTotem)
      else Failure(UnknownRace)
  }

  lemma RaceRoundTrip(r: MinionRace)
    requires r != RaceNormal
    ensures GetMinionRace(Some(RaceName(r))) == Success(r)
  {
  }

  // ---------------------------------------------------------------------------
  // Mechanics
  // ---------------------------------------------------------------------------

  /** Names that set one of the four minion flags. */
  const FlagMechanics: set<string> := {"TAUNT", "CHARGE", "DIVINE_SHIELD", "STEALTH"}
  /** Names accepted but not yet acted on. */
  const DeferredMechanics: set<string> := {"FORGETFUL", "FREEZE", "POISONOUS", "WINDFURY", "OVERLOAD"}
  /** Names whose effect is written by hand per card, so ingestion ignores them. */
  const HardCodedMechanics: set<string> := {
    "AURA", "DEATHRATTLE", "INSPIRE", "BATTLECRY", "SPELLPOWER", "COMBO", "ENRAGED",
    "ADJACENT_BUFF", "InvisibleDeathrattle", "ImmuneToSpellpower"}

  const KnownMechanics: set<string> := FlagMechanics + DeferredMechanics + HardCodedMechanics

  predicate AllKnown(names: seq<string>)
  {
    forall i :: 0 <= i < |names| ==> names[i] in KnownMechanics
  }

  /**
   * The meaning of a mechanics member: absent or not an array leaves the minion
   * as it is; an array of known names sets each flag exactly when its name is
   * listed; one unknown name is an error.
   */
  function ApplyMechanics(mechanics: Option<Mechanics>, minion: MinionData): Result<MinionData, CatalogError>
  {
    if mechanics.None? || mechanics.value.MechanicsNotArray? then Success(minion)
    else
      var names := mechanics.value.names;
      if AllKnown(names) then
        Success(minion.(taunt := "TAUNT" in names, charge := "CHARGE" in names,
                        shield := "DIVINE_SHIELD" in names, stealth := "STEALTH" in names))
      else Failure(UnknownMechanic)
  }

  /** The flags after a name list depend on which names it holds only: order and repetition do not matter. */
  lemma {:induction false} MechanicsIgnoreOrder(names: seq<string>, names': seq<string>, minion: MinionData)
    requires forall n :: n in names <==> n in names'
    ensures ApplyMechanics(Some(MechanicsArray(names)), minion) == ApplyMechanics(Some(MechanicsArray(names')), minion)
  {
    if AllKnown(names) {
      forall i | 0 <= i < |names'| ensures names'[i] in KnownMechanics {
        assert names'[i] in names;
      }
    }
    if AllKnown(names') {
      forall i | 0 <= i < |names| ensures names[i] in KnownMechanics {
        assert names[i] in names';
      }
    }
  }

  /**
   * The source's loop: the flags are reset, then each name in turn either
   * sets a flag, is ignored, or aborts with an error.
   */
  method ProcessMinionCardMechanics(mechanics: Option<Mechanics>, minion: MinionData)
    returns (r: Result<MinionData, CatalogError>)
    ensures r == ApplyMechanics(mechanics, minion)
  {
    if mechanics.None? || mechanics.value.MechanicsNotArray? {
      return Success(minion);
    }
    var names := mechanics.value.names;
    var m := minion.(taunt := false, charge := false, shield := false, stealth := false);
    var i := 0;
    while i < |names|
      invariant 0 <= i <= |names|
      invariant AllKnown(names[..i])
      invariant m == minion.(taunt := "TAUNT" in names[..i], charge := "CHARGE" in names[..i],
                             shield := "DIVINE_SHIELD" in names[..i], stealth := "STEALTH" in names[..i])
    {
      var mechanic := names[i];
      assert names[..i + 1] == names[..i] + [mechanic];
      if mechanic == "TAUNT" {
        m := m.(taunt := true);
      } else if mechanic == "CHARGE" {
        m := m.(charge := true);
      } else if mechanic == "DIVINE_SHIELD" {
        m := m.(shield := true);
      } else if mechanic == "STEALTH" {
        m := m.(stealth := true);
      } else if mechanic in DeferredMechanics {
      } else if mechanic in HardCodedMechanics {
      } else {
        assert !AllKnown(names);
        return Failure(UnknownMechanic);
      }
      i := i + 1;
    }
    assert names[..i] == names;
    return Success(m);
  }

  // ---------------------------------------------------------------------------
  // From record to card
  // ---------------------------------------------------------------------------

  /**
   * The card a MINION record becomes, before it is given an id (id 0 until
   * then); rarity, then race, then mechanics are checked.
   */
  function MinionCardFrom(rec: CardRecord): Result<Card, CatalogError>
  {
    var rarity :- GetRarity(rec.rarity);
    var race :- GetMinionRace(rec.race);
    var base := ClearedMinion.(attack := AsInt(rec.attack), hp := AsInt(rec.health), race := race);
    var minion :- ApplyMechanics(rec.mechanics, base);
    Success(Card(0, TypeMinion, rarity, AsInt(rec.cost), MinionPayload(minion)))
  }

  /** The card a SPELL record becomes, before it is given an id; only the rarity is checked. */
  function SpellCardFrom(rec: CardRecord): Result<Card, CatalogError>
  {
    var rarity :- GetRarity(rec.rarity);
    Success(Card(0, TypeSpell, rarity, AsInt(rec.cost), SpellPayload))
  }

  predicate IsMinionRecord(rec: CardRecord) { AsString(rec.cardType) == "MINION" }
  predicate IsSpellRecord(rec: CardRecord) { AsString(rec.cardType) == "SPELL" }
  /** Records of any other type are skipped. */
  predicate IsKept(rec: CardRecord) { IsMinionRecord(rec) || IsSpellRecord(rec) }

  /** The card a kept record becomes, before it is given an id. */
  function CardFrom(rec: CardRecord): Result<Card, CatalogError>
  {
    if IsMinionRecord(rec) then MinionCardFrom(rec) else SpellCardFrom(rec)
  }

  predicate ValidRarity(rarity: Option<string>) { rarity.None? || rarity.value in RarityNames }
  predicate ValidRace(race: Option<string>) { race.None? || race.value in RaceNames }
  predicate ValidMechanics(mechanics: Option<Mechanics>)
  {
    mechanics.None? || mechanics.value.MechanicsNotArray? || AllKnown(mechanics.value.names)
  }

  // ---------------------------------------------------------------------------
  // The catalogue's state as a value
  // ---------------------------------------------------------------------------

  datatype Catalogue = Catalogue(cards: map<int, Card>, originIdMap: map<string, int>, nextCardId: int)

  /** The two-table insertion `AddCard(card, origin_id)`. */
  function Insert(c: Catalogue, card: Card, origin: string): Catalogue
  {
    c.(cards := c.cards[card.id := card], originIdMap := c.originIdMap[origin := card.id])
  }

  /** `card` takes the next id, which then advances, and is inserted under it and `origin`. */
  function InsertWithNextId(c: Catalogue, card: Card, origin: string): Catalogue
  {
    Insert(c.(nextCardId := c.nextCardId + 1), card.(id := c.nextCardId), origin)
  }

  /** `Clear()`: the cards go and ids restart at 1, but the origin table is kept. */
  function Cleared(c: Catalogue): Catalogue
  {
    c.(cards := map[], nextCardId := 1)
  }

  /**
   * How a record turns into a card. The bookkeeping below (ids, order, the
   * first error) does not depend on it; the catalogue uses CardFrom.
   */
  type CardBuilder = CardRecord -> Result<Card, CatalogError>

  /** One record: a kept record that builds takes the next id and is inserted; others change nothing. */
  function AddRecordWith(build: CardBuilder, c: Catalogue, rec: CardRecord): Result<Catalogue, CatalogError>
  {
    if !IsKept(rec) then Success(c)
    else
      var card :- build(rec);
      Success(InsertWithNextId(c, card, AsString(rec.id)))
  }

  /** `AddCard(json)` on the catalogue's value. */
  function AddRecord(c: Catalogue, rec: CardRecord): (r: Result<Catalogue, CatalogError>)
    ensures !IsKept(rec) ==> r == Success(c)
    ensures r.Failure? <==>
      IsKept(rec) && (!ValidRarity(rec.rarity) ||
                      (IsMinionRecord(rec) && (!ValidRace(rec.race) || !ValidMechanics(rec.mechanics))))
    ensures r.Success? && IsKept(rec) ==>
      && r.value.nextCardId == c.nextCardId + 1
      && c.nextCardId in r.value.cards
      && r.value.cards[c.nextCardId].id == c.nextCardId
      && r.value.cards[c.nextCardId].cardType == (if IsMinionRecord(rec) then TypeMinion else TypeSpell)
      && r.value.cards[c.nextCardId].cost == AsInt(rec.cost)
      && AsString(rec.id) in r.value.originIdMap
      && r.value.originIdMap[AsString(rec.id)] == c.nextCardId
  {
    AddRecordWith(CardFrom, c, rec)
  }

  /** The outcome of adding a list: the catalogue reached and the error that stopped it, if any. */
  datatype Ingested = Ingested(catalogue: Catalogue, error: Option<CatalogError>)

  /** Adds the records in order; the first error stops the list and keeps the catalogue reached before it. */
  function AddRecordsWith(build: CardBuilder, c: Catalogue, recs: seq<CardRecord>): Ingested
    decreases |recs|
  {
    if recs == [] then Ingested(c, None)
    else
      var before := AddRecordsWith(build, c, recs[..|recs| - 1]);
      if before.error.Some? then before
      else
        match AddRecordWith(build, before.catalogue, recs[|recs| - 1])
        case Failure(e) => Ingested(before.catalogue, Some(e))
        case Success(c') => Ingested(c', None)
  }

  /** The records of a JSON array, added to the catalogue in order. */
  function AddRecords(c: Catalogue, recs: seq<CardRecord>): Ingested
  {
    AddRecordsWith(CardFrom, c, recs)
  }

  /** The number of records of a list that take an id. */
  function KeptCount(recs: seq<CardRecord>): nat
  {
    if recs == [] then 0 else KeptCount(recs[..|recs| - 1]) + (if IsKept(recs[|recs| - 1]) then 1 else 0)
  }

  /** Once a prefix has failed, the rest of the list is not looked at. */
  lemma {:induction false} AddRecordsStopsAtError(build: CardBuilder, c: Catalogue, recs: seq<CardRecord>, i: nat)
    requires i <= |recs| && AddRecordsWith(build, c, recs[..i]).error.Some?
    ensures AddRecordsWith(build, c, recs) == AddRecordsWith(build, c, recs[..i])
    decreases |recs| - i
  {
    if i < |recs| {
      assert recs[..i + 1][..i] == recs[..i];
      assert AddRecordsWith(build, c, recs[..i + 1]) == AddRecordsWith(build, c, recs[..i]);
      AddRecordsStopsAtError(build, c, recs, i + 1);
    } else {
      assert recs[..i] == recs;
    }
  }

  /** A list that ingests without error ingested its prefixes without error. */
  lemma AddRecordsPrefixSucceeds(build: CardBuilder, c: Catalogue, recs: seq<CardRecord>, i: nat)
    requires i <= |recs| && AddRecordsWith(build, c, recs).error.None?
    ensures AddRecordsWith(build, c, recs[..i]).error.None?
  {
    if AddRecordsWith(build, c, recs[..i]).error.Some? {
      AddRecordsStopsAtError(build, c, recs, i);
    }
  }

  /** The kept record `rec` is stored in `cat` under `id`, as the card it builds with that id. */
  predicate StoredAt(build: CardBuilder, cat: Catalogue, rec: CardRecord, id: int)
  {
    id in cat.cards && build(rec).Success? && cat.cards[id] == build(rec).value.(id := id)
  }

  /** Record j of `recs`, if kept, is stored in `cat` under the id counted from `start`. */
  predicate RecordStored(build: CardBuilder, cat: Catalogue, recs: seq<CardRecord>, j: nat, start: int)
    requires j < |recs|
  {
    IsKept(recs[j]) ==> StoredAt(build, cat, recs[j], start + KeptCount(recs[..j]))
  }

  /** Adding a list without error advances the next id by the number of kept records. */
  lemma {:induction false} AddRecordsCountsIds(build: CardBuilder, c: Catalogue, recs: seq<CardRecord>)
    requires AddRecordsWith(build, c, recs).error.None?
    ensures AddRecordsWith(build, c, recs).catalogue.nextCardId == c.nextCardId + KeptCount(recs)
    decreases |recs|
  {
    if recs != [] {
      AddRecordsCountsIds(build, c, recs[..|recs| - 1]);
    }
  }

  /** A kept record is counted before the end of any list it lies in. */
  lemma {:induction false} KeptCountBelow(recs: seq<CardRecord>, j: nat)
    requires j < |recs| && IsKept(recs[j])
    ensures KeptCount(recs[..j]) < KeptCount(recs)
    decreases |recs|
  {
    var p := recs[..|recs| - 1];
    if j < |recs| - 1 {
      KeptCountBelow(p, j);
      assert p[..j] == recs[..j];
    } else {
      assert recs[..j] == p;
    }
  }

  /** Adding one record leaves every card stored under another id as it was. */
  lemma StoredAtSurvivesAdd(build: CardBuilder, cat: Catalogue, rec: CardRecord, next: CardRecord, k: int)
    requires AddRecordWith(build, cat, next).Success?
    requires StoredAt(build, cat, rec, k) && k != cat.nextCardId
    ensures StoredAt(build, AddRecordWith(build, cat, next).value, rec, k)
  {
  }

  /** Adding a list without error ends in adding its last record to what its prefix reached. */
  lemma AddRecordsLastStep(build: CardBuilder, c: Catalogue, recs: seq<CardRecord>)
    requires recs != [] && AddRecordsWith(build, c, recs).error.None?
    ensures AddRecordsWith(build, c, recs[..|recs| - 1]).error.None?
    ensures AddRecordWith(build, AddRecordsWith(build, c, recs[..|recs| - 1]).catalogue, recs[|recs| - 1]).Success?
    ensures AddRecordsWith(build, c, recs).catalogue ==
      AddRecordWith(build, AddRecordsWith(build, c, recs[..|recs| - 1]).catalogue, recs[|recs| - 1]).value
  {
  }

  /** Adding one more record leaves the cards stored under earlier ids as they were. */
  lemma RecordStoredKept(build: CardBuilder, before: Catalogue, after: Catalogue, recs: seq<CardRecord>, j: nat, start: int)
    requires j < |recs| - 1
    requires before.nextCardId == start + KeptCount(recs[..|recs| - 1])
    requires AddRecordWith(build, before, recs[|recs| - 1]) == Success(after)
    requires RecordStored(build, before, recs[..|recs| - 1], j, start)
    ensures RecordStored(build, after, recs, j, start)
  {
    var p := recs[..|recs| - 1];
    assert p[..j] == recs[..j];
    assert p[j] == recs[j];
    if IsKept(recs[j]) {
      KeptCountBelow(p, j);
      StoredAtSurvivesAdd(build, before, recs[j], recs[|recs| - 1], start + KeptCount(recs[..j]));
    }
  }

  /** The last record of a list, if kept, takes the id after those of the records before it. */
  lemma RecordStoredLast(build: CardBuilder, c: Catalogue, recs: seq<CardRecord>)
    requires recs != [] && AddRecordsWith(build, c, recs).error.None?
    ensures RecordStored(build, AddRecordsWith(build, c, recs).catalogue, recs, |recs| - 1, c.nextCardId)
  {
    var p := recs[..|recs| - 1];
    AddRecordsPrefixSucceeds(build, c, recs, |recs| - 1);
    AddRecordsCountsIds(build, c, p);
    assert recs[..|recs| - 1] == p;
  }

  /** Adding a list without error hands the ids c.nextCardId, c.nextCardId + 1, ... to its kept records in order. */
  lemma {:induction false} AddRecordsAssignsSequentialIds(build: CardBuilder, c: Catalogue, recs: seq<CardRecord>)
    requires AddRecordsWith(build, c, recs).error.None?
    ensures forall j :: 0 <= j < |recs| ==> RecordStored(build, AddRecordsWith(build, c, recs).catalogue, recs, j, c.nextCardId)
    decreases |recs|
  {
    if recs != [] {
      AddRecordsPrefixSucceeds(build, c, recs, |recs| - 1);
      AddRecordsAssignsSequentialIds(build, c, recs[..|recs| - 1]);
      RecordStoredLast(build, c, recs);
      AddRecordsLastStep(build, c, recs);
      AddRecordsCountsIds(build, c, recs[..|recs| - 1]);
      var before := AddRecordsWith(build, c, recs[..|recs| - 1]).catalogue;
      var after := AddRecordsWith(build, c, recs).catalogue;
      forall j | 0 <= j < |recs| - 1
        ensures RecordStored(build, after, recs, j, c.nextCardId)
      {
        RecordStoredKept(build, before, after, recs, j, c.nextCardId);
      }
    }
  }

  // ---------------------------------------------------------------------------
  // The catalogue object
  // ---------------------------------------------------------------------------

  class CardDatabase {
    var cards: map<int, Card>
    var originIdMap: map<string, int>
    var nextCardId: int

    function Model(): Catalogue
      reads this
    {
      Catalogue(cards, originIdMap, nextCardId)
    }

    constructor ()
      ensures Model() == Catalogue(map[], map[], 1)
    {
      cards := map[];
      originIdMap := map[];
      nextCardId := 1;
    }

    /**
     * Clears the catalogue, then adds every record of an array in order.
     * An error from one record stops the ingestion: the records before it stay.
     */
    method ReadFromJson(json: CardsJson) returns (r: Result<bool, CatalogError>)
      modifies this
      ensures json.NotAnArray? ==> r == Success(false) && Model() == Cleared(old(Model()))
      ensures json.CardsArray? ==>
        var ingested := AddRecords(Cleared(old(Model())), json.records);
        && Model() == ingested.catalogue
        && r == (if ingested.error.None? then Success(true) else Failure(ingested.error.value))
    {
      Clear();
      if json.NotAnArray? {
        return Success(false);
      }
      var recs := json.records;
      ghost var start := Model();
      var i := 0;
      while i < |recs|
        invariant 0 <= i <= |recs|
        invariant AddRecords(start, recs[..i]) == Ingested(Model(), None)
      {
        assert recs[..i + 1][..i] == recs[..i];
        var added := AddCard(recs[i]);
        if added.Failure? {
          AddRecordsStopsAtError(CardFrom, start, recs, i + 1);
          return Failure(added.error);
        }
        i := i + 1;
      }
      assert recs[..i] == recs;
      return Success(true);
    }

    /** Adds one record; a record that is neither a minion nor a spell is skipped with success. */
    method AddCard(rec: CardRecord) returns (r: Result<bool, CatalogError>)
      modifies this
      ensures r.Success? ==> r.value && AddRecordWith(CardFrom, old(Model()), rec) == Success(Model())
      ensures r.Failure? ==> AddRecordWith(CardFrom, old(Model()), rec) == Failure(r.error) && Model() == old(Model())
    {
      var t := AsString(rec.cardType);
      if t == "MINION" {
        assert CardFrom(rec) == MinionCardFrom(rec);
        r := AddMinionCard(rec);
      } else if t == "SPELL" {
        assert CardFrom(rec) == SpellCardFrom(rec);
        r := AddSpellCard(rec);
      } else {
        r := Success(true);
      }
    }

    /** Validates a minion record and, only once it is valid, takes an id and stores the card. */
    method AddMinionCard(rec: CardRecord) returns (r: Result<bool, CatalogError>)
      modifies this
      ensures r.Success? ==>
        && r.value
        && MinionCardFrom(rec).Success?
        && Model() == InsertWithNextId(old(Model()), MinionCardFrom(rec).value, AsString(rec.id))
      ensures r.Failure? ==> MinionCardFrom(rec) == Failure(r.error) && Model() == old(Model())
    {
      var originId := AsString(rec.id);
      var rarity := GetRarity(rec.rarity);
      if rarity.Failure? {
        return Failure(rarity.error);
      }
      var race := GetMinionRace(rec.race);
      if race.Failure? {
        return Failure(race.error);
      }
      var base := ClearedMinion.(attack := AsInt(rec.attack), hp := AsInt(rec.health), race := race.value);
      var minion := ProcessMinionCardMechanics(rec.mechanics, base);
      if minion.Failure? {
        return Failure(minion.error);
      }
      var id := GetAvailableCardId();
      var card := Card(id, TypeMinion, rarity.value, AsInt(rec.cost), MinionPayload(minion.value));
      AddCardEntry(card, originId);
      return Success(true);
    }

    /** Validates a spell record's rarity, then takes an id and stores the card. */
    method AddSpellCard(rec: CardRecord) returns (r: Result<bool, CatalogError>)
      modifies this
      ensures r.Success? ==>
        && r.value
        && SpellCardFrom(rec).Success?
        && Model() == InsertWithNextId(old(Model()), SpellCardFrom(rec).value, AsString(rec.id))
      ensures r.Failure? ==> SpellCardFrom(rec) == Failure(r.error) && Model() == old(Model())
    {
      var originId := AsString(rec.id);
      var rarity := GetRarity(rec.rarity);
      if rarity.Failure? {
        return Failure(rarity.error);
      }
      var id := GetAvailableCardId();
      var card := Card(id, TypeSpell, rarity.value, AsInt(rec.cost), SpellPayload);
      AddCardEntry(card, originId);
      return Success(true);
    }

    /** The overload `AddCard(card, origin_id)`: store under both keys. */
    method AddCardEntry(card: Card, origin: string)
      modifies this
      ensures Model() == Insert(old(Model()), card, origin)
      ensures GetCard(card.id) == card
      ensures GetCardIdFromOriginalId(origin) == card.id
      ensures forall k :: k != card.id ==> GetCard(k) == old(GetCard(k))
      ensures forall o :: o != origin ==> GetCardIdFromOriginalId(o) == old(GetCardIdFromOriginalId(o))
    {
      cards := cards[card.id := card];
      originIdMap := originIdMap[origin := card.id];
    }

    /** Empties the card table and restarts ids at 1; the origin table is left as it was. */
    method Clear()
      modifies this
      ensures Model() == Cleared(old(Model()))
      ensures cards == map[] && nextCardId == 1
      ensures originIdMap == old(originIdMap)
    {
      cards := map[];
      nextCardId := 1;
    }

    method GetAvailableCardId() returns (id: int)
      modifies this
      ensures id == old(nextCardId)
      ensures nextCardId == old(nextCardId) + 1
      ensures cards == old(cards) && originIdMap == old(originIdMap)
    {
      id := nextCardId;
      nextCardId := nextCardId + 1;
    }

    function GetCard(id: int): (card: Card)
      reads this
      ensures id in cards ==> card == cards[id]
      ensures id !in cards ==> card.cardType == TypeInvalid
    {
      if id in cards then cards[id] else InvalidCard
    }

    function GetCardIdFromOriginalId(origin: string): (id: int)
      reads this
      ensures origin in originIdMap ==> id == originIdMap[origin]
      ensures origin !in originIdMap ==> id == -1
    {
      if origin in originIdMap then originIdMap[origin] else -1
    }
  }

  /**
   * Ingesting into a cleared catalogue, as ReadFromJson does, numbers the kept
   * records 1, 2, ... in order and leaves the next id one past the last.
   */
  lemma ReadFromJsonNumbersFromOne(c: Catalogue, recs: seq<CardRecord>)
    requires c.nextCardId == 1
    requires AddRecords(c, recs).error.None?
    ensures AddRecords(c, recs).catalogue.nextCardId == 1 + KeptCount(recs)
    ensures forall j :: 0 <= j < |recs| ==> RecordStored(CardFrom, AddRecords(c, recs).catalogue, recs, j, 1)
  {
    AddRecordsCountsIds(CardFrom, c, recs);
    AddRecordsAssignsSequentialIds(CardFrom, c, recs);
  }

  /** Adding a list whose kept records never use `origin` leaves that origin's entry as it was. */
  lemma {:induction false} AddRecordsKeepsOrigin(build: CardBuilder, c: Catalogue, recs: seq<CardRecord>, origin: string)
    requires origin in c.originIdMap
    requires forall j :: 0 <= j < |recs| && IsKept(recs[j]) ==> AsString(recs[j].id) != origin
    ensures origin in AddRecordsWith(build, c, recs).catalogue.originIdMap
    ensures AddRecordsWith(build, c, recs).catalogue.originIdMap[origin] == c.originIdMap[origin]
    decreases |recs|
  {
    if recs != [] {
      var p := recs[..|recs| - 1];
      assert forall j :: 0 <= j < |p| ==> p[j] == recs[j];
      AddRecordsKeepsOrigin(build, c, p, origin);
    }
  }

  /** Adding a list without error keeps every stored id and fills every id it hands out. */
  lemma {:induction false} AddRecordsFillsIds(build: CardBuilder, c: Catalogue, recs: seq<CardRecord>)
    requires AddRecordsWith(build, c, recs).error.None?
    ensures c.cards.Keys <= AddRecordsWith(build, c, recs).catalogue.cards.Keys
    ensures forall k :: c.nextCardId <= k < c.nextCardId + KeptCount(recs) ==>
      k in AddRecordsWith(build, c, recs).catalogue.cards
    decreases |recs|
  {
    if recs != [] {
      var p := recs[..|recs| - 1];
      AddRecordsPrefixSucceeds(build, c, recs, |recs| - 1);
      AddRecordsFillsIds(build, c, p);
      AddRecordsCountsIds(build, c, p);
      AddRecordsLastStep(build, c, recs);
    }
  }

  /**
   * Because Clear keeps the origin table, an original id read by an earlier
   * ReadFromJson still resolves after any later one that does not read that
   * id again, to the id it had before.
   */
  lemma StaleOriginIdSurvivesReread(c: Catalogue, recs: seq<CardRecord>, origin: string)
    requires origin in c.originIdMap
    requires forall j :: 0 <= j < |recs| && IsKept(recs[j]) ==> AsString(recs[j].id) != origin
    ensures origin in AddRecords(Cleared(c), recs).catalogue.originIdMap
    ensures AddRecords(Cleared(c), recs).catalogue.originIdMap[origin] == c.originIdMap[origin]
  {
    AddRecordsKeepsOrigin(CardFrom, Cleared(c), recs, origin);
  }

  /** Every count below a list's kept total is reached just before some kept record. */
  lemma {:induction false} KeptCountHit(recs: seq<CardRecord>, m: nat)
    requires m < KeptCount(recs)
    ensures exists j :: 0 <= j < |recs| && IsKept(recs[j]) && KeptCount(recs[..j]) == m
    decreases |recs|
  {
    var p := recs[..|recs| - 1];
    if m < KeptCount(p) {
      KeptCountHit(p, m);
      var j :| 0 <= j < |p| && IsKept(p[j]) && KeptCount(p[..j]) == m;
      assert p[..j] == recs[..j];
    } else {
      assert recs[..|recs| - 1] == p;
    }
  }

  /** Ingesting from next id 1 without error stores, under each id it hands out, the card of a kept record. */
  lemma HandedOutIdHoldsRecord(build: CardBuilder, c: Catalogue, recs: seq<CardRecord>, k: int)
    requires c.nextCardId == 1 && AddRecordsWith(build, c, recs).error.None?
    requires 1 <= k <= KeptCount(recs)
    ensures exists j :: 0 <= j < |recs| && IsKept(recs[j]) && StoredAt(build, AddRecordsWith(build, c, recs).catalogue, recs[j], k)
  {
    AddRecordsAssignsSequentialIds(build, c, recs);
    KeptCountHit(recs, k - 1);
    var j :| 0 <= j < |recs| && IsKept(recs[j]) && KeptCount(recs[..j]) == k - 1;
    assert RecordStored(build, AddRecordsWith(build, c, recs).catalogue, recs, j, 1);
  }

  /**
   * The consequence: when the later read hands out the stale id again, the old
   * original id now resolves to the card built from a record of that read,
   * one that does not carry the original id.
   */
  lemma StaleOriginIdNamesNewCard(c: Catalogue, recs: seq<CardRecord>, origin: string)
    requires origin in c.originIdMap
    requires forall j :: 0 <= j < |recs| && IsKept(recs[j]) ==> AsString(recs[j].id) != origin
    requires AddRecords(Cleared(c), recs).error.None?
    requires 1 <= c.originIdMap[origin] <= KeptCount(recs)
    ensures var after := AddRecords(Cleared(c), recs).catalogue;
      && origin in after.originIdMap
      && after.originIdMap[origin] == c.originIdMap[origin]
      && exists j :: 0 <= j < |recs| && IsKept(recs[j]) && AsString(recs[j].id) != origin
                  && StoredAt(CardFrom, after, recs[j], c.originIdMap[origin])
  {
    StaleOriginIdSurvivesReread(c, recs, origin);
    HandedOutIdHoldsRecord(CardFrom, Cleared(c), recs, c.originIdMap[origin]);
  }
}
