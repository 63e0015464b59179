/** Which creature a walk meets and how rare the loot is: level bands, rarities and the light of day. */
module Spawning {
  import opened Basics
  import opened WeightedDraw

  datatype Rarity = Common | Uncommon | Rare | Epic | Legendary

  datatype Window = Day | Night | Any

  datatype Element = Beast | Vermin | Earth | Construct | Nature | Shadow | Undead | Spirit | Arcane
                   | Fire | Frost | Water | Air | Ooze | Fungus | Other(name: string)

  datatype Template = Template(id: string, element: Element, rarity: Rarity, spawnWindow: Option<Window>)

  datatype Band = Band(minLevel: int, rarities: seq<Rarity>, weights: seq<real>)

  const ENCOUNTER_BANDS: seq<Band> := [
    Band(20, [Common, Uncommon, Rare, Epic], [25.0, 45.0, 18.0, 12.0]),
    Band(12, [Common, Uncommon, Rare, Epic], [32.0, 48.0, 16.0, 4.0]),
    Band(6, [Common, Uncommon, Rare], [40.0, 45.0, 15.0]),
    Band(3, [Common, Uncommon, Rare], [55.0, 43.0, 2.0]),
    Band(1, [Common, Uncommon, Rare], [85.0, 15.0, 0.0])]

  const ALL_RARITIES: seq<Rarity> := [Common, Uncommon, Rare, Epic, Legendary]

  const LOOT_BANDS: seq<Band> := [
    Band(15, ALL_RARITIES, [10.0, 25.0, 35.0, 25.0, 5.0]),
    Band(10, ALL_RARITIES, [20.0, 35.0, 30.0, 14.0, 1.0]),
    Band(5, ALL_RARITIES, [40.0, 40.0, 18.0, 2.0, 0.0]),
    Band(1, ALL_RARITIES, [65.0, 30.0, 5.0, 0.0, 0.0])]

  // ---- level bands ----

  /** The first band the level reaches, or the last band when it reaches none. */
  ghost predicate IsBand(bands: seq<Band>, level: int, k: nat) {
    && k < |bands|
    && (forall j :: 0 <= j < k ==> level < bands[j].minLevel)
    && (level >= bands[k].minLevel || k == |bands| - 1)
  }

  method FindBand(bands: seq<Band>, level: int) returns (k: nat)
    requires bands != []
    ensures IsBand(bands, level, k)
  {
    for i := 0 to |bands|
      invariant forall j :: 0 <= j < i ==> level < bands[j].minLevel
    {
      if level >= bands[i].minLevel {
        return i;
      }
    }
    return |bands| - 1;
  }

  predicate WellFormed(b: Band) {
    |b.rarities| == |b.weights| && b.weights != [] && NonNegative(b.weights) && b.weights[0] > 0.0
    && forall i, j :: 0 <= i < j < |b.rarities| ==> b.rarities[i] != b.rarities[j]
  }

  lemma BandsWellFormed()
    ensures forall b :: b in ENCOUNTER_BANDS ==> WellFormed(b)
    ensures forall b :: b in LOOT_BANDS ==> WellFormed(b)
  {
  }

  /** Whether a rarity is what a draw r yields at a level. */
  ghost predicate Rolls(bands: seq<Band>, level: int, r: real, rarity: Rarity) {
    exists k: nat, i: nat :: IsBand(bands, level, k) && i < |bands[k].rarities| && bands[k].rarities[i] == rarity
      && IsPick(bands[k].weights, Roll(bands[k].weights, r), i)
  }

  /** Roll a rarity for a level; the fall-back to common is never needed. */
  method RollRarity(bands: seq<Band>, level: int, r: real) returns (rarity: Rarity)
    requires bands != [] && (forall b :: b in bands ==> WellFormed(b)) && 0.0 <= r < 1.0
    ensures Rolls(bands, level, r, rarity)
  {
    var k := FindBand(bands, level);
    var b := bands[k];
    assert WellFormed(b);
    var roll := Roll(b.weights, r);
    RollInRange(b.weights, r);
    var i := Draw(b.weights, roll);
    NeverFallsThrough(b.weights, roll, i);
    rarity := b.rarities[i];
  }

  method RollEncounterRarity(level: int, r: real) returns (rarity: Rarity)
    requires 0.0 <= r < 1.0
    ensures Rolls(ENCOUNTER_BANDS, level, r, rarity)
  {
    BandsWellFormed();
    rarity := RollRarity(ENCOUNTER_BANDS, level, r);
  }

  method RollLootRarity(level: int, r: real) returns (rarity: Rarity)
    requires 0.0 <= r < 1.0
    ensures Rolls(LOOT_BANDS, level, r, rarity)
  {
    BandsWellFormed();
    rarity := RollRarity(LOOT_BANDS, level, r);
  }

  /** Whether some draw yields the rarity at a level. */
  ghost predicate CanRoll(bands: seq<Band>, level: int, rarity: Rarity) {
    exists r: real :: 0.0 <= r < 1.0 && Rolls(bands, level, r, rarity)
  }

  /** A rarity can come up exactly when the level's band gives it a positive weight. */
  lemma CanRollIff(bands: seq<Band>, level: int, k: nat, rarity: Rarity)
    requires IsBand(bands, level, k) && WellFormed(bands[k])
    ensures CanRoll(bands, level, rarity) <==>
            exists i :: 0 <= i < |bands[k].rarities| && bands[k].rarities[i] == rarity && bands[k].weights[i] > 0.0
  {
    var b := bands[k];
    if i :| 0 <= i < |b.rarities| && b.rarities[i] == rarity && b.weights[i] > 0.0 {
      PossibleIff(b.weights, i);
      var r: real :| 0.0 <= r < 1.0 && IsPick(b.weights, Roll(b.weights, r), i);
      assert Rolls(bands, level, r, rarity);
    }
    if r: real :| 0.0 <= r < 1.0 && Rolls(bands, level, r, rarity) {
      var k': nat, i: nat :| IsBand(bands, level, k') && i < |bands[k'].rarities| && bands[k'].rarities[i] == rarity
                             && IsPick(bands[k'].weights, Roll(bands[k'].weights, r), i);
      assert k' == k;
      assert Possible(b.weights, i);
      PossibleIff(b.weights, i);
    }
  }

  /** The bands' promise for encounters: rare creatures from level 3 on, epic from 12 on, never a
      legendary, and common and uncommon always. */
  lemma EncounterRaritiesIff(level: int, rarity: Rarity)
    ensures CanRoll(ENCOUNTER_BANDS, level, rarity) <==>
            match rarity
            case Common => true
            case Uncommon => true
            case Rare => level >= 3
            case Epic => level >= 12
            case Legendary => false
  {
    BandsWellFormed();
    var k := if level >= 20 then 0
             else if level >= 12 then 1
             else if level >= 6 then 2
             else if level >= 3 then 3
             else 4;
    assert IsBand(ENCOUNTER_BANDS, level, k);
    assert ENCOUNTER_BANDS[k] in ENCOUNTER_BANDS;
    CanRollIff(ENCOUNTER_BANDS, level, k, rarity);
    var b := ENCOUNTER_BANDS[k];
    assert b.rarities[0] == Common && b.rarities[1] == Uncommon && b.rarities[2] == Rare;
    assert |b.rarities| == 4 ==> b.rarities[3] == Epic;
  }

  /** And for loot: epic from level 5 on, legendary from 10 on, the rest always. */
  lemma LootRaritiesIff(level: int, rarity: Rarity)
    ensures CanRoll(LOOT_BANDS, level, rarity) <==>
            match rarity
            case Epic => level >= 5
            case Legendary => level >= 10
            case _ => true
  {
    BandsWellFormed();
    var k := if level >= 15 then 0 else if level >= 10 then 1 else if level >= 5 then 2 else 3;
    assert IsBand(LOOT_BANDS, level, k);
    assert LOOT_BANDS[k] in LOOT_BANDS;
    CanRollIff(LOOT_BANDS, level, k, rarity);
    var b := LOOT_BANDS[k];
    assert b.rarities == ALL_RARITIES;
    assert b.rarities[0] == Common && b.rarities[1] == Uncommon && b.rarities[2] == Rare && b.rarities[3] == Epic
           && b.rarities[4] == Legendary;
  }

  // ---- templates and the time of day ----

  function WindowOfElement(element: Element): (r: Window) {
    match element
    case Beast | Vermin | Earth | Construct | Nature => Day
    case Shadow | Undead | Spirit | Arcane => Night
    case _ => Any
  }

  function SpawnWindowFor(t: Template): (r: Window) {
    if t.spawnWindow.Some? then t.spawnWindow.value else WindowOfElement(t.element)
  }

  function SpawnWeightAt(t: Template, daylight: bool): (r: real)
    ensures r > 0.0
  {
    var w := SpawnWindowFor(t);
    if w.Any? || (if daylight then w.Day? else w.Night?) then 1.0 else 0.15
  }

  const CREATURE_TEMPLATES: seq<Template> := [
    Template("forest_sprite", Nature, Common, None), Template("urban_phantom", Shadow, Common, None),
    Template("coastal_spirit", Water, Uncommon, None), Template("mountain_guardian", Earth, Rare, None),
    Template("wind_dancer", Air, Uncommon, None), Template("grove_warden", Nature, Rare, None),
    Template("void_stalker", Shadow, Rare, None), Template("tidal_behemoth", Water, Rare, None),
    Template("ashen_colossus", Earth, Epic, Some(Any)), Template("tempest_djinn", Air, Epic, None),
    Template("alley_cur", Beast, Common, None), Template("gutter_swarm", Vermin, Common, None),
    Template("mossback_toad", Nature, Common, None), Template("grit_golemling", Earth, Common, None),
    Template("pale_stray", Shadow, Common, None), Template("sump_ooze", Ooze, Common, None),
    Template("ash_wretch", Undead, Common, None), Template("copper_sentinel", Construct, Common, None),
    Template("cinder_hound", Fire, Uncommon, None), Template("bog_lurker", Water, Uncommon, None),
    Template("gale_wisp", Air, Uncommon, None), Template("scrap_golem", Earth, Uncommon, None),
    Template("frost_molting", Frost, Uncommon, None), Template("fungal_creeper", Fungus, Uncommon, None),
    Template("null_moth", Arcane, Uncommon, None), Template("bound_revenant", Spirit, Uncommon, None)]

  function OfRarity(templates: seq<Template>, rarity: Rarity): (r: seq<Template>)
    ensures forall t :: t in r <==> t in templates && t.rarity == rarity
  {
    if templates == [] then []
    else
      var front, t := templates[..|templates| - 1], templates[|templates| - 1];
      assert templates == front + [t];
      OfRarity(front, rarity) + if t.rarity == rarity then [t] else []
  }

  /** The templates a rarity is drawn from: its own, or all of them when it has none. */
  function Pool(templates: seq<Template>, rarity: Rarity): (r: seq<Template>) {
    var own := OfRarity(templates, rarity);
    if own != [] then own else templates
  }

  function WeightsAt(pool: seq<Template>, daylight: bool): (r: seq<real>)
    ensures |r| == |pool| && NonNegative(r)
    ensures forall i :: 0 <= i < |pool| ==> r[i] == SpawnWeightAt(pool[i], daylight)
  {
    seq(|pool|, i requires 0 <= i < |pool| => SpawnWeightAt(pool[i], daylight))
  }

  /** Whether t, the i-th of the pool, is what a draw r picks. Without sun information every template of
      the pool is equally likely. */
  ghost predicate Picks(pool: seq<Template>, daylight: Option<bool>, r: real, i: nat) {
    i < |pool| &&
    if daylight.None? then i == (r * |pool| as real).Floor
    else var w := WeightsAt(pool, daylight.value); IsPick(w, Roll(w, r), i)
  }

  lemma FloorInRange(r: real, n: nat)
    requires 0.0 <= r < 1.0 && n > 0
    ensures 0 <= (r * n as real).Floor < n
  {
  }

  method PickEncounterTemplateOfRarity(templates: seq<Template>, rarity: Rarity, daylight: Option<bool>, r: real)
    returns (t: Template)
    requires templates != [] && 0.0 <= r < 1.0
    ensures exists i: nat :: Picks(Pool(templates, rarity), daylight, r, i) && t == Pool(templates, rarity)[i]
  {
    hide OfRarity, SpawnWeightAt;
    var pool := Pool(templates, rarity);
    var i: nat;
    if daylight.None? {
      FloorInRange(r, |pool|);
      i := (r * |pool| as real).Floor;
    } else {
      var w := WeightsAt(pool, daylight.value);
      RollInRange(w, r);
      i := Draw(w, Roll(w, r));
      NeverFallsThrough(w, Roll(w, r), i);
    }
    assert Picks(pool, daylight, r, i);
    t := pool[i];
  }

  /** Whatever the light and the draw, the creature met has the rarity rolled, as long as the rarity has
      a template. */
  lemma PickKeepsRarity(templates: seq<Template>, rarity: Rarity, daylight: Option<bool>, r: real, i: nat)
    requires Picks(Pool(templates, rarity), daylight, r, i)
    ensures Pool(templates, rarity)[i].rarity == rarity <==> OfRarity(templates, rarity) != []
  {
  }

  /** Every creature of the pool stays possible by day and by night. */
  lemma EveryTemplatePossible(pool: seq<Template>, daylight: bool, i: nat)
    requires i < |pool|
    ensures exists r: real :: 0.0 <= r < 1.0 && Picks(pool, Some(daylight), r, i)
  {
    var w := WeightsAt(pool, daylight);
    PossibleIff(w, i);
    var r: real :| 0.0 <= r < 1.0 && IsPick(w, Roll(w, r), i);
    assert Picks(pool, Some(daylight), r, i);
  }

  lemma NoLegendary()
    ensures forall t :: t in CREATURE_TEMPLATES ==> !t.rarity.Legendary?
  {
  }

  lemma FirstOfEach()
    ensures CREATURE_TEMPLATES[0].rarity == Common && CREATURE_TEMPLATES[2].rarity == Uncommon
            && CREATURE_TEMPLATES[3].rarity == Rare && CREATURE_TEMPLATES[8].rarity == Epic
  {
  }

  lemma AllButLegendary(templates: seq<Template>, rarity: Rarity)
    requires |templates| > 8 && templates[0].rarity == Common && templates[2].rarity == Uncommon
             && templates[3].rarity == Rare && templates[8].rarity == Epic
    requires forall t :: t in templates ==> !t.rarity.Legendary?
    ensures OfRarity(templates, rarity) != [] <==> !rarity.Legendary?
  {
  }

  /** Every rarity but legendary has a template. */
  lemma RollableHaveTemplates(rarity: Rarity)
    ensures OfRarity(CREATURE_TEMPLATES, rarity) != [] <==> !rarity.Legendary?
  {
    hide OfRarity;
    FirstOfEach();
    NoLegendary();
    AllButLegendary(CREATURE_TEMPLATES, rarity);
  }

  /** Meet a creature: the rarity by level, then a template of that rarity. The rarity met is the one
      rolled, so the time of day never changes how good an encounter is. */
  method PickEncounterTemplate(level: int, daylight: Option<bool>, r: real, r': real) returns (t: Template)
    requires 0.0 <= r < 1.0 && 0.0 <= r' < 1.0
    ensures t in CREATURE_TEMPLATES && Rolls(ENCOUNTER_BANDS, level, r, t.rarity)
  {
    var rarity := RollEncounterRarity(level, r);
    EncounterRaritiesIff(level, rarity);
    assert CanRoll(ENCOUNTER_BANDS, level, rarity);
    RollableHaveTemplates(rarity);
    t := PickEncounterTemplateOfRarity(CREATURE_TEMPLATES, rarity, daylight, r');
    ghost var i: nat :| Picks(Pool(CREATURE_TEMPLATES, rarity), daylight, r', i)
        && t == Pool(CREATURE_TEMPLATES, rarity)[i];
    PickKeepsRarity(CREATURE_TEMPLATES, rarity, daylight, r', i);
    assert t in Pool(CREATURE_TEMPLATES, rarity);
  }

  /** A draw yields one rarity only: two creatures met on the same rarity draw at the same level are
      equally rare, whatever the light of either. */
  lemma RarityIgnoresDaylight(level: int, r: real, a: Rarity, b: Rarity)
    requires Rolls(ENCOUNTER_BANDS, level, r, a) && Rolls(ENCOUNTER_BANDS, level, r, b)
    ensures a == b
  {
    var k: nat, i: nat :| IsBand(ENCOUNTER_BANDS, level, k) && i < |ENCOUNTER_BANDS[k].rarities|
                          && ENCOUNTER_BANDS[k].rarities[i] == a
                          && IsPick(ENCOUNTER_BANDS[k].weights, Roll(ENCOUNTER_BANDS[k].weights, r), i);
    var k': nat, i': nat :| IsBand(ENCOUNTER_BANDS, level, k') && i' < |ENCOUNTER_BANDS[k'].rarities|
                            && ENCOUNTER_BANDS[k'].rarities[i'] == b
                            && IsPick(ENCOUNTER_BANDS[k'].weights, Roll(ENCOUNTER_BANDS[k'].weights, r), i');
    BandUnique(ENCOUNTER_BANDS, level, k, k');
    PickUnique(ENCOUNTER_BANDS[k].weights, Roll(ENCOUNTER_BANDS[k].weights, r), i, i');
  }

  lemma BandUnique(bands: seq<Band>, level: int, j: nat, k: nat)
    requires IsBand(bands, level, j) && IsBand(bands, level, k)
    ensures j == k
  {
  }
}
