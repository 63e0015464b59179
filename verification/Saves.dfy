/** Saved players: what the constructor and the loader make of a record, and the round trip. */
module Saves {
  import opened Basics
  import opened Inventory
  import opened PlayerRules
  import L = Leveling

  datatype ProfileParams = ProfileParams(id: Option<string>, name: Option<string>, totalDistance: Option<real>,
                                         totalEncounters: Option<int>, creaturesDefeated: Option<int>,
                                         combatTurnsTaken: Option<int>)

  datatype GrowthParams = GrowthParams(level: Option<int>, experience: Option<int>, archetype: Option<L.Archetype>,
                                       str: Option<int>, agi: Option<int>, intellect: Option<int>)

  datatype StatParams = StatParams(attack: Option<int>, defense: Option<int>, hp: Option<int>, maxHp: Option<int>)

  /** A record to build a player from; every field may be missing. The gear travels beside it. */
  datatype Params = Params(profile: ProfileParams, growth: GrowthParams, stats: StatParams, inventory: Option<Bag>)

  function Or<T>(o: Option<T>, default: T): (r: T) { if o.Some? then o.value else default }

  /** An inventory padded or cut to the fixed size. */
  function Normalized(bag: Bag): (r: Bag) {
    seq(MAX_INVENTORY_SIZE, i requires 0 <= i < MAX_INVENTORY_SIZE => if i < |bag| then bag[i] else None)
  }

  method Normalize(bag: Bag) returns (r: Bag)
    ensures r == Normalized(bag)
  {
    if |bag| == MAX_INVENTORY_SIZE {
      return bag;
    }
    r := bag;
    while |r| < MAX_INVENTORY_SIZE
      invariant |bag| <= |r| && (|r| <= MAX_INVENTORY_SIZE || r == bag)
      invariant forall i :: 0 <= i < |r| ==> r[i] == if i < |bag| then bag[i] else None
    {
      r := r + [None];
    }
    r := r[..MAX_INVENTORY_SIZE];
  }

  /** The player the constructor builds. */
  function Constructed(p: Params, gear: Option<Gear>): (s: PlayerState)
    ensures |s.bag| == MAX_INVENTORY_SIZE && s.stats.hp <= s.stats.maxHp
  {
    var archetype, level := Or(p.growth.archetype, L.Martial), Or(p.growth.level, 1);
    var computed := L.ComputeAttributes(archetype, level);
    var at := L.Attributes(Or(p.growth.str, computed.str), Or(p.growth.agi, computed.agi),
                           Or(p.growth.intellect, computed.intellect));
    var maxHp := Or(p.stats.maxHp, DeriveMaxHp(archetype, at));
    var hp := Or(p.stats.hp, maxHp);
    PlayerState(
      Profile(Or(p.profile.id, "player1"), Or(p.profile.name, "Adventurer"), Or(p.profile.totalDistance, 0.0),
              Or(p.profile.totalEncounters, 0), Or(p.profile.creaturesDefeated, 0), Or(p.profile.combatTurnsTaken, 0)),
      archetype, L.Progress(level, Or(p.growth.experience, 0), at),
      Stats(Or(p.stats.attack, DeriveAttack(at)), Or(p.stats.defense, DeriveDefense(at)),
            if hp > maxHp then maxHp else hp, maxHp),
      Or(gear, map[]), Normalized(Or(p.inventory, [])))
  }

  /** The record a player is saved as. */
  function Saved(s: PlayerState): (p: Params) {
    Params(ProfileParams(Some(s.profile.id), Some(s.profile.name), Some(s.profile.totalDistance),
                         Some(s.profile.totalEncounters),
                         Some(s.profile.creaturesDefeated), Some(s.profile.combatTurnsTaken)),
           GrowthParams(Some(s.progress.level), Some(s.progress.experience), Some(s.archetype),
                        Some(s.progress.attributes.str),
                        Some(s.progress.attributes.agi), Some(s.progress.attributes.intellect)),
           StatParams(Some(s.stats.attack), Some(s.stats.defense), Some(s.stats.hp), Some(s.stats.maxHp)),
           Some(s.bag))
  }

  predicate LacksAttributes(p: Params) { p.growth.str.None? || p.growth.agi.None? || p.growth.intellect.None? }

  /** A record migrated by the loader: no archetype means Martial, and if any attribute is missing all
      three are recomputed from the level. */
  function Migrated(p: Params): (q: Params)
    requires p.growth.level.Some?
  {
    var archetype := Or(p.growth.archetype, L.Martial);
    var at := L.ComputeAttributes(archetype, p.growth.level.value);
    var g := p.growth.(archetype := Some(archetype));
    p.(growth := if LacksAttributes(p)
       then g.(str := Some(at.str), agi := Some(at.agi), intellect := Some(at.intellect))
       else g)
  }

  function Loaded(p: Params, gear: Option<Gear>): (s: PlayerState)
    requires p.growth.level.Some?
  {
    Constructed(Migrated(p), gear)
  }

  /** The bag has its 50 slots and the HP is within the maximum. */
  predicate Restorable(s: PlayerState) { |s.bag| == MAX_INVENTORY_SIZE && s.stats.hp <= s.stats.maxHp }

  /** Saving and loading gives the same player back exactly when it is restorable. */
  lemma RoundTripIff(s: PlayerState)
    ensures Loaded(Saved(s), Some(s.gear)) == s <==> Restorable(s)
  {
  }

  /** So every player any run of operations can produce survives a save and a load. */
  lemma RunsRoundTrip(profile: Profile, a: L.Archetype, ops: seq<Op>)
    ensures var s := Run(Fresh(profile, a), ops);
            Loaded(Saved(s), Some(s.gear)) == s
  {
    FreshInv(profile, a);
    RunKeepsInv(Fresh(profile, a), ops);
    RoundTripIff(Run(Fresh(profile, a), ops));
  }

  /** The stat a record carries, or the one derived without gear when it carries none. */
  function AttackIn(p: Params, at: L.Attributes): (r: int) { Or(p.stats.attack, DeriveAttack(at)) }
  function DefenseIn(p: Params, at: L.Attributes): (r: int) { Or(p.stats.defense, DeriveDefense(at)) }
  function MaxHpIn(p: Params, a: L.Archetype, at: L.Attributes): (r: int) { Or(p.stats.maxHp, DeriveMaxHp(a, at)) }

  /** A record with attributes missing loads as a consistent player exactly when the stats it carries, or
      the gearless ones that stand in for missing ones, are the derived stats plus the gear's bonuses and
      its HP is not negative; in any case the next recalculation makes it consistent. */
  lemma LegacyLoadsIff(p: Params, gear: Gear)
    requires p.growth.level.Some? && p.growth.level.value >= 1 && LacksAttributes(p)
    requires GearFits(gear)
    requires L.ExperienceForNextLevel(p.growth.level.value) > Or(p.growth.experience, 0)
    ensures var a := Or(p.growth.archetype, L.Martial);
            var at := L.ComputeAttributes(a, p.growth.level.value);
            Inv(Loaded(p, Some(gear))) <==>
            && AttackIn(p, at) == DeriveAttack(at) + GearSum(AttackOf, gear, SLOTS)
            && DefenseIn(p, at) == DeriveDefense(at) + GearSum(DefenseOf, gear, SLOTS)
            && MaxHpIn(p, a, at) == DeriveMaxHp(a, at) + GearSum(MaxHpOf, gear, SLOTS)
            && Or(p.stats.hp, 0) >= 0
    ensures Inv(Recalculated(Loaded(p, Some(gear))))
  {
    var s := Loaded(p, Some(gear));
    RecalculatedInv(s);
    MaxHpPositive(s);
    hide L.ExperienceForNextLevel, GearFits, L.ComputeAttributes, GearSum, DeriveAttack, DeriveDefense, DeriveMaxHp,
      Normalized;
  }

  /** Loading and constructing agree exactly when the record lacks no attribute, or all the present ones
      are the computed ones. */
  lemma LoadedIsConstructedIff(p: Params, gear: Option<Gear>)
    requires p.growth.level.Some?
    ensures Loaded(p, gear).progress == Constructed(p, gear).progress <==>
            (LacksAttributes(p) ==>
               var at := L.ComputeAttributes(Or(p.growth.archetype, L.Martial), p.growth.level.value);
               && Or(p.growth.str, at.str) == at.str
               && Or(p.growth.agi, at.agi) == at.agi
               && Or(p.growth.intellect, at.intellect) == at.intellect)
  {
  }
}
