/** The player as a value: what each operation makes of it, and what any run of operations keeps. */
module PlayerRules {
  import opened Basics
  import opened Inventory
  import L = Leveling

  datatype Profile = Profile(id: string, name: string, totalDistance: real, totalEncounters: int,
                             creaturesDefeated: int, combatTurnsTaken: int)

  datatype Stats = Stats(attack: int, defense: int, hp: int, maxHp: int)

  datatype PlayerState = PlayerState(profile: Profile, archetype: L.Archetype, progress: L.Progress, stats: Stats,
                                     gear: Gear, bag: Bag)

  const MAX_INVENTORY_SIZE: nat := 50

  // ---- derived stats ----

  /** The floor of 0.8 str + 0.6 agi + 8, at least 1. */
  function DeriveAttack(a: L.Attributes): (r: int) { Max(1, (8 * a.str + 6 * a.agi + 80) / 10) }

  /** The floor of 0.5 str + 0.25 agi, at least 1. */
  function DeriveDefense(a: L.Attributes): (r: int) { Max(1, (2 * a.str + a.agi) / 4) }

  function HpConstant(a: L.Archetype): (r: int) { match a case Martial => 64 case Agile => 52 case Mage => 42 }

  function DeriveMaxHp(a: L.Archetype, at: L.Attributes): (r: int) { HpConstant(a) + 3 * at.str + at.agi }

  /** The integer formulas are the app's formulas, rounded down. */
  lemma DerivedStatsRoundDown(a: L.Attributes)
    ensures var str, agi := a.str as real, a.agi as real;
            && DeriveAttack(a) == Max(1, (str * 0.8 + agi * 0.6 + 8.0).Floor)
            && DeriveDefense(a) == Max(1, (str * 0.5 + agi * 0.25).Floor)
  {
  }

  function FullAttack(s: PlayerState): (r: int) {
    DeriveAttack(s.progress.attributes) + GearSum(AttackOf, s.gear, SLOTS)
  }

  function FullDefense(s: PlayerState): (r: int) {
    DeriveDefense(s.progress.attributes) + GearSum(DefenseOf, s.gear, SLOTS)
  }

  function FullMaxHp(s: PlayerState): (r: int) {
    DeriveMaxHp(s.archetype, s.progress.attributes) + GearSum(MaxHpOf, s.gear, SLOTS)
  }

  /** Stats recomputed from attributes and gear; current HP moves by the change of the maximum. */
  function Recalculated(s: PlayerState): (r: PlayerState) {
    var maxHp := FullMaxHp(s);
    s.(stats := Stats(FullAttack(s), FullDefense(s), Max(0, Min(maxHp, s.stats.hp + (maxHp - s.stats.maxHp))), maxHp))
  }

  // ---- operations ----

  function WithExperience(s: PlayerState, amount: int): (r: PlayerState) {
    var p := L.AddExperience(s.archetype, s.progress, amount);
    if p.level > s.progress.level then Recalculated(s.(progress := p)) else s.(progress := p)
  }

  function WithItem(s: PlayerState, i: Item): (r: PlayerState) {
    var k := FirstEmpty(s.bag);
    if k == -1 then s else s.(bag := s.bag[k := Some(i)])
  }

  function Without(s: PlayerState, index: int): (r: PlayerState) {
    if 0 <= index < |s.bag| then s.(bag := s.bag[index := None]) else s
  }

  predicate CanEquip(s: PlayerState, index: int) {
    0 <= index < |s.bag| && s.bag[index].Some? && s.bag[index].value.level <= s.progress.level
  }

  /** The bag slot that receives the item an equip displaces. */
  function ReturnSlot(s: PlayerState, index: nat): (r: int)
    requires index < |s.bag|
    ensures 0 <= r <= index
  {
    var cleared := s.bag[index := None];
    assert cleared[index].None?;
    FirstEmpty(cleared)
  }

  function Equipped(s: PlayerState, index: int, preferred: Option<Slot>): (r: PlayerState) {
    if !CanEquip(s, index) then s
    else
      var i := s.bag[index].value;
      var slot := ResolveEquipTargetSlot(s.gear, i, preferred);
      var cleared := s.bag[index := None];
      var bag := if slot in s.gear then cleared[ReturnSlot(s, index) := Some(s.gear[slot])] else cleared;
      Recalculated(s.(gear := s.gear[slot := i], bag := bag))
  }

  function Hurt(s: PlayerState, amount: int): (r: PlayerState) {
    s.(stats := s.stats.(hp := Max(0, s.stats.hp - amount)))
  }

  function Restored(s: PlayerState, amount: int): (r: PlayerState) {
    s.(stats := s.stats.(hp := Min(s.stats.maxHp, s.stats.hp + amount)))
  }

  function Healed(s: PlayerState): (r: PlayerState) { s.(stats := s.stats.(hp := s.stats.maxHp)) }

  function AtLevel(s: PlayerState, target: int): (r: PlayerState) {
    var level := Max(1, target);
    Healed(Recalculated(s.(progress := L.Progress(level, 0, L.ComputeAttributes(s.archetype, level)))))
  }

  function AsArchetype(s: PlayerState, a: L.Archetype): (r: PlayerState) {
    var attributes := L.ComputeAttributes(a, s.progress.level);
    Healed(Recalculated(s.(archetype := a, progress := s.progress.(attributes := attributes))))
  }

  datatype Op =
    | AddExperience(amount: int)
    | AddItem(item: Item)
    | RemoveItem(index: int)
    | EquipItem(index: int, preferred: Option<Slot>)
    | TakeDamage(damage: nat)
    | RestoreHp(heal: nat)
    | FullHeal
    | SetLevel(target: int)
    | SetArchetype(to: L.Archetype)

  function Apply(s: PlayerState, op: Op): (r: PlayerState) {
    match op
    case AddExperience(n) => WithExperience(s, n)
    case AddItem(i) => WithItem(s, i)
    case RemoveItem(i) => Without(s, i)
    case EquipItem(i, slot) => Equipped(s, i, slot)
    case TakeDamage(n) => Hurt(s, n)
    case RestoreHp(n) => Restored(s, n)
    case FullHeal => Healed(s)
    case SetLevel(l) => AtLevel(s, l)
    case SetArchetype(a) => AsArchetype(s, a)
  }

  function Run(s: PlayerState, ops: seq<Op>): (r: PlayerState) {
    if ops == [] then s else Apply(Run(s, ops[..|ops| - 1]), ops[|ops| - 1])
  }

  // ---- the invariant ----

  predicate StatsMatch(s: PlayerState) {
    s.stats.attack == FullAttack(s) && s.stats.defense == FullDefense(s) && s.stats.maxHp == FullMaxHp(s)
  }

  predicate GearFits(gear: Gear) { forall slot :: slot in gear ==> CanEquipInSlot(gear[slot], slot) }

  predicate ProgressMatches(s: PlayerState) {
    s.progress.level >= 1 && s.progress.attributes == L.ComputeAttributes(s.archetype, s.progress.level)
    && s.progress.experience < L.ExperienceForNextLevel(s.progress.level)
  }

  predicate Inv(s: PlayerState) {
    && |s.bag| == MAX_INVENTORY_SIZE
    && GearFits(s.gear)
    && ProgressMatches(s)
    && StatsMatch(s)
    && 0 <= s.stats.hp <= s.stats.maxHp
  }

  /** A new player of an archetype. */
  function Fresh(profile: Profile, a: L.Archetype): (r: PlayerState) {
    var at := L.ComputeAttributes(a, 1);
    var maxHp := DeriveMaxHp(a, at);
    PlayerState(profile, a, L.Progress(1, 0, at), Stats(DeriveAttack(at), DeriveDefense(at), maxHp, maxHp), map[],
                seq(MAX_INVENTORY_SIZE, _ => None))
  }

  lemma {:induction false} NoGear(f: Item -> nat, slots: seq<Slot>)
    ensures GearSum(f, map[], slots) == 0
  {
    if slots != [] { NoGear(f, slots[..|slots| - 1]); }
  }

  lemma FreshInv(profile: Profile, a: L.Archetype)
    ensures Inv(Fresh(profile, a))
  {
    NoGear(AttackOf, SLOTS);
    NoGear(DefenseOf, SLOTS);
    NoGear(MaxHpOf, SLOTS);
    L.RequirementGrows(1, 1);
  }

  lemma MaxHpPositive(s: PlayerState)
    requires ProgressMatches(s)
    ensures FullMaxHp(s) > 0
  {
    hide L.ExperienceForNextLevel, GearSum;
    var growth := L.GrowthPerLevel(s.archetype);
    assert (s.progress.level - 1) * growth.str >= 0 && (s.progress.level - 1) * growth.agi >= 0;
  }

  /** Recalculating repairs the stats of any player whose bag, gear and progress are in order. */
  lemma RecalculatedInv(s: PlayerState)
    requires |s.bag| == MAX_INVENTORY_SIZE && GearFits(s.gear) && ProgressMatches(s)
    ensures Inv(Recalculated(s))
  {
    MaxHpPositive(s);
    hide GearSum, GearFits, L.ExperienceForNextLevel, DeriveAttack, DeriveDefense, DeriveMaxHp, L.ComputeAttributes;
  }

  /** Every operation keeps 50 bag slots, gear where it fits, stats equal to attributes plus gear, HP
      within its bounds and the experience below the next requirement. */
  lemma OpKeepsInv(s: PlayerState, op: Op)
    requires Inv(s)
    ensures Inv(Apply(s, op))
  {
    hide GearSum, GearFits, L.ExperienceForNextLevel, L.Levelled, L.ComputeAttributes;
    match op
    case AddExperience(n) =>
      ExperienceKeepsProgress(s, n);
      var p := L.AddExperience(s.archetype, s.progress, n);
      if p.level > s.progress.level {
        RecalculatedInv(s.(progress := p));
      }
    case EquipItem(i, slot) =>
      EquipKeepsInv(s, i, slot);
    case SetLevel(l) =>
      L.RequirementGrows(Max(1, l), Max(1, l));
      RecalculatedInv(s.(progress := L.Progress(Max(1, l), 0, L.ComputeAttributes(s.archetype, Max(1, l)))));
    case SetArchetype(a) =>
      RecalculatedInv(s.(archetype := a,
                         progress := s.progress.(attributes := L.ComputeAttributes(a, s.progress.level))));
    case _ =>
  }

  lemma ExperienceKeepsProgress(s: PlayerState, amount: int)
    requires ProgressMatches(s)
    ensures ProgressMatches(s.(progress := L.AddExperience(s.archetype, s.progress, amount)))
    ensures L.AddExperience(s.archetype, s.progress, amount).level == s.progress.level ==>
              L.AddExperience(s.archetype, s.progress, amount).attributes == s.progress.attributes
  {
    var p := s.progress.(experience := s.progress.experience + amount);
    L.AttributesFollowLevel(s.archetype, p);
    hide L.ExperienceForNextLevel, L.Levelled, L.ComputeAttributes;
  }

  lemma EquipKeepsInv(s: PlayerState, index: int, preferred: Option<Slot>)
    requires Inv(s)
    ensures Inv(Equipped(s, index, preferred))
  {
    if CanEquip(s, index) {
      var i := s.bag[index].value;
      var slot := ResolveEquipTargetSlot(s.gear, i, preferred);
      assert GearFits(s.gear[slot := i]);
      var cleared := s.bag[index := None];
      var bag := if slot in s.gear then cleared[ReturnSlot(s, index) := Some(s.gear[slot])] else cleared;
      hide GearFits, StatsMatch, L.ExperienceForNextLevel, L.ComputeAttributes, ResolveEquipTargetSlot, Recalculated;
      RecalculatedInv(s.(gear := s.gear[slot := i], bag := bag));
    }
  }

  lemma {:induction false} RunKeepsInv(s: PlayerState, ops: seq<Op>)
    requires Inv(s)
    ensures Inv(Run(s, ops))
  {
    hide Inv, Apply;
    if ops != [] {
      RunKeepsInv(s, ops[..|ops| - 1]);
      OpKeepsInv(Run(s, ops[..|ops| - 1]), ops[|ops| - 1]);
    }
  }

  // ---- conservation of items ----

  function Items(s: PlayerState): (r: multiset<Item>) { BagItems(s.bag) + GearItems(s.gear, SLOTS) }

  /** What an operation brings in: a granted item, when the bag has room. */
  function Granted(s: PlayerState, op: Op): (r: multiset<Item>) {
    if op.AddItem? && FirstEmpty(s.bag) != -1 then multiset{op.item} else multiset{}
  }

  /** What an operation takes out: the content of the removed bag slot. */
  function Removed(s: PlayerState, op: Op): (r: multiset<Item>) {
    if op.RemoveItem? && 0 <= op.index < |s.bag| then One(s.bag[op.index]) else multiset{}
  }

  lemma EquipConservesItems(s: PlayerState, index: int, preferred: Option<Slot>)
    ensures Items(Equipped(s, index, preferred)) == Items(s)
  {
    if CanEquip(s, index) {
      var i := s.bag[index].value;
      var slot := ResolveEquipTargetSlot(s.gear, i, preferred);
      var cleared := s.bag[index := None];
      EverySlot(slot);
      GearExchange(s.gear, SLOTS, slot, i);
      BagExchange(s.bag, index, None);
      if slot in s.gear {
        BagExchange(cleared, ReturnSlot(s, index), Some(s.gear[slot]));
        ThreeWay(BagItems(s.bag), BagItems(cleared), BagItems(cleared[ReturnSlot(s, index) := Some(s.gear[slot])]),
                 GearItems(s.gear, SLOTS), GearItems(s.gear[slot := i], SLOTS), i, One(Worn(s.gear, slot)));
      } else {
        ThreeWay(BagItems(s.bag), BagItems(cleared), BagItems(cleared),
                 GearItems(s.gear, SLOTS), GearItems(s.gear[slot := i], SLOTS), i, multiset{});
      }
    }
  }

  /** The bag gives i and takes what the gear gives back. */
  lemma ThreeWay(bag: multiset<Item>, cleared: multiset<Item>, after: multiset<Item>, gear: multiset<Item>,
                 gear': multiset<Item>, i: Item, displaced: multiset<Item>)
    requires cleared + multiset{i} == bag
    requires after == cleared + displaced
    requires gear' + displaced == gear + multiset{i}
    ensures after + gear' == bag + gear
  {
    assert after + gear' == cleared + (gear' + displaced);
    assert cleared + (gear + multiset{i}) == (cleared + multiset{i}) + gear;
  }

  lemma BagOpsConserveItems(s: PlayerState, op: Op)
    requires op.AddItem? || op.RemoveItem?
    ensures Items(Apply(s, op)) + Removed(s, op) == Items(s) + Granted(s, op)
  {
    var gear := GearItems(s.gear, SLOTS);
    hide GearItems, BagItems;
    if op.AddItem? {
      var k := FirstEmpty(s.bag);
      if k != -1 {
        BagExchange(s.bag, k, Some(op.item));
        CarryOver(BagItems(s.bag), BagItems(s.bag[k := Some(op.item)]), multiset{}, multiset{op.item}, gear);
      }
    } else if 0 <= op.index < |s.bag| {
      BagExchange(s.bag, op.index, None);
      CarryOver(BagItems(s.bag), BagItems(s.bag[op.index := None]), One(s.bag[op.index]), multiset{}, gear);
    }
  }

  lemma OtherOpsKeepItems(s: PlayerState, op: Op)
    requires !op.AddItem? && !op.RemoveItem? && !op.EquipItem?
    ensures Apply(s, op).bag == s.bag && Apply(s, op).gear == s.gear
  {
  }

  /** Every operation conserves the items: only a grant brings one in, only a removal takes one out. */
  lemma OpConservesItems(s: PlayerState, op: Op)
    ensures Items(Apply(s, op)) + Removed(s, op) == Items(s) + Granted(s, op)
  {
    if op.AddItem? || op.RemoveItem? {
      BagOpsConserveItems(s, op);
    } else if op.EquipItem? {
      EquipConservesItems(s, op.index, op.preferred);
    } else {
      OtherOpsKeepItems(s, op);
      hide Apply;
    }
  }

  function GrantedBy(s: PlayerState, ops: seq<Op>): (r: multiset<Item>) {
    if ops == [] then multiset{}
    else GrantedBy(s, ops[..|ops| - 1]) + Granted(Run(s, ops[..|ops| - 1]), ops[|ops| - 1])
  }

  function RemovedBy(s: PlayerState, ops: seq<Op>): (r: multiset<Item>) {
    if ops == [] then multiset{}
    else RemovedBy(s, ops[..|ops| - 1]) + Removed(Run(s, ops[..|ops| - 1]), ops[|ops| - 1])
  }

  lemma Chain(a: multiset<Item>, b: multiset<Item>, c: multiset<Item>, r0: multiset<Item>, g0: multiset<Item>,
              r1: multiset<Item>, g1: multiset<Item>)
    requires b + r0 == a + g0 && c + r1 == b + g1
    ensures c + (r0 + r1) == a + (g0 + g1)
  {
    assert c + (r0 + r1) == (c + r1) + r0;
    assert (b + g1) + r0 == (b + r0) + g1;
    assert (a + g0) + g1 == a + (g0 + g1);
  }

  /** Over any run of operations nothing is duplicated and nothing is lost. */
  lemma {:induction false} RunConservesItems(s: PlayerState, ops: seq<Op>)
    ensures Items(Run(s, ops)) + RemovedBy(s, ops) == Items(s) + GrantedBy(s, ops)
  {
    hide Items, Apply, Granted, Removed;
    if ops != [] {
      var front, op := ops[..|ops| - 1], ops[|ops| - 1];
      RunConservesItems(s, front);
      var mid := Run(s, front);
      OpConservesItems(mid, op);
      Chain(Items(s), Items(mid), Items(Apply(mid, op)), RemovedBy(s, front), GrantedBy(s, front), Removed(mid, op),
            Granted(mid, op));
    }
  }
}
