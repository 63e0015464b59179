/** The player object: fields updated in place, with the worn gear in a shared object. */
module Player {
  import opened Basics
  import opened Inventory
  import opened PlayerRules
  import opened Saves
  import L = Leveling

  class Equipment {
    var worn: Gear

    constructor ()
      ensures worn == map[]
    {
      worn := map[];
    }
  }

  class Player {
    var id: string
    var name: string
    var level: int
    var experience: int
    var attack: int
    var defense: int
    var hp: int
    var maxHp: int
    var totalDistance: real
    var totalEncounters: int
    var creaturesDefeated: int
    var combatTurnsTaken: int
    var equipment: Equipment
    var inventory: Bag
    var archetype: L.Archetype
    var str: int
    var agi: int
    var intellect: int

    function Progress(): (r: L.Progress)
      reads this
    {
      L.Progress(level, experience, L.Attributes(str, agi, intellect))
    }

    /** The player as a value. */
    function State(): (r: PlayerState)
      reads this, equipment
    {
      PlayerState(Profile(id, name, totalDistance, totalEncounters, creaturesDefeated, combatTurnsTaken),
                  archetype, Progress(), Stats(attack, defense, hp, maxHp), equipment.worn, inventory)
    }

    constructor (p: Params, e: Equipment?)
      ensures State() == Constructed(p, if e == null then None else Some(e.worn))
      ensures if e == null then fresh(equipment) else equipment == e
    {
      id := Or(p.profile.id, "player1");
      name := Or(p.profile.name, "Adventurer");
      level := Or(p.growth.level, 1);
      experience := Or(p.growth.experience, 0);
      archetype := Or(p.growth.archetype, L.Martial);
      var computed := L.ComputeAttributes(Or(p.growth.archetype, L.Martial), Or(p.growth.level, 1));
      var at := L.Attributes(Or(p.growth.str, computed.str), Or(p.growth.agi, computed.agi),
                             Or(p.growth.intellect, computed.intellect));
      str, agi, intellect := at.str, at.agi, at.intellect;
      attack := Or(p.stats.attack, DeriveAttack(at));
      defense := Or(p.stats.defense, DeriveDefense(at));
      var most := Or(p.stats.maxHp, DeriveMaxHp(Or(p.growth.archetype, L.Martial), at));
      var now := Or(p.stats.hp, most);
      maxHp := most;
      hp := if now > most then most else now;
      totalDistance := Or(p.profile.totalDistance, 0.0);
      totalEncounters := Or(p.profile.totalEncounters, 0);
      creaturesDefeated := Or(p.profile.creaturesDefeated, 0);
      combatTurnsTaken := Or(p.profile.combatTurnsTaken, 0);
      var bag := Normalize(Or(p.inventory, []));
      inventory := bag;
      if e != null {
        equipment := e;
      } else {
        equipment := new Equipment();
      }
    }

    method ToJSON() returns (p: Params, e: Equipment)
      ensures p == Saved(State()) && e == equipment
    {
      p := Params(ProfileParams(Some(id), Some(name), Some(totalDistance), Some(totalEncounters),
                                Some(creaturesDefeated), Some(combatTurnsTaken)),
                  GrowthParams(Some(level), Some(experience), Some(archetype), Some(str), Some(agi), Some(intellect)),
                  StatParams(Some(attack), Some(defense), Some(hp), Some(maxHp)), Some(inventory));
      e := equipment;
    }

    static method FromJSON(p: Params, e: Equipment?) returns (r: Player)
      requires p.growth.level.Some?
      ensures fresh(r) && r.State() == Loaded(p, if e == null then None else Some(e.worn))
    {
      r := new Player(Migrated(p), e);
    }

    /** A copy made the way every hook makes one: a new player from the old one's record. */
    method Clone() returns (q: Player)
      requires Restorable(State())
      ensures fresh(q) && q.State() == State() && q.equipment == equipment
    {
      var p, e := ToJSON();
      q := new Player(p, e);
      RoundTripIff(State());
    }

    /** Recompute the combat stats from the attributes and the worn gear. */
    method RecalculateStats()
      modifies this`attack, this`defense, this`maxHp, this`hp
      ensures State() == Recalculated(old(State()))
    {
      var at := L.Attributes(str, agi, intellect);
      var newAttack, newDefense, newMaxHp := DeriveAttack(at), DeriveDefense(at), DeriveMaxHp(archetype, at);
      for i := 0 to |SLOTS|
        invariant newAttack == DeriveAttack(at) + GearSum(AttackOf, equipment.worn, SLOTS[..i])
        invariant newDefense == DeriveDefense(at) + GearSum(DefenseOf, equipment.worn, SLOTS[..i])
        invariant newMaxHp == DeriveMaxHp(archetype, at) + GearSum(MaxHpOf, equipment.worn, SLOTS[..i])
      {
        assert SLOTS[..i + 1][..i] == SLOTS[..i];
        var worn := Worn(equipment.worn, SLOTS[i]);
        if worn.Some? {
          newAttack := newAttack + if worn.value.attack.Some? then worn.value.attack.value else 0;
          newDefense := newDefense + if worn.value.defense.Some? then worn.value.defense.value else 0;
          newMaxHp := newMaxHp + if worn.value.maxHp.Some? then worn.value.maxHp.value else 0;
        }
      }
      assert SLOTS[..|SLOTS|] == SLOTS;
      var change := newMaxHp - maxHp;
      attack, defense, maxHp := newAttack, newDefense, newMaxHp;
      hp := Max(0, Min(maxHp, hp + change));
    }

    /** The level-up loop. */
    method GainLevels() returns (gained: nat)
      modifies this`level, this`experience, this`str, this`agi, this`intellect
      ensures Progress() == old(L.Levelled(archetype, Progress()))
      ensures gained == level - old(level)
    {
      gained := 0;
      ghost var start := Progress();
      var growth := L.GrowthPerLevel(archetype);
      hide L.Levelled, L.ExperienceForNextLevel;
      while experience >= L.ExperienceForNextLevel(level)
        invariant L.Levelled(archetype, Progress()) == L.Levelled(archetype, start)
        invariant gained == level - start.level
        decreases experience
      {
        L.RequirementGrows(level, level);
        L.LevelledStep(archetype, Progress());
        ghost var next := L.Grown(archetype, Progress());
        experience := experience - L.ExperienceForNextLevel(level);
        level := level + 1;
        gained := gained + 1;
        str, agi, intellect := str + growth.str, agi + growth.agi, intellect + growth.intellect;
        assert Progress() == next;
      }
      L.LevelledStep(archetype, Progress());
    }

    method AddExperience(amount: int) returns (gained: nat)
      modifies this
      ensures equipment == old(equipment) && State() == WithExperience(old(State()), amount)
      ensures gained == level - old(level)
    {
      hide L.Levelled, L.ExperienceForNextLevel, Recalculated;
      experience := experience + amount;
      gained := GainLevels();
      ghost var mid := State();
      assert mid == old(State()).(progress := L.AddExperience(archetype, old(Progress()), amount));
      hide State;
      if gained > 0 {
        RecalculateStats();
      }
    }

    method AddItemToInventory(i: Item) returns (k: int)
      modifies this`inventory
      ensures State() == WithItem(old(State()), i) && k == FirstEmpty(old(inventory))
    {
      k := FindEmpty(inventory);
      if k != -1 {
        inventory := inventory[k := Some(i)];
      }
    }

    method RemoveItemFromInventory(index: int) returns (r: Option<Item>)
      modifies this`inventory
      ensures State() == Without(old(State()), index)
      ensures One(r) == Removed(old(State()), RemoveItem(index))
    {
      if index < 0 || index >= |inventory| {
        return None;
      }
      r := inventory[index];
      inventory := inventory[index := None];
    }

    /** Move a bag item onto the body; the roll-back for a full bag is never taken, since the item itself
        has just left a slot empty. */
    method EquipItem(index: int, preferred: Option<Slot>) returns (ok: bool)
      modifies this, equipment
      ensures equipment == old(equipment) && State() == Equipped(old(State()), index, preferred)
      ensures ok == CanEquip(old(State()), index)
    {
      if index < 0 || index >= |inventory| || inventory[index].None? {
        return false;
      }
      var i := inventory[index].value;
      if i.level > level {
        return false;
      }
      var slot := ResolveEquipTargetSlot(equipment.worn, i, preferred);
      inventory := inventory[index := None];
      if slot in equipment.worn {
        var k := FindEmpty(inventory);
        assert inventory[index].None?;
        if k != -1 {
          inventory := inventory[k := Some(equipment.worn[slot])];
        } else {
          assert false;
        }
      }
      equipment.worn := equipment.worn[slot := i];
      hide GearSum;
      RecalculateStats();
      return true;
    }

    method TakeDamage(amount: int)
      modifies this`hp
      ensures State() == Hurt(old(State()), amount)
    {
      hp := Max(0, hp - amount);
    }

    method RestoreHp(amount: int)
      modifies this`hp
      ensures State() == Restored(old(State()), amount)
    {
      hp := Min(maxHp, hp + amount);
    }

    method FullHeal()
      modifies this`hp
      ensures State() == Healed(old(State()))
    {
      hp := maxHp;
    }

    method SetLevel(target: int)
      modifies this
      ensures equipment == old(equipment) && State() == AtLevel(old(State()), target)
    {
      hide L.ComputeAttributes, Recalculated;
      var to := Max(1, target);
      var at := L.ComputeAttributes(archetype, to);
      level, experience, str, agi, intellect := to, 0, at.str, at.agi, at.intellect;
      ghost var mid := State();
      assert mid == old(State()).(progress := L.Progress(to, 0, at));
      assert AtLevel(old(State()), target) == Healed(Recalculated(mid));
      hide State, Healed;
      RecalculateStats();
      FullHeal();
    }

    method SetArchetype(to: L.Archetype)
      modifies this
      ensures equipment == old(equipment) && State() == AsArchetype(old(State()), to)
    {
      hide L.ComputeAttributes, Recalculated;
      var at := L.ComputeAttributes(to, level);
      archetype, str, agi, intellect := to, at.str, at.agi, at.intellect;
      ghost var mid := State();
      assert mid == old(State()).(archetype := to, progress := old(State()).progress.(attributes := at));
      assert AsArchetype(old(State()), to) == Healed(Recalculated(mid));
      hide State, Healed;
      RecalculateStats();
      FullHeal();
    }
  }

  // ---- copies share their gear ----

  /** A copy left behind by an equip on the other copy: its own fields, the other's gear. */
  function LeftBehind(s: PlayerState, index: int, preferred: Option<Slot>): (r: PlayerState) {
    s.(gear := Equipped(s, index, preferred).gear)
  }

  /** A copy keeps its items, through an equip on the copy it shares the gear object with, exactly when
      the equip is refused or swaps two equal items; otherwise the new item is in its bag and on its body,
      and the displaced one is gone. */
  lemma CopyKeepsItemsIff(s: PlayerState, index: int, preferred: Option<Slot>)
    ensures Items(LeftBehind(s, index, preferred)) == Items(s) <==>
            (CanEquip(s, index) ==>
               Worn(s.gear, ResolveEquipTargetSlot(s.gear, s.bag[index].value, preferred)) == s.bag[index])
    ensures CanEquip(s, index) ==>
              Items(LeftBehind(s, index, preferred))
              + One(Worn(s.gear, ResolveEquipTargetSlot(s.gear, s.bag[index].value, preferred)))
              == Items(s) + One(s.bag[index])
  {
    if CanEquip(s, index) {
      var i := s.bag[index].value;
      var slot := ResolveEquipTargetSlot(s.gear, i, preferred);
      EverySlot(slot);
      GearExchange(s.gear, SLOTS, slot, i);
      var bag, gear, gear' := BagItems(s.bag), GearItems(s.gear, SLOTS), GearItems(s.gear[slot := i], SLOTS);
      hide BagItems, GearItems, GearSum, ResolveEquipTargetSlot;
      assert (bag + gear') + One(Worn(s.gear, slot)) == bag + (gear' + One(Worn(s.gear, slot)));
      assert bag + (gear + One(Some(i))) == (bag + gear) + One(Some(i));
      SameWithinIff(bag + gear, bag + gear', Worn(s.gear, slot), i);
    }
  }

  lemma SameWithinIff(a: multiset<Item>, a': multiset<Item>, was: Option<Item>, i: Item)
    requires a' + One(was) == a + One(Some(i))
    ensures a' == a <==> was == Some(i)
  {
    assert (a' + One(was))[i] == a'[i] + One(was)[i];
    assert (a + One(Some(i)))[i] == a[i] + 1;
    assert a' == (a' + One(was)) - One(was);
    assert a == (a + One(Some(i))) - One(Some(i));
  }

  /** Equipping on one of two copies rewrites the other's gear and nothing else of it. */
  method EquipOnCopy(p: Player, index: int, preferred: Option<Slot>) returns (q: Player, ok: bool)
    requires Restorable(p.State())
    modifies p.equipment
    ensures fresh(q) && q.State() == Equipped(old(p.State()), index, preferred)
    ensures p.State() == LeftBehind(old(p.State()), index, preferred)
  {
    q := p.Clone();
    ok := q.EquipItem(index, preferred);
  }
}
