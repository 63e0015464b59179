/** Laws of the player's operations: awards, levels, equipping and undoing an equip. */
module PlayerLaws {
  import opened Basics
  import opened Inventory
  import opened PlayerRules
  import L = Leveling

  // ---- awards ----

  lemma AttributesGrow(a: L.Archetype, level: int, level': int)
    requires 1 <= level <= level'
    ensures L.ComputeAttributes(a, level).str <= L.ComputeAttributes(a, level').str
    ensures L.ComputeAttributes(a, level).agi <= L.ComputeAttributes(a, level').agi
  {
  }

  /** A level-up restores no wound and opens none: the HP missing from the maximum stays the same. */
  lemma AwardKeepsMissingHp(s: PlayerState, amount: int)
    requires Inv(s)
    ensures var r := WithExperience(s, amount);
            r.stats.maxHp - r.stats.hp == s.stats.maxHp - s.stats.hp
  {
    var p := L.AddExperience(s.archetype, s.progress, amount);
    ExperienceKeepsProgress(s, amount);
    AttributesGrow(s.archetype, s.progress.level, p.level);
    hide L.Levelled, L.ExperienceForNextLevel, L.ComputeAttributes, GearSum, GearFits, DeriveAttack, DeriveDefense;
  }

  /** Two consistent players with the same progress, gear, bag and missing HP are the same player. */
  lemma SamePlayer(s: PlayerState, t: PlayerState)
    requires StatsMatch(s) && StatsMatch(t) && s.profile == t.profile && s.archetype == t.archetype
    requires s.progress == t.progress && s.gear == t.gear && s.bag == t.bag
    requires s.stats.maxHp - s.stats.hp == t.stats.maxHp - t.stats.hp
    ensures s == t
  {
  }

  lemma AwardTouches(s: PlayerState, amount: int)
    requires Inv(s)
    ensures var r := WithExperience(s, amount);
            && r.profile == s.profile && r.archetype == s.archetype && r.gear == s.gear && r.bag == s.bag
            && r.progress == L.AddExperience(s.archetype, s.progress, amount)
            && Inv(r) && r.stats.maxHp - r.stats.hp == s.stats.maxHp - s.stats.hp
  {
    OpKeepsInv(s, AddExperience(amount));
    AwardKeepsMissingHp(s, amount);
    hide L.AddExperience, Inv, GearSum;
  }

  /** Splitting an award makes no difference to the whole player, stats and HP included, exactly when the
      second part is not a loss that reaches back across a level the first part gained. */
  lemma SplitAwardIff(s: PlayerState, first: int, second: int)
    requires Inv(s)
    ensures WithExperience(WithExperience(s, first), second) == WithExperience(s, first + second) <==>
            (second >= 0 || WithExperience(s, first).progress.level == s.progress.level
             || WithExperience(s, first).progress.experience + second >= 0)
  {
    L.SplitAwardIff(s.archetype, s.progress, first, second);
    AwardTouches(s, first);
    AwardTouches(WithExperience(s, first), second);
    AwardTouches(s, first + second);
    hide L.AddExperience, WithExperience, GearSum, GearFits, ProgressMatches, StatsMatch;
    var t, u := WithExperience(WithExperience(s, first), second), WithExperience(s, first + second);
    if t.progress == u.progress {
      SamePlayer(t, u);
    }
  }

  /** Jumping to a level gives the player that earning the level would have given, healed, with no
      experience into the level. */
  lemma JumpIsEarned(s: PlayerState, amount: int)
    requires Inv(s)
    ensures var r := WithExperience(s, amount);
            AtLevel(s, r.progress.level) == Healed(r).(progress := r.progress.(experience := 0))
  {
    AwardTouches(s, amount);
    var r := WithExperience(s, amount);
    hide WithExperience, L.AddExperience;
    OpKeepsInv(s, SetLevel(r.progress.level));
    var t := AtLevel(s, r.progress.level);
    var u := Healed(r).(progress := r.progress.(experience := 0));
    JumpStats(s, r);
    SamePlayer(t, u);
  }

  lemma JumpStats(s: PlayerState, r: PlayerState)
    requires Inv(s) && Inv(r) && r.gear == s.gear && r.archetype == s.archetype
    ensures var t := AtLevel(s, r.progress.level);
            && t.progress == r.progress.(experience := 0)
            && StatsMatch(t) && t.stats.hp == t.stats.maxHp
            && StatsMatch(Healed(r).(progress := r.progress.(experience := 0)))
  {
    hide GearSum, GearFits, L.ExperienceForNextLevel, L.ComputeAttributes, DeriveAttack, DeriveDefense, DeriveMaxHp;
  }

  // ---- the upgrade badge ----

  function StatTotal(i: Item): (r: nat) { AttackOf(i) + DefenseOf(i) + MaxHpOf(i) }

  predicate WouldUpgrade(s: PlayerState, i: Item) {
    var slot := GetEquipTargetSlot(s.gear, i);
    slot in s.gear && StatTotal(i) > StatTotal(s.gear[slot])
  }

  function Power(s: PlayerState): (r: int) { s.stats.attack + s.stats.defense + s.stats.maxHp }

  /** Equipping changes the player's combined stats by exactly the difference of the two items. */
  lemma EquipPower(s: PlayerState, index: int, preferred: Option<Slot>)
    requires StatsMatch(s) && CanEquip(s, index)
    ensures var i := s.bag[index].value;
            var slot := ResolveEquipTargetSlot(s.gear, i, preferred);
            Power(Equipped(s, index, preferred)) - Power(s)
            == StatTotal(i) - (if slot in s.gear then StatTotal(s.gear[slot]) else 0)
  {
    var i := s.bag[index].value;
    var slot := ResolveEquipTargetSlot(s.gear, i, preferred);
    EverySlot(slot);
    GearSumExchange(AttackOf, s.gear, SLOTS, slot, i);
    GearSumExchange(DefenseOf, s.gear, SLOTS, slot, i);
    GearSumExchange(MaxHpOf, s.gear, SLOTS, slot, i);
    hide GearSum, DeriveAttack, DeriveDefense, DeriveMaxHp, AttackOf, DefenseOf, MaxHpOf, ReturnSlot,
      ResolveEquipTargetSlot;
  }

  /** The badge tells the truth: with the target slot occupied, equipping the item where the game puts it
      raises the combined stats exactly when the badge said so. */
  lemma BadgeIsHonest(s: PlayerState, index: int)
    requires StatsMatch(s) && CanEquip(s, index) && GetEquipTargetSlot(s.gear, s.bag[index].value) in s.gear
    ensures WouldUpgrade(s, s.bag[index].value) <==> Power(Equipped(s, index, None)) > Power(s)
  {
    EquipPower(s, index, None);
    hide Equipped, StatTotal;
  }

  // ---- undoing an equip ----

  /** The bag slot an undo gives back is the one the first swap used. */
  lemma SameReturnSlot(bag: Bag, index: nat, o: Option<Item>)
    requires index < |bag|
    ensures var cleared := bag[index := None];
            var k := FirstEmpty(cleared);
            0 <= k < |bag| && cleared[k := o][k := None] == cleared
  {
    var cleared := bag[index := None];
    assert cleared[index].None?;
    var k := FirstEmpty(cleared);
    assert cleared[k := o][k := None] == cleared;
  }

  ghost predicate IsSwap(s: PlayerState, index: int, preferred: Option<Slot>) {
    CanEquip(s, index) &&
    var slot := ResolveEquipTargetSlot(s.gear, s.bag[index].value, preferred);
    slot in s.gear && s.gear[slot].level <= s.progress.level
  }

  /** Swap an item in, then put the displaced one back where it was. */
  function Undone(s: PlayerState, index: int, preferred: Option<Slot>): (r: PlayerState)
    requires CanEquip(s, index)
  {
    var slot := ResolveEquipTargetSlot(s.gear, s.bag[index].value, preferred);
    Equipped(Equipped(s, index, preferred), ReturnSlot(s, index), Some(slot))
  }

  /** After a swap and its undo the gear is back and the item sits in the slot the undo freed. */
  lemma UndoneParts(s: PlayerState, index: int, preferred: Option<Slot>)
    requires Inv(s) && IsSwap(s, index, preferred)
    ensures var u, k := Undone(s, index, preferred), ReturnSlot(s, index);
            && u.gear == s.gear && u.bag == s.bag[index := None][k := s.bag[index]]
            && u.profile == s.profile && u.archetype == s.archetype && u.progress == s.progress
  {
    var i := s.bag[index].value;
    var slot := ResolveEquipTargetSlot(s.gear, i, preferred);
    var j, k, t := s.gear[slot], ReturnSlot(s, index), Equipped(s, index, preferred);
    var cleared := s.bag[index := None];
    assert CanEquipInSlot(j, slot);
    assert t.bag == cleared[k := Some(j)] && t.gear == s.gear[slot := i] && t.progress == s.progress;
    SameReturnSlot(s.bag, index, Some(j));
    assert ResolveEquipTargetSlot(t.gear, j, Some(slot)) == slot;
    assert t.bag[k := None] == cleared;
    assert ReturnSlot(t, k) == k;
    assert t.gear[slot := j] == s.gear;
  }

  /** The maximum HP the swap leads to. */
  function SwappedMaxHp(s: PlayerState, index: int, preferred: Option<Slot>): (r: int) {
    Equipped(s, index, preferred).stats.maxHp
  }

  lemma UndoneHp(s: PlayerState, index: int, preferred: Option<Slot>)
    requires Inv(s) && IsSwap(s, index, preferred)
    ensures var loss, u := s.stats.maxHp - SwappedMaxHp(s, index, preferred), Undone(s, index, preferred);
            u.stats == s.stats.(hp := Max(s.stats.hp, Min(s.stats.maxHp, loss)))
  {
    var t := Equipped(s, index, preferred);
    var u := Undone(s, index, preferred);
    UndoneParts(s, index, preferred);
    EquipKeepsInv(s, index, preferred);
    EquippedHp(s, index, preferred);
    var slot := ResolveEquipTargetSlot(s.gear, s.bag[index].value, preferred);
    UndoAccepted(s, index, preferred);
    EquippedHp(t, ReturnSlot(s, index), Some(slot));
    EquipKeepsInv(t, ReturnSlot(s, index), Some(slot));
    hide Equipped, GearSum, GearFits, L.ExperienceForNextLevel, L.ComputeAttributes, ResolveEquipTargetSlot, ReturnSlot;
    assert u.stats.maxHp == s.stats.maxHp && u.stats.attack == s.stats.attack && u.stats.defense == s.stats.defense;
  }

  lemma UndoAccepted(s: PlayerState, index: int, preferred: Option<Slot>)
    requires Inv(s) && IsSwap(s, index, preferred)
    ensures CanEquip(Equipped(s, index, preferred), ReturnSlot(s, index))
  {
    hide GearSum;
  }

  lemma EquippedHp(s: PlayerState, index: int, preferred: Option<Slot>)
    requires CanEquip(s, index)
    ensures var r := Equipped(s, index, preferred);
            r.stats.hp == Max(0, Min(r.stats.maxHp, s.stats.hp + (r.stats.maxHp - s.stats.maxHp)))
  {
  }

  /** What a swap costs in maximum HP: the displaced item's bonus less the new one's. */
  function SwapCost(s: PlayerState, index: int, preferred: Option<Slot>): (r: int)
    requires CanEquip(s, index)
  {
    var i := s.bag[index].value;
    var slot := ResolveEquipTargetSlot(s.gear, i, preferred);
    (if slot in s.gear then MaxHpOf(s.gear[slot]) else 0) - MaxHpOf(i)
  }

  lemma SwapCostIsLoss(s: PlayerState, index: int, preferred: Option<Slot>)
    requires StatsMatch(s) && CanEquip(s, index)
    ensures SwapCost(s, index, preferred) == s.stats.maxHp - SwappedMaxHp(s, index, preferred)
  {
    var i := s.bag[index].value;
    var slot := ResolveEquipTargetSlot(s.gear, i, preferred);
    EverySlot(slot);
    GearSumExchange(MaxHpOf, s.gear, SLOTS, slot, i);
    hide GearSum, DeriveAttack, DeriveDefense, DeriveMaxHp, MaxHpOf, ReturnSlot, ResolveEquipTargetSlot;
  }

  lemma ReturnSlotIsIndexIff(s: PlayerState, index: nat)
    requires index < |s.bag|
    ensures ReturnSlot(s, index) == index <==> forall k :: 0 <= k < index ==> s.bag[k].Some?
  {
    var cleared := s.bag[index := None];
    assert cleared[index].None?;
    assert forall k :: 0 <= k < index ==> cleared[k] == s.bag[k];
  }

  /** Swapping an item in and putting the displaced one back restores the player exactly when no earlier
      bag slot was empty and the swap costs no more HP than the player has: otherwise the item moves
      forward in the bag, or the floor at 0 turns the round trip into a heal. */
  lemma SwapUndoneIff(s: PlayerState, index: int, preferred: Option<Slot>)
    requires Inv(s) && IsSwap(s, index, preferred)
    ensures Undone(s, index, preferred) == s <==>
            (forall k :: 0 <= k < index ==> s.bag[k].Some?) && SwapCost(s, index, preferred) <= s.stats.hp
  {
    UndoneParts(s, index, preferred);
    UndoneHp(s, index, preferred);
    SwappedBelow(s, index, preferred);
    SwapCostIsLoss(s, index, preferred);
    ReturnSlotIsIndexIff(s, index);
    var u, k := Undone(s, index, preferred), ReturnSlot(s, index);
    hide Undone, ReturnSlot, SwappedMaxHp, SwapCost, StatsMatch, GearFits, ProgressMatches;
    var cleared := s.bag[index := None];
    if k == index {
      assert cleared[k := s.bag[index]] == s.bag;
    } else {
      assert u.bag[index].None? && s.bag[index].Some?;
    }
  }

  lemma SwappedBelow(s: PlayerState, index: int, preferred: Option<Slot>)
    requires Inv(s) && IsSwap(s, index, preferred)
    ensures SwappedMaxHp(s, index, preferred) > 0 && ReturnSlot(s, index) <= index
  {
    EquipKeepsInv(s, index, preferred);
    MaxHpPositive(Equipped(s, index, preferred));
    hide Equipped, GearSum, L.ExperienceForNextLevel, L.ComputeAttributes;
  }
}
