/** Items, the bag and the worn gear: where an item goes and what the whole collection holds. */
module Inventory {
  import opened Basics

  datatype BodySlot = Weapon | Offhand | Head | Chest | Legs | Boots | Gloves

  datatype Slot = Body(part: BodySlot) | Accessory1 | Accessory2

  datatype Kind = For(part: BodySlot) | Accessory

  datatype Item = Item(id: string, kind: Kind, level: int, attack: Option<nat>, defense: Option<nat>,
                       maxHp: Option<nat>)

  type Bag = seq<Option<Item>>

  type Gear = map<Slot, Item>

  const SLOTS: seq<Slot> := [Body(Weapon), Body(Offhand), Body(Head), Body(Chest), Body(Legs), Body(Boots),
                             Body(Gloves), Accessory1, Accessory2]

  function OrZero(o: Option<nat>): (r: nat) { if o.Some? then o.value else 0 }

  function AttackOf(i: Item): (r: nat) { OrZero(i.attack) }
  function DefenseOf(i: Item): (r: nat) { OrZero(i.defense) }
  function MaxHpOf(i: Item): (r: nat) { OrZero(i.maxHp) }

  function Worn(gear: Gear, slot: Slot): (r: Option<Item>) { if slot in gear then Some(gear[slot]) else None }

  predicate CanEquipInSlot(i: Item, slot: Slot) {
    if i.kind.Accessory? then slot.Accessory1? || slot.Accessory2? else slot == Body(i.kind.part)
  }

  function GetEquipTargetSlot(gear: Gear, i: Item): (r: Slot)
    ensures CanEquipInSlot(i, r)
  {
    if i.kind.Accessory? then if Accessory1 !in gear then Accessory1 else Accessory2 else Body(i.kind.part)
  }

  /** The slot an item will occupy: an accessory goes where the player asked, anything else where it fits. */
  function ResolveEquipTargetSlot(gear: Gear, i: Item, preferred: Option<Slot>): (r: Slot)
    ensures CanEquipInSlot(i, r)
    ensures preferred.Some? && CanEquipInSlot(i, preferred.value) ==> r == preferred.value
  {
    if i.kind.Accessory? && preferred.Some? && !preferred.value.Body? then preferred.value
    else GetEquipTargetSlot(gear, i)
  }

  // ---- the bag ----

  /** Whether k is the first empty bag slot, or -1 when there is none. */
  ghost predicate IsFirstEmpty(bag: Bag, k: int) {
    if k == -1 then forall i :: 0 <= i < |bag| ==> bag[i].Some?
    else 0 <= k < |bag| && bag[k].None? && forall i :: 0 <= i < k ==> bag[i].Some?
  }

  function FirstEmpty(bag: Bag): (r: int)
    ensures IsFirstEmpty(bag, r)
  {
    if bag == [] then -1
    else
      var k := FirstEmpty(bag[..|bag| - 1]);
      if k != -1 then k else if bag[|bag| - 1].None? then |bag| - 1 else -1
  }

  method FindEmpty(bag: Bag) returns (k: int)
    ensures k == FirstEmpty(bag)
  {
    k := -1;
    var i := 0;
    while i < |bag|
      invariant 0 <= i <= |bag| && forall j :: 0 <= j < i ==> bag[j].Some?
    {
      if bag[i].None? {
        return i;
      }
      i := i + 1;
    }
  }

  // ---- what a collection holds ----

  function One(o: Option<Item>): (r: multiset<Item>) { if o.Some? then multiset{o.value} else multiset{} }

  function BagItems(bag: Bag): (r: multiset<Item>) {
    if bag == [] then multiset{} else BagItems(bag[..|bag| - 1]) + One(bag[|bag| - 1])
  }

  function GearItems(gear: Gear, slots: seq<Slot>): (r: multiset<Item>) {
    if slots == [] then multiset{} else GearItems(gear, slots[..|slots| - 1]) + One(Worn(gear, slots[|slots| - 1]))
  }

  function GearSum(f: Item -> nat, gear: Gear, slots: seq<Slot>): (r: nat) {
    if slots == [] then 0
    else GearSum(f, gear, slots[..|slots| - 1]) +
         var o := Worn(gear, slots[|slots| - 1]); if o.Some? then f(o.value) else 0
  }

  lemma Replace(rest: multiset<Item>, was: multiset<Item>, now: multiset<Item>)
    ensures (rest + now) + was == (rest + was) + now
  {
  }

  lemma CarryOver(a: multiset<Item>, a': multiset<Item>, was: multiset<Item>, now: multiset<Item>, rest: multiset<Item>)
    requires a' + was == a + now
    ensures (a' + rest) + was == (a + rest) + now
  {
    assert (a' + rest) + was == (a' + was) + rest;
    assert (a + now) + rest == (a + rest) + now;
  }

  /** Changing one bag slot exchanges exactly its content. */
  lemma {:induction false} BagExchange(bag: Bag, i: nat, o: Option<Item>)
    requires i < |bag|
    ensures BagItems(bag[i := o]) + One(bag[i]) == BagItems(bag) + One(o)
    decreases |bag|
  {
    hide One;
    var front, last := bag[..|bag| - 1], |bag| - 1;
    if i == last {
      assert bag[i := o][..last] == front;
      Replace(BagItems(front), One(bag[i]), One(o));
    } else {
      assert bag[i := o][..last] == front[i := o];
      BagExchange(front, i, o);
      CarryOver(BagItems(front), BagItems(front[i := o]), One(bag[i]), One(o), One(bag[last]));
    }
  }

  predicate Distinct(slots: seq<Slot>) { forall i, j :: 0 <= i < j < |slots| ==> slots[i] != slots[j] }

  lemma {:induction false} GearUntouched(f: Item -> nat, gear: Gear, slots: seq<Slot>, slot: Slot, i: Item)
    requires slot !in slots
    ensures GearItems(gear[slot := i], slots) == GearItems(gear, slots)
    ensures GearSum(f, gear[slot := i], slots) == GearSum(f, gear, slots)
  {
    if slots != [] {
      assert slots[|slots| - 1] in slots;
      GearUntouched(f, gear, slots[..|slots| - 1], slot, i);
    }
  }

  /** Putting an item into a slot exchanges exactly what the slot held. */
  lemma {:induction false} GearExchange(gear: Gear, slots: seq<Slot>, slot: Slot, i: Item)
    requires Distinct(slots) && slot in slots
    ensures GearItems(gear[slot := i], slots) + One(Worn(gear, slot)) == GearItems(gear, slots) + One(Some(i))
  {
    hide One;
    var gear' := gear[slot := i];
    var front, last := slots[..|slots| - 1], slots[|slots| - 1];
    assert Worn(gear', slot) == Some(i);
    if slot == last {
      GearUntouched(AttackOf, gear, front, slot, i);
      Replace(GearItems(gear, front), One(Worn(gear, slot)), One(Some(i)));
    } else {
      assert slot in front;
      GearExchange(gear, front, slot, i);
      assert Worn(gear', last) == Worn(gear, last);
      CarryOver(GearItems(gear, front), GearItems(gear', front), One(Worn(gear, slot)), One(Some(i)),
                One(Worn(gear, last)));
    }
  }

  /** And in any total over the gear. */
  lemma {:induction false} GearSumExchange(f: Item -> nat, gear: Gear, slots: seq<Slot>, slot: Slot, i: Item)
    requires Distinct(slots) && slot in slots
    ensures GearSum(f, gear[slot := i], slots) + (if slot in gear then f(gear[slot]) else 0)
            == GearSum(f, gear, slots) + f(i)
  {
    var front, last := slots[..|slots| - 1], slots[|slots| - 1];
    if slot == last {
      GearUntouched(f, gear, front, slot, i);
    } else {
      assert slot in front;
      GearSumExchange(f, gear, front, slot, i);
    }
  }

  lemma EverySlot(slot: Slot)
    ensures slot in SLOTS && Distinct(SLOTS)
  {
    match slot
    case Body(part) =>
      match part {
        case Weapon => assert SLOTS[0] == slot;
        case Offhand => assert SLOTS[1] == slot;
        case Head => assert SLOTS[2] == slot;
        case Chest => assert SLOTS[3] == slot;
        case Legs => assert SLOTS[4] == slot;
        case Boots => assert SLOTS[5] == slot;
        case Gloves => assert SLOTS[6] == slot;
      }
    case Accessory1 => assert SLOTS[7] == slot;
    case Accessory2 => assert SLOTS[8] == slot;
  }
}
