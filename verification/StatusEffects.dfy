/** Status effects over whole fights: damage over time, stat modifiers and the caster's resource. */
module StatusEffects {
  import opened Basics
  import opened Damage
  import opened Leveling

  datatype Kind = Dot | Buff | Debuff

  datatype StatModifiers = StatModifiers(attack: Option<int>, defense: Option<int>)

  datatype StatusEffect = StatusEffect(id: string, kind: Kind, remainingTicks: int, damagePerTick: Option<int>,
                                       damageType: Option<DamageType>, statModifiers: Option<StatModifiers>)

  datatype DotEffect = DotEffect(damage: int, damageType: Option<DamageType>, sourceId: string)

  // ---- one tick ----

  /** Sum of a per-effect amount over an effect list. */
  function Total(f: StatusEffect -> int, es: seq<StatusEffect>): (r: int) {
    if es == [] then 0 else Total(f, es[..|es| - 1]) + f(es[|es| - 1])
  }

  function DotOf(e: StatusEffect): (r: int) {
    if e.kind.Dot? && e.damagePerTick.Some? then e.damagePerTick.value else 0
  }

  /** What a damaging effect deals per tick against a creature's resistances. */
  function ResistedDotOf(resistances: DamageType -> real, e: StatusEffect): (r: int) {
    if e.kind.Dot? && e.damagePerTick.Some?
    then ApplyResistance(e.damagePerTick.value, if e.damageType.Some? then resistances(e.damageType.value) else 0.0)
    else 0
  }

  function AttackMod(e: StatusEffect): (r: int) {
    if e.statModifiers.Some? && e.statModifiers.value.attack.Some? then e.statModifiers.value.attack.value else 0
  }

  function DefenseMod(e: StatusEffect): (r: int) {
    if e.statModifiers.Some? && e.statModifiers.value.defense.Some? then e.statModifiers.value.defense.value else 0
  }

  /** The damaging effects of one tick, in list order. */
  function DotEffects(es: seq<StatusEffect>): (r: seq<DotEffect>) {
    if es == [] then []
    else
      var e := es[|es| - 1];
      DotEffects(es[..|es| - 1]) +
      if e.kind.Dot? && e.damagePerTick.Some? then [DotEffect(e.damagePerTick.value, e.damageType, e.id)] else []
  }

  /** What is left of one effect after k ticks: nothing once its lifetime is over. */
  function Left(e: StatusEffect, k: nat): (r: seq<StatusEffect>) {
    if k < Lifetime(e) then [e.(remainingTicks := e.remainingTicks - k)] else []
  }

  /** How many ticks an effect lives: its count, and one tick even for a count below 1. */
  function Lifetime(e: StatusEffect): (r: nat)
    ensures r >= 1
  {
    Max(1, e.remainingTicks)
  }

  /** The effects left after one tick. */
  function Ticked(es: seq<StatusEffect>): (r: seq<StatusEffect>) {
    if es == [] then []
    else
      var e := es[|es| - 1];
      Ticked(es[..|es| - 1]) + if e.remainingTicks > 1 then [e.(remainingTicks := e.remainingTicks - 1)] else []
  }

  /** Advance one turn's worth of status effects. */
  method TickStatusEffects(es: seq<StatusEffect>)
    returns (dotDamage: int, dotEffects: seq<DotEffect>, remaining: seq<StatusEffect>)
    ensures dotDamage == Total(DotOf, es) && dotEffects == DotEffects(es) && remaining == Ticked(es)
  {
    dotDamage, dotEffects, remaining := 0, [], [];
    for i := 0 to |es|
      invariant dotDamage == Total(DotOf, es[..i]) && dotEffects == DotEffects(es[..i]) && remaining == Ticked(es[..i])
    {
      var e := es[i];
      assert es[..i + 1][..i] == es[..i];
      if e.kind == Dot && e.damagePerTick.Some? {
        dotDamage := dotDamage + e.damagePerTick.value;
        dotEffects := dotEffects + [DotEffect(e.damagePerTick.value, e.damageType, e.id)];
      }
      if e.remainingTicks > 1 {
        remaining := remaining + [e.(remainingTicks := e.remainingTicks - 1)];
      }
    }
    assert es[..|es|] == es;
  }

  /** The creature's tick: every damaging effect goes through its own resistance. */
  method ResistedTick(es: seq<StatusEffect>, resistances: DamageType -> real)
    returns (resistedDot: int, remaining: seq<StatusEffect>)
    ensures resistedDot == Total(e => ResistedDotOf(resistances, e), es) && remaining == Ticked(es)
  {
    var _, dotEffects, left := TickStatusEffects(es);
    remaining := left;
    resistedDot := 0;
    for i := 0 to |dotEffects|
      invariant resistedDot == Resisted(resistances, dotEffects[..i])
    {
      var d := dotEffects[i];
      assert dotEffects[..i + 1][..i] == dotEffects[..i];
      resistedDot := resistedDot
                     + ApplyResistance(d.damage, if d.damageType.Some? then resistances(d.damageType.value) else 0.0);
    }
    assert dotEffects[..|dotEffects|] == dotEffects;
    ResistedIsTotal(resistances, es);
  }

  function Resisted(resistances: DamageType -> real, ds: seq<DotEffect>): (r: int) {
    if ds == [] then 0
    else
      var d := ds[|ds| - 1];
      Resisted(resistances, ds[..|ds| - 1]) +
      ApplyResistance(d.damage, if d.damageType.Some? then resistances(d.damageType.value) else 0.0)
  }

  lemma {:induction false} ResistedIsTotal(resistances: DamageType -> real, es: seq<StatusEffect>)
    ensures Resisted(resistances, DotEffects(es)) == Total(e => ResistedDotOf(resistances, e), es)
  {
    if es != [] {
      var front, e := es[..|es| - 1], es[|es| - 1];
      ResistedIsTotal(resistances, front);
      if e.kind.Dot? && e.damagePerTick.Some? {
        assert DotEffects(es)[..|DotEffects(es)| - 1] == DotEffects(front);
      } else {
        assert DotEffects(es) == DotEffects(front);
      }
    }
  }

  /** Attack and defense adjusted by the active effects, floored at 1 and 0. */
  method ComputeEffectiveStats(baseAttack: int, baseDefense: int, es: seq<StatusEffect>)
    returns (attack: int, defense: int)
    ensures attack == Max(1, baseAttack + Total(AttackMod, es))
    ensures defense == Max(0, baseDefense + Total(DefenseMod, es))
  {
    attack, defense := baseAttack, baseDefense;
    for i := 0 to |es|
      invariant attack == baseAttack + Total(AttackMod, es[..i]) && defense == baseDefense + Total(DefenseMod, es[..i])
    {
      assert es[..i + 1][..i] == es[..i];
      if es[i].statModifiers.Some? {
        var m := es[i].statModifiers.value;
        attack := attack + if m.attack.Some? then m.attack.value else 0;
        defense := defense + if m.defense.Some? then m.defense.value else 0;
      }
    }
    assert es[..|es|] == es;
    attack, defense := Max(1, attack), Max(0, defense);
  }

  // ---- many ticks of one list ----

  function After(es: seq<StatusEffect>, k: nat): (r: seq<StatusEffect>) {
    if k == 0 then es else Ticked(After(es, k - 1))
  }

  /** The closed form of k ticks: each effect aged by k, gone once its lifetime is over. */
  function Aged(es: seq<StatusEffect>, k: nat): (r: seq<StatusEffect>) {
    if es == [] then [] else Aged(es[..|es| - 1], k) + Left(es[|es| - 1], k)
  }

  lemma {:induction false} TickedAppend(a: seq<StatusEffect>, b: seq<StatusEffect>)
    ensures Ticked(a + b) == Ticked(a) + Ticked(b)
    decreases |b|
  {
    if b == [] {
      assert a + b == a;
    } else {
      assert (a + b)[..|a + b| - 1] == a + b[..|b| - 1];
      TickedAppend(a, b[..|b| - 1]);
    }
  }

  lemma {:induction false} TotalAppend(f: StatusEffect -> int, a: seq<StatusEffect>, b: seq<StatusEffect>)
    ensures Total(f, a + b) == Total(f, a) + Total(f, b)
    decreases |b|
  {
    if b == [] {
      assert a + b == a;
    } else {
      assert (a + b)[..|a + b| - 1] == a + b[..|b| - 1];
      TotalAppend(f, a, b[..|b| - 1]);
    }
  }

  lemma TickedLeft(e: StatusEffect, k: nat)
    ensures Ticked(Left(e, k)) == Left(e, k + 1)
  {
  }

  lemma {:induction false} TickedAged(es: seq<StatusEffect>, k: nat)
    ensures Ticked(Aged(es, k)) == Aged(es, k + 1)
  {
    if es != [] {
      var e, front := es[|es| - 1], es[..|es| - 1];
      TickedAged(front, k);
      TickedAppend(Aged(front, k), Left(e, k));
      hide Left;
      TickedLeft(e, k);
    }
  }

  lemma {:induction false} AgedZero(es: seq<StatusEffect>)
    ensures Aged(es, 0) == es
  {
    if es != [] {
      AgedZero(es[..|es| - 1]);
      assert Left(es[|es| - 1], 0) == [es[|es| - 1]];
    }
  }

  /** k ticks leave exactly the effects with more than k ticks to live, each aged by k. */
  lemma {:induction false} AfterIsAged(es: seq<StatusEffect>, k: nat)
    ensures After(es, k) == Aged(es, k)
  {
    if k == 0 {
      AgedZero(es);
    } else {
      AfterIsAged(es, k - 1);
      hide Aged;
      TickedAged(es, k - 1);
    }
  }

  /** The list is empty exactly from the longest lifetime on. */
  lemma {:induction false} EmptyAfterLongestIff(es: seq<StatusEffect>, k: nat)
    ensures After(es, k) == [] <==> forall e :: e in es ==> Lifetime(e) <= k
  {
    AfterIsAged(es, k);
    hide After;
    AgedEmptyIff(es, k);
  }

  lemma {:induction false} AgedEmptyIff(es: seq<StatusEffect>, k: nat)
    ensures Aged(es, k) == [] <==> forall e :: e in es ==> Lifetime(e) <= k
  {
    if es != [] {
      AgedEmptyIff(es[..|es| - 1], k);
      assert es == es[..|es| - 1] + [es[|es| - 1]];
    }
  }

  /** An effect lives exactly its labelled number of ticks if and only if the label is at least 1; a label
      of 0 or below still gets one tick. */
  lemma LabelledDurationIff(e: StatusEffect)
    ensures (forall k: nat :: After([e], k) == [] <==> e.remainingTicks <= k) <==> e.remainingTicks >= 1
  {
    forall k: nat ensures After([e], k) == [] <==> Lifetime(e) <= k {
      EmptyAfterLongestIff([e], k);
      assert e in [e];
    }
    if e.remainingTicks < 1 {
      assert After([e], 0) != [];
    }
  }

  // ---- whole fights ----

  /** An amount that does not depend on how long the effect still lives. */
  ghost predicate Ageless(f: StatusEffect -> int) {
    forall e: StatusEffect, n: int :: f(e.(remainingTicks := n)) == f(e)
  }

  lemma AmountsAreAgeless(resistances: DamageType -> real)
    ensures Ageless(DotOf) && Ageless(AttackMod) && Ageless(DefenseMod)
    ensures Ageless(e => ResistedDotOf(resistances, e))
  {
  }

  /** The effects on a combatant after a fight's turns: each turn ticks the list and then appends what
      the turn applied. */
  function Active(turns: seq<seq<StatusEffect>>): (r: seq<StatusEffect>) {
    if turns == [] then [] else Ticked(Active(turns[..|turns| - 1])) + turns[|turns| - 1]
  }

  /** The amount f ticked off over all the turns. */
  function Dealt(f: StatusEffect -> int, turns: seq<seq<StatusEffect>>): (r: int) {
    if turns == [] then 0
    else Dealt(f, turns[..|turns| - 1]) + Total(f, Active(turns[..|turns| - 1]))
  }

  /** Closed form of the active list, k ticks after the last turn. */
  function Remnant(turns: seq<seq<StatusEffect>>, k: nat): (r: seq<StatusEffect>) {
    if turns == [] then [] else Remnant(turns[..|turns| - 1], k + 1) + Aged(turns[|turns| - 1], k)
  }

  lemma {:induction false} TickedRemnant(turns: seq<seq<StatusEffect>>, k: nat)
    ensures Ticked(Remnant(turns, k)) == Remnant(turns, k + 1)
    decreases |turns|
  {
    if turns != [] {
      var front, last := turns[..|turns| - 1], turns[|turns| - 1];
      TickedRemnant(front, k + 1);
      TickedAppend(Remnant(front, k + 1), Aged(last, k));
      hide Aged;
      TickedAged(last, k);
    }
  }

  /** Over any fight the active list is every applied effect still within its lifetime, aged by the turns
      since it was applied. */
  lemma {:induction false} ActiveIsRemnant(turns: seq<seq<StatusEffect>>)
    ensures Active(turns) == Remnant(turns, 0)
    decreases |turns|
  {
    if turns != [] {
      var front, last := turns[..|turns| - 1], turns[|turns| - 1];
      ActiveIsRemnant(front);
      TickedRemnant(front, 0);
      AgedZero(last);
      hide Aged, Ticked, Left, Lifetime;
      assert Active(turns) == Ticked(Active(front)) + last;
    }
  }

  /** One applied effect's part in a fight: how often it has ticked k turns after the turn applying it. */
  function Ticks(e: StatusEffect, k: nat): (r: nat) { Min(k, Lifetime(e)) }

  function Share(f: StatusEffect -> int, es: seq<StatusEffect>, k: nat): (r: int) {
    if es == [] then 0 else Share(f, es[..|es| - 1], k) + f(es[|es| - 1]) * Ticks(es[|es| - 1], k)
  }

  /** The fight's total in closed form: every effect counts once for each tick it lived to see. */
  function Ledger(f: StatusEffect -> int, turns: seq<seq<StatusEffect>>, k: nat): (r: int) {
    if turns == [] then 0 else Ledger(f, turns[..|turns| - 1], k + 1) + Share(f, turns[|turns| - 1], k)
  }

  lemma TotalLeft(f: StatusEffect -> int, e: StatusEffect, k: nat)
    requires Ageless(f)
    ensures Total(f, Left(e, k)) == f(e) * Ticks(e, k + 1) - f(e) * Ticks(e, k)
  {
  }

  lemma {:induction false} TotalAged(f: StatusEffect -> int, es: seq<StatusEffect>, k: nat)
    requires Ageless(f)
    ensures Total(f, Aged(es, k)) == Share(f, es, k + 1) - Share(f, es, k)
    decreases |es|
  {
    if es != [] {
      var e, front := es[|es| - 1], es[..|es| - 1];
      TotalAged(f, front, k);
      hide Left, Ageless;
      TotalAppend(f, Aged(front, k), Left(e, k));
      TotalLeft(f, e, k);
    }
  }

  lemma {:induction false} TotalRemnant(f: StatusEffect -> int, turns: seq<seq<StatusEffect>>, k: nat)
    requires Ageless(f)
    ensures Total(f, Remnant(turns, k)) == Ledger(f, turns, k + 1) - Ledger(f, turns, k)
    decreases |turns|
  {
    if turns != [] {
      var front, last := turns[..|turns| - 1], turns[|turns| - 1];
      TotalRemnant(f, front, k + 1);
      hide Aged, Share, Ageless;
      TotalAppend(f, Remnant(front, k + 1), Aged(last, k));
      TotalAged(f, last, k);
    }
  }

  /** Conservation over whole fights: the damage over time dealt by any run of turns is the sum over all
      applied effects of damage per tick times the ticks the effect lived to see. */
  lemma {:induction false} DealtIsLedger(f: StatusEffect -> int, turns: seq<seq<StatusEffect>>)
    requires Ageless(f)
    ensures Dealt(f, turns) == Ledger(f, turns, 0)
    decreases |turns|
  {
    if turns != [] {
      var front, last := turns[..|turns| - 1], turns[|turns| - 1];
      DealtIsLedger(f, front);
      hide Ageless;
      ActiveIsRemnant(front);
      TotalRemnant(f, front, 0);
      ShareZero(f, last);
    }
  }

  lemma {:induction false} ShareZero(f: StatusEffect -> int, es: seq<StatusEffect>)
    ensures Share(f, es, 0) == 0
  {
    if es != [] {
      ShareZero(f, es[..|es| - 1]);
      assert Ticks(es[|es| - 1], 0) == 0;
    }
  }

  /** The same fight with one more effect applied in turn i. */
  function With(turns: seq<seq<StatusEffect>>, i: nat, e: StatusEffect): (r: seq<seq<StatusEffect>>)
    requires i < |turns|
  {
    turns[i := turns[i] + [e]]
  }

  lemma {:induction false} RemnantWith(f: StatusEffect -> int, turns: seq<seq<StatusEffect>>, i: nat, e: StatusEffect,
                                       k: nat)
    requires Ageless(f) && i < |turns|
    ensures Total(f, Remnant(With(turns, i, e), k)) - Total(f, Remnant(turns, k))
            == if |turns| - 1 - i + k < Lifetime(e) then f(e) else 0
    decreases |turns|
  {
    var front, last := turns[..|turns| - 1], turns[|turns| - 1];
    var more := With(turns, i, e);
    if i == |turns| - 1 {
      assert more[..|turns| - 1] == front;
      TotalAppend(f, Remnant(front, k + 1), Aged(last, k));
      TotalAppend(f, Remnant(front, k + 1), Aged(last + [e], k));
      assert (last + [e])[..|last|] == last;
      TotalAppend(f, Aged(last, k), Left(e, k));
      TotalOfLeft(f, e, k);
    } else {
      assert more[..|turns| - 1] == With(front, i, e);
      RemnantWith(f, front, i, e, k + 1);
      hide Aged, Ageless;
      TotalAppend(f, Remnant(front, k + 1), Aged(last, k));
      TotalAppend(f, Remnant(With(front, i, e), k + 1), Aged(last, k));
    }
  }

  lemma TotalOfLeft(f: StatusEffect -> int, e: StatusEffect, k: nat)
    requires Ageless(f)
    ensures Total(f, Left(e, k)) == if k < Lifetime(e) then f(e) else 0
  {
  }

  /** A buff or debuff applied in turn i changes the total modifier seen by turn j, whatever else is going
      on, exactly in the next lifetime-many turns: not in its own turn and not afterwards. */
  lemma {:induction false} ModifierWindow(f: StatusEffect -> int, turns: seq<seq<StatusEffect>>, i: nat, j: nat,
                                          e: StatusEffect)
    requires Ageless(f) && i < |turns| && j <= |turns|
    ensures Total(f, Active(With(turns, i, e)[..j])) - Total(f, Active(turns[..j]))
            == if i < j <= i + Lifetime(e) then f(e) else 0
  {
    if i < j {
      assert With(turns, i, e)[..j] == With(turns[..j], i, e);
      RemnantWith(f, turns[..j], i, e, 0);
      ActiveIsRemnant(turns[..j]);
      ActiveIsRemnant(With(turns[..j], i, e));
    } else {
      assert With(turns, i, e)[..j] == turns[..j];
    }
  }

  /** The damage over time a creature takes in a fight, each effect through its resistance. */
  lemma CreatureDotLedger(resistances: DamageType -> real, turns: seq<seq<StatusEffect>>)
    ensures Dealt(e => ResistedDotOf(resistances, e), turns) == Ledger(e => ResistedDotOf(resistances, e), turns, 0)
  {
    AmountsAreAgeless(resistances);
    DealtIsLedger(e => ResistedDotOf(resistances, e), turns);
  }

  /** A buff cast in turn i moves the attack and defense modifiers of exactly the next lifetime-many turns. */
  lemma BuffWindow(turns: seq<seq<StatusEffect>>, i: nat, j: nat, e: StatusEffect)
    requires i < |turns| && j <= |turns|
    ensures var without, with := Active(turns[..j]), Active(With(turns, i, e)[..j]);
            var live := i < j <= i + Lifetime(e);
            && Total(AttackMod, with) == Total(AttackMod, without) + (if live then AttackMod(e) else 0)
            && Total(DefenseMod, with) == Total(DefenseMod, without) + (if live then DefenseMod(e) else 0)
  {
    AmountsAreAgeless(_ => 0.0);
    ModifierWindow(AttackMod, turns, i, j, e);
    ModifierWindow(DefenseMod, turns, i, j, e);
  }

  // ---- the caster's resource ----

  datatype ResourceConfig = ResourceConfig(max: int, startValue: int, regenPerTurn: int)

  function ConfigOf(a: Archetype): (r: ResourceConfig)
    ensures 0 <= r.startValue <= r.max && r.regenPerTurn >= 0
  {
    match a
    case Martial => ResourceConfig(100, 0, 10)
    case Agile => ResourceConfig(100, 80, 15)
    case Mage => ResourceConfig(100, 100, 20)
  }

  function RegenResource(resource: int, a: Archetype): (r: int) {
    Min(ConfigOf(a).max, resource + ConfigOf(a).regenPerTurn)
  }

  predicate Accepts(resource: int, cost: int) { cost <= resource }

  /** The resource after a run of taps, each with its cost: an unaffordable tap changes nothing. */
  function ResourceAfter(a: Archetype, costs: seq<int>): (r: int) {
    if costs == [] then ConfigOf(a).startValue
    else
      var before, cost := ResourceAfter(a, costs[..|costs| - 1]), costs[|costs| - 1];
      if Accepts(before, cost) then RegenResource(Max(0, before - cost), a) else before
  }

  /** The costs of the accepted taps, in order. */
  function AcceptedCosts(a: Archetype, costs: seq<int>): (r: seq<int>) {
    if costs == [] then []
    else
      var front, cost := costs[..|costs| - 1], costs[|costs| - 1];
      AcceptedCosts(a, front) + if Accepts(ResourceAfter(a, front), cost) then [cost] else []
  }

  function SumOf(xs: seq<int>): (r: int) { if xs == [] then 0 else SumOf(xs[..|xs| - 1]) + xs[|xs| - 1] }

  /** Over any run of taps the resource stays within its bounds, and what was spent plus what is left
      never exceeds the starting value plus one regeneration per accepted ability. */
  lemma {:induction false} ResourceBudget(a: Archetype, costs: seq<int>)
    ensures 0 <= ResourceAfter(a, costs) <= ConfigOf(a).max
    ensures SumOf(AcceptedCosts(a, costs)) + ResourceAfter(a, costs)
            <= ConfigOf(a).startValue + |AcceptedCosts(a, costs)| * ConfigOf(a).regenPerTurn
  {
    if costs != [] {
      var front, cost := costs[..|costs| - 1], costs[|costs| - 1];
      ResourceBudget(a, front);
      if Accepts(ResourceAfter(a, front), cost) {
        assert AcceptedCosts(a, costs)[..|AcceptedCosts(a, costs)| - 1] == AcceptedCosts(a, front);
      } else {
        assert AcceptedCosts(a, costs) == AcceptedCosts(a, front);
      }
    }
  }
}
