/** The damage of one direct hit: mitigation by defense, the resistance layer and the evasion roll. */
module Damage {
  import opened Basics

  datatype DamageType = Physical | Fire | Frost | Arcane

  datatype Outcome = Normal | Glancing | Dodged

  datatype Side = PlayerSide | CreatureSide

  function Times(x: real, y: real): (r: real) { x * y }

  function Clamp(n: real, lo: real, hi: real): (r: real) { MaxReal(lo, MinReal(n, hi)) }

  // ---- mitigation and resistance ----

  /** The mitigated hit before rounding: attack squared over attack plus defense. */
  function Raw(attack: int, defense: int): (r: real)
    ensures r >= 0.0
  {
    var atk, def := Max(0, attack), Max(0, defense);
    if atk + def == 0 then 0.0 else (atk * atk) as real / (atk + def) as real
  }

  function MitigateDamage(attack: int, defense: int, multiplier: real): (r: int)
    ensures r >= 1
  {
    Max(1, Times(Raw(attack, defense), multiplier).Floor)
  }

  function ApplyResistance(rawDamage: int, resistance: real): (r: int)
    ensures r >= 0
  {
    Max(0, (rawDamage as real * (1.0 - resistance)).Floor)
  }

  function ApplyEvasionDamage(baseDamage: int, outcome: Outcome): (r: int) {
    if outcome.Dodged? || baseDamage <= 0 then 0
    else if outcome.Glancing? then Max(1, (baseDamage as real * 0.5).Floor)
    else baseDamage
  }

  /** A direct ability's swing: mitigation, then resistance, then evasion. */
  function Hit(attack: int, defense: int, multiplier: real, resistance: real, outcome: Outcome): (r: int)
  {
    ApplyEvasionDamage(ApplyResistance(MitigateDamage(attack, defense, multiplier), resistance), outcome)
  }

  lemma Cross(n: real, d: real, m: real, e: real)
    requires d > 0.0 && e > 0.0 && n * e <= m * d
    ensures n / d <= m / e
  {
  }

  lemma TimesMonotone(x: real, y: real, m: real)
    requires x <= y && m >= 0.0
    ensures x * m <= y * m
  {
  }

  lemma ProductMonotone(x: real, y: real, m: real, m': real)
    requires 0.0 <= x <= y && 0.0 <= m <= m'
    ensures 0.0 <= Times(x, m) <= Times(y, m')
  {
  }

  lemma FloorMonotone(x: real, y: real)
    requires x <= y
    ensures x.Floor <= y.Floor
  {
  }

  /** For naturals a <= b: a * a * (b + d) <= b * b * (a + d). */
  lemma SquareOverSum(a: int, b: int, d: int)
    requires 0 <= a <= b && 0 <= d
    ensures a * a * (b + d) <= b * b * (a + d)
  {
    assert b * b * (a + d) - a * a * (b + d) == (b - a) * (a * b + d * (a + b));
    assert (b - a) * (a * b + d * (a + b)) >= 0 by {
      assert a * b >= 0;
      assert d * (a + b) >= 0;
    }
  }

  lemma RawMonotone(attack: int, attack': int, defense: int)
    requires attack <= attack'
    ensures Raw(attack, defense) <= Raw(attack', defense)
  {
    var a, b, d := Max(0, attack), Max(0, attack'), Max(0, defense);
    if a + d != 0 {
      SquareOverSum(a, b, d);
      assert (a * a) as real * (b + d) as real <= (b * b) as real * (a + d) as real by {
        assert (a * a * (b + d)) as real == (a * a) as real * (b + d) as real;
        assert (b * b * (a + d)) as real == (b * b) as real * (a + d) as real;
      }
      Cross((a * a) as real, (a + d) as real, (b * b) as real, (b + d) as real);
    }
  }

  lemma RawAntitone(attack: int, defense: int, defense': int)
    requires defense <= defense'
    ensures Raw(attack, defense') <= Raw(attack, defense)
  {
    var a, d, e := Max(0, attack), Max(0, defense), Max(0, defense');
    if a + d != 0 {
      TimesMonotone((a + d) as real, (a + e) as real, (a * a) as real);
      Cross((a * a) as real, (a + e) as real, (a * a) as real, (a + d) as real);
    }
  }

  /** More attack, less defense or a bigger multiplier never lowers the mitigated hit. */
  lemma MitigationMonotone(attack: int, attack': int, defense: int, defense': int, m: real, m': real)
    requires attack <= attack' && defense' <= defense && 0.0 <= m <= m'
    ensures MitigateDamage(attack, defense, m) <= MitigateDamage(attack', defense', m')
  {
    RawMonotone(attack, attack', defense);
    RawAntitone(attack', defense', defense);
    var x, y := Raw(attack, defense), Raw(attack', defense');
    hide Raw, Times;
    ProductMonotone(x, y, m, m');
    FloorMonotone(Times(x, m), Times(y, m'));
  }

  lemma ResistanceMonotone(raw: int, raw': int, res: real, res': real)
    requires 0 <= raw <= raw' && res' <= res
    ensures ApplyResistance(raw, res) <= ApplyResistance(raw', res')
  {
    var x, y := raw as real, raw' as real;
    if res <= 1.0 {
      ProductMonotone(x, y, 1.0 - res, 1.0 - res');
      FloorMonotone(x * (1.0 - res), y * (1.0 - res'));
    } else {
      assert x * (1.0 - res) <= 0.0;
    }
  }

  /** How much of a hit an outcome lets through: nothing, half, all. */
  function Passes(outcome: Outcome): (r: nat) {
    match outcome case Dodged => 0 case Glancing => 1 case Normal => 2
  }

  lemma EvasionMonotone(b: int, b': int, outcome: Outcome, outcome': Outcome)
    requires 0 <= b <= b' && Passes(outcome) <= Passes(outcome')
    ensures 0 <= ApplyEvasionDamage(b, outcome) <= ApplyEvasionDamage(b', outcome')
  {
  }

  /** The whole pipeline is monotone: nothing that favours the attacker ever lowers the damage, and a
      dodge deals at most a glance, a glance at most a clean hit. */
  lemma HitMonotone(attack: int, attack': int, defense: int, defense': int, m: real, m': real,
                    res: real, res': real, outcome: Outcome, outcome': Outcome)
    requires attack <= attack' && defense' <= defense && 0.0 <= m <= m' && res' <= res
    requires Passes(outcome) <= Passes(outcome')
    ensures 0 <= Hit(attack, defense, m, res, outcome) <= Hit(attack', defense', m', res', outcome')
  {
    MitigationMonotone(attack, attack', defense, defense', m, m');
    var x, y := MitigateDamage(attack, defense, m), MitigateDamage(attack', defense', m');
    ResistanceMonotone(x, y, res, res');
    EvasionMonotone(ApplyResistance(x, res), ApplyResistance(y, res'), outcome, outcome');
  }

  /** A hit lands for nothing exactly when it is dodged or the resistance leaves less than one point. */
  lemma HitZeroIff(attack: int, defense: int, m: real, res: real, outcome: Outcome)
    ensures Hit(attack, defense, m, res, outcome) == 0 <==>
            outcome.Dodged? || MitigateDamage(attack, defense, m) as real * (1.0 - res) < 1.0
  {
  }

  /** "Every point of defense always helps": true of the unrounded hit exactly when there is an attack. */
  lemma DefenseAlwaysHelpsIff(attack: int, defense: nat)
    ensures Raw(attack, defense + 1) < Raw(attack, defense) <==> attack > 0
  {
    if attack > 0 {
      var n, d := (attack * attack) as real, (attack + defense) as real;
      assert n > 0.0;
      StrictlyLess(n, d, d + 1.0);
    } else {
      RawZero(attack, defense);
      RawZero(attack, defense + 1);
    }
  }

  lemma RawZero(attack: int, defense: int)
    requires attack <= 0
    ensures Raw(attack, defense) == 0.0
  {
  }

  lemma StrictlyLess(n: real, d: real, e: real)
    requires n > 0.0 && 0.0 < d < e
    ensures n / e < n / d
  {
  }

  /** The whole number k >= 2 is passed between x and y. */
  predicate CrossesWhole(x: real, y: real, k: int) { k >= 2 && x < k as real <= y }

  lemma FloorCrosses(x: real, y: real)
    requires Max(1, x.Floor) < Max(1, y.Floor)
    ensures CrossesWhole(x, y, y.Floor)
  {
  }

  lemma CrossedFloors(x: real, y: real, k: int)
    requires CrossesWhole(x, y, k)
    ensures x.Floor < k <= y.Floor
  {
  }

  lemma RoundedBelowIff(x: real, y: real)
    ensures Max(1, x.Floor) < Max(1, y.Floor) <==> exists k :: CrossesWhole(x, y, k)
  {
    if Max(1, x.Floor) < Max(1, y.Floor) {
      FloorCrosses(x, y);
    }
    if k :| CrossesWhole(x, y, k) {
      CrossedFloors(x, y, k);
    }
  }

  /** A point of defense lowers the hit dealt exactly when the unrounded hit falls past a whole number of at
      least 2: otherwise the point is wasted. */
  lemma DefenseLowersHitIff(attack: int, defense: int, m: real)
    ensures MitigateDamage(attack, defense + 1, m) < MitigateDamage(attack, defense, m) <==>
            var after, before := Times(Raw(attack, defense + 1), m), Times(Raw(attack, defense), m);
            exists k :: CrossesWhole(after, before, k)
  {
    hide Raw, Times;
    RoundedBelowIff(Times(Raw(attack, defense + 1), m), Times(Raw(attack, defense), m));
  }

  /** After rounding a point of defense can be wasted: 10 attack deals 5 against 10 or 9 defense. */
  lemma DefenseCanBeWasted()
    ensures MitigateDamage(10, 9, 1.0) == MitigateDamage(10, 10, 1.0) == 5
  {
  }

  /** Equal defense and attack halve the hit. */
  lemma EqualDefenseHalves(attack: int)
    requires attack > 0
    ensures Raw(attack, attack) == attack as real / 2.0
  {
  }

  // ---- the evasion roll ----

  function GlanceCap(defender: Side): (r: real) { if defender.PlayerSide? then 0.4 else 0.16 }

  function DodgeCap(defender: Side): (r: real) { if defender.PlayerSide? then 0.18 else 0.08 }

  function GlanceChance(delta: int, defender: Side): (r: real)
    ensures 0.0 <= r <= GlanceCap(defender)
  {
    Clamp(0.08 + 0.012 * delta as real, 0.0, GlanceCap(defender))
  }

  function DodgeBase(delta: int, defender: Side): (r: real)
    ensures 0.0 <= r <= DodgeCap(defender)
  {
    Clamp(0.03 + 0.005 * delta as real, 0.0, DodgeCap(defender))
  }

  /** The dodge chance after a streak of non-dodges: it ramps with the streak, up to the cap. */
  function DodgeChance(delta: int, defender: Side, streak: nat): (r: real)
  {
    MinReal(DodgeCap(defender), Times(DodgeBase(delta, defender), 1.0 + 0.5 * streak as real))
  }

  /** The evasion roll on a uniform draw r; returns the outcome and the next dodge streak. */
  function RollEvasion(attackerSpeed: int, defenderSpeed: int, defender: Side, streak: nat, r: real)
    : (res: (Outcome, nat))
  {
    var delta := defenderSpeed - attackerSpeed;
    var glance, dodge := GlanceChance(delta, defender), DodgeChance(delta, defender, streak);
    if r < dodge then (Dodged, 0)
    else if r < dodge + glance then (Glancing, streak + 1)
    else (Normal, streak + 1)
  }

  lemma DodgeBaseMonotone(delta: int, delta': int, side: Side, side': Side)
    requires delta <= delta' && (side == side' || side'.PlayerSide?)
    ensures DodgeBase(delta, side) <= DodgeBase(delta', side')
  {
  }

  lemma DodgeChanceMonotone(delta: int, delta': int, side: Side, side': Side, streak: nat, streak': nat)
    requires delta <= delta' && streak <= streak' && (side == side' || side'.PlayerSide?)
    ensures 0.0 <= DodgeChance(delta, side, streak) <= DodgeChance(delta', side', streak')
  {
    var b, b' := DodgeBase(delta, side), DodgeBase(delta', side');
    var g, g' := 1.0 + 0.5 * streak as real, 1.0 + 0.5 * streak' as real;
    DodgeBaseMonotone(delta, delta', side, side');
    hide DodgeBase, Times;
    ProductMonotone(b, b', g, g');
  }

  /** On the same draw, a faster defender, a longer streak or the player's side never evades less; in
      particular whatever the creature evades the player would evade too. */
  lemma RollMonotone(attackerSpeed: int, attackerSpeed': int, defenderSpeed: int, defenderSpeed': int,
                     side: Side, side': Side, streak: nat, streak': nat, r: real)
    requires attackerSpeed' <= attackerSpeed && defenderSpeed <= defenderSpeed' && streak <= streak'
    requires side == side' || side'.PlayerSide?
    ensures Passes(RollEvasion(attackerSpeed', defenderSpeed', side', streak', r).0)
            <= Passes(RollEvasion(attackerSpeed, defenderSpeed, side, streak, r).0)
  {
    var delta, delta' := defenderSpeed - attackerSpeed, defenderSpeed' - attackerSpeed';
    DodgeChanceMonotone(delta, delta', side, side', streak, streak');
    assert GlanceChance(delta, side) <= GlanceChance(delta', side');
  }

  /** The streak ramp lifts the dodge chance to its cap exactly for a defender at most five points slower:
      anyone slower than that never dodges, whatever the streak. */
  lemma RampReachesCapIff(delta: int, defender: Side)
    ensures (exists streak: nat :: DodgeChance(delta, defender, streak) == DodgeCap(defender)) <==> delta > -6
    ensures delta <= -6 ==> forall streak: nat :: DodgeChance(delta, defender, streak) == 0.0
  {
    var b := DodgeBase(delta, defender);
    if delta > -6 {
      assert b >= 0.005;
      TimesMonotone(0.005, b, 1.0 + 0.5 * 100 as real);
      assert DodgeChance(delta, defender, 100) == DodgeCap(defender);
    } else {
      assert b == 0.0;
    }
  }

  /** The streak fed back by a run of rolls, one draw after another. */
  function StreakAfter(attackerSpeed: int, defenderSpeed: int, defender: Side, draws: seq<real>): (n: nat)
  {
    if draws == [] then 0
    else
      var before := StreakAfter(attackerSpeed, defenderSpeed, defender, draws[..|draws| - 1]);
      RollEvasion(attackerSpeed, defenderSpeed, defender, before, draws[|draws| - 1]).1
  }

  function OutcomeOf(attackerSpeed: int, defenderSpeed: int, defender: Side, draws: seq<real>, i: nat): (o: Outcome)
    requires i < |draws|
  {
    RollEvasion(attackerSpeed, defenderSpeed, defender, StreakAfter(attackerSpeed, defenderSpeed, defender, draws[..i]),
                draws[i]).0
  }

  /** The streak counts the rolls since the last dodge: the last so many rolls were no dodge, and the one
      before them, if there was one, was. */
  lemma {:induction false} StreakCountsSinceDodge(attackerSpeed: int, defenderSpeed: int, defender: Side,
                                                  draws: seq<real>)
    ensures var n := StreakAfter(attackerSpeed, defenderSpeed, defender, draws);
            && n <= |draws|
            && (forall i :: |draws| - n <= i < |draws| ==>
                  !OutcomeOf(attackerSpeed, defenderSpeed, defender, draws, i).Dodged?)
            && (n < |draws| ==> OutcomeOf(attackerSpeed, defenderSpeed, defender, draws, |draws| - n - 1).Dodged?)
  {
    hide GlanceChance, DodgeChance;
    if draws != [] {
      var front := draws[..|draws| - 1];
      StreakCountsSinceDodge(attackerSpeed, defenderSpeed, defender, front);
      forall i | 0 <= i < |front|
        ensures OutcomeOf(attackerSpeed, defenderSpeed, defender, draws, i)
                == OutcomeOf(attackerSpeed, defenderSpeed, defender, front, i)
      {
        assert draws[..i] == front[..i];
      }
    }
  }
}
