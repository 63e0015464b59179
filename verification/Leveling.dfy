/** Experience and levels: the level-up loop and the laws of experience. */
module Leveling {
  import opened Basics

  datatype Archetype = Martial | Agile | Mage

  datatype Attributes = Attributes(str: int, agi: int, intellect: int)

  /** A player's progress: level, experience into the level, and the attributes that grow with it. */
  datatype Progress = Progress(level: int, experience: int, attributes: Attributes)

  function BaseAttributes(a: Archetype): (r: Attributes) {
    match a
    case Martial => Attributes(10, 6, 4)
    case Agile => Attributes(6, 10, 6)
    case Mage => Attributes(4, 6, 10)
  }

  function GrowthPerLevel(a: Archetype): (r: Attributes) {
    match a
    case Martial => Attributes(3, 1, 0)
    case Agile => Attributes(1, 3, 1)
    case Mage => Attributes(0, 1, 3)
  }

  function ComputeAttributes(a: Archetype, level: int): (r: Attributes) {
    var base, growth, l := BaseAttributes(a), GrowthPerLevel(a), Max(1, level);
    Attributes(base.str + (l - 1) * growth.str, base.agi + (l - 1) * growth.agi,
               base.intellect + (l - 1) * growth.intellect)
  }

  // ---- the requirement ----

  /** Integer square root. */
  function SquareRoot(n: nat): (r: nat)
    ensures r * r <= n < (r + 1) * (r + 1)
  {
    if n == 0 then 0
    else
      var r := SquareRoot(n - 1);
      if (r + 1) * (r + 1) <= n then r + 1 else r
  }

  function Cube(n: nat): (r: nat) { n * n * n }

  /** Experience to leave a level: 100 times level to the power 1.5, rounded down, that is the integer
      square root of 10000 times the level cubed. */
  function ExperienceForNextLevel(level: int): (r: nat) {
    SquareRoot(10000 * Cube(Max(1, level)))
  }

  lemma SquaresBelow(r: nat, s: nat)
    requires r * r < (s + 1) * (s + 1)
    ensures r <= s
  {
  }

  lemma SquareRootIs(n: nat, k: nat)
    requires k * k <= n < (k + 1) * (k + 1)
    ensures SquareRoot(n) == k
  {
    var r := SquareRoot(n);
    SquaresBelow(k, r);
    SquaresBelow(r, k);
  }

  lemma CubeMonotone(m: nat, n: nat)
    requires m <= n
    ensures Cube(m) <= Cube(n)
  {
    assert m * m <= n * n;
    assert m * m * m <= n * n * m <= n * n * n;
  }

  /** A higher level never needs less experience, and every level needs at least 100. */
  lemma RequirementGrows(level: int, level': int)
    requires level <= level'
    ensures 100 <= ExperienceForNextLevel(level) <= ExperienceForNextLevel(level')
  {
    var l, l' := Max(1, level), Max(1, level');
    CubeMonotone(l, l');
    CubeMonotone(1, l);
    var r, s := ExperienceForNextLevel(level), ExperienceForNextLevel(level');
    SquaresBelow(r, s);
    SquaresBelow(100, r);
  }

  // ---- levelling up ----

  function Grown(a: Archetype, p: Progress): (r: Progress) {
    var g := GrowthPerLevel(a);
    Progress(p.level + 1, p.experience - ExperienceForNextLevel(p.level),
             Attributes(p.attributes.str + g.str, p.attributes.agi + g.agi, p.attributes.intellect + g.intellect))
  }

  /** Levels gained for as long as the experience covers the next requirement. */
  function Levelled(a: Archetype, p: Progress): (r: Progress)
    ensures r.level >= p.level
    ensures r.experience < ExperienceForNextLevel(r.level)
    ensures r.level > p.level ==> r.experience >= 0
    ensures r.level == p.level <==> r == p
    decreases Max(0, p.experience)
  {
    RequirementGrows(p.level, p.level);
    if p.experience >= ExperienceForNextLevel(p.level) then Levelled(a, Grown(a, p)) else p
  }

  lemma LevelledStep(a: Archetype, p: Progress)
    ensures Levelled(a, p) == if p.experience >= ExperienceForNextLevel(p.level) then Levelled(a, Grown(a, p)) else p
  {
  }

  function AddExperience(a: Archetype, p: Progress, amount: int): (r: Progress) {
    Levelled(a, p.(experience := p.experience + amount))
  }

  /** All the experience ever earned from a starting level on: the requirements passed plus the rest. */
  function Earned(from: int, p: Progress): (r: int)
    requires from <= p.level
    decreases p.level - from
  {
    if from == p.level then p.experience
    else ExperienceForNextLevel(from) + Earned(from + 1, p)
  }

  /** Earned peels the last requirement as well as the first. */
  lemma {:induction false} EarnedGrown(a: Archetype, from: int, p: Progress)
    requires from <= p.level
    ensures Earned(from, Grown(a, p)) == Earned(from, p)
    decreases p.level - from
  {
    if from < p.level {
      EarnedGrown(a, from + 1, p);
    } else {
      assert Earned(from + 1, Grown(a, p)) == Grown(a, p).experience;
    }
  }

  /** Levelling up neither creates nor loses experience. */
  lemma {:induction false} LevelledConserves(a: Archetype, from: int, p: Progress)
    requires from <= p.level
    ensures Earned(from, Levelled(a, p)) == Earned(from, p)
    decreases Max(0, p.experience)
  {
    RequirementGrows(p.level, p.level);
    if p.experience >= ExperienceForNextLevel(p.level) {
      hide ExperienceForNextLevel;
      LevelledConserves(a, from, Grown(a, p));
      EarnedGrown(a, from, p);
    }
  }

  /** Conservation: whatever the amount, the experience earned grows by exactly it. */
  lemma ExperienceConserved(a: Archetype, p: Progress, amount: int)
    ensures Earned(p.level, AddExperience(a, p, amount)) == p.experience + amount
  {
    LevelledConserves(a, p.level, p.(experience := p.experience + amount));
  }

  /** Attributes gained level by level are the ones computed from the level. */
  lemma {:induction false} AttributesFollowLevel(a: Archetype, p: Progress)
    requires p.level >= 1 && p.attributes == ComputeAttributes(a, p.level)
    ensures Levelled(a, p).attributes == ComputeAttributes(a, Levelled(a, p).level)
    decreases Max(0, p.experience)
  {
    RequirementGrows(p.level, p.level);
    if p.experience >= ExperienceForNextLevel(p.level) {
      hide ExperienceForNextLevel;
      AttributesFollowLevel(a, Grown(a, p));
    }
  }

  /** Extra experience can wait until after the levels the first part pays for. */
  lemma {:induction false} LevelledLater(a: Archetype, p: Progress, extra: int)
    requires Levelled(a, p).level == p.level || Levelled(a, p).experience + extra >= 0
    ensures Levelled(a, p.(experience := p.experience + extra))
            == Levelled(a, Levelled(a, p).(experience := Levelled(a, p).experience + extra))
    decreases Max(0, p.experience)
  {
    RequirementGrows(p.level, p.level);
    if p.experience >= ExperienceForNextLevel(p.level) {
      var q := Grown(a, p);
      hide ExperienceForNextLevel;
      LevelledLater(a, q, extra);
      CoversExtra(a, p, extra);
      assert Grown(a, p.(experience := p.experience + extra)) == q.(experience := q.experience + extra);
    }
  }

  /** What remains after levelling is at most what there was, requirement by requirement. */
  lemma {:induction false} CoversExtra(a: Archetype, p: Progress, extra: int)
    requires p.experience >= ExperienceForNextLevel(p.level) && Levelled(a, p).experience + extra >= 0
    ensures p.experience + extra >= ExperienceForNextLevel(p.level)
    decreases Max(0, p.experience)
  {
    RequirementGrows(p.level, p.level);
    var q := Grown(a, p);
    if q.experience >= ExperienceForNextLevel(q.level) {
      RequirementGrows(q.level, q.level);
      hide ExperienceForNextLevel;
      CoversExtra(a, q, extra);
    }
  }

  /** A loss the remainder cannot cover is never repaid by giving a level back. */
  lemma DebtRemains(a: Archetype, p: Progress, q: Progress)
    requires q.level > p.level && q.experience < 0
    ensures Levelled(a, q) == q != Levelled(a, p)
  {
  }

  /** Splitting an award: adding first and then second equals adding their sum, exactly when the second is
      not negative, or the first gained no level, or the remainder covers the loss. */
  lemma SplitAwardIff(a: Archetype, p: Progress, first: int, second: int)
    ensures AddExperience(a, AddExperience(a, p, first), second) == AddExperience(a, p, first + second) <==>
            (second >= 0 || AddExperience(a, p, first).level == p.level
             || AddExperience(a, p, first).experience + second >= 0)
  {
    hide ExperienceForNextLevel, Grown, Levelled;
    var start := p.(experience := p.experience + first);
    var mid := Levelled(a, start);
    assert start.(experience := start.experience + second) == p.(experience := p.experience + (first + second));
    if mid.level == p.level || mid.experience + second >= 0 {
      LevelledLater(a, start, second);
    } else {
      DebtRemains(a, p.(experience := p.experience + (first + second)), mid.(experience := mid.experience + second));
    }
  }

  /** Losing experience across a level boundary is where a split award goes wrong: 150 then -100 leaves a
      level-2 player in debt, 50 at once leaves a level-1 player. */
  lemma SplitAwardFails()
    ensures var p := Progress(1, 0, ComputeAttributes(Martial, 1));
            AddExperience(Martial, AddExperience(Martial, p, 150), -100) != AddExperience(Martial, p, 50)
  {
    var p := Progress(1, 0, ComputeAttributes(Martial, 1));
    FirstRequirements();
    var q := p.(experience := 150);
    assert Levelled(Martial, q) == Levelled(Martial, Grown(Martial, q));
    assert Grown(Martial, q).experience == 50;
    SplitAwardIff(Martial, p, 150, -100);
  }

  lemma FirstRequirements()
    ensures ExperienceForNextLevel(1) == 100 && ExperienceForNextLevel(2) == 282
  {
    SquareRootIs(10000, 100);
    SquareRootIs(80000, 282);
    assert Cube(1) == 1 && Cube(2) == 8;
  }

  function SumOf(xs: seq<nat>): (r: nat) { if xs == [] then 0 else SumOf(xs[..|xs| - 1]) + xs[|xs| - 1] }

  function AddAll(a: Archetype, p: Progress, awards: seq<nat>): (r: Progress) {
    if awards == [] then Levelled(a, p)
    else AddExperience(a, AddAll(a, p, awards[..|awards| - 1]), awards[|awards| - 1])
  }

  /** However an award is cut into pieces, the player ends at the same level, experience and attributes. */
  lemma {:induction false} BatchingIrrelevant(a: Archetype, p: Progress, awards: seq<nat>)
    ensures AddAll(a, p, awards) == AddExperience(a, p, SumOf(awards))
  {
    if awards == [] {
      assert p.(experience := p.experience + 0) == p;
    } else {
      var front, last := awards[..|awards| - 1], awards[|awards| - 1];
      BatchingIrrelevant(a, p, front);
      SplitAwardIff(a, p, SumOf(front), last);
    }
  }
}
