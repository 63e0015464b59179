/** Encounter pacing: when a walk may meet a creature, and what the player is told about it. */
module Pacing {
  import opened Basics

  /** The service's fields as a value. Distances in metres, times in milliseconds. */
  datatype Pace = Pace(distance: real, last: Option<int>, minDistance: real, chancePerMeter: real, minTime: int,
                       bypass: bool)

  /** One distance update: the metres walked, the clock when it is checked, the roll, and the clock when
      an encounter would be stamped. */
  datatype Update = Update(incremental: real, now: int, roll: real, stamp: int)

  /** The chance grows with the extra distance, up to certainty. */
  function Chance(extra: real, perMeter: real): (r: real) { MinReal(1.0, extra * perMeter) }

  /** A last encounter counts only with a time stamp other than 0. */
  predicate Stamped(last: Option<int>) { last.Some? && last.value != 0 }

  predicate TimeMet(p: Pace, now: int) {
    p.bypass || !Stamped(p.last) || now - p.last.value >= p.minTime
  }

  function DistanceProbability(p: Pace, distance: real): (r: real) {
    if distance < p.minDistance then 0.0 else Chance(distance - p.minDistance, p.chancePerMeter)
  }

  predicate Produces(p: Pace, u: Update) {
    var d := p.distance + u.incremental;
    d >= p.minDistance && TimeMet(p, u.now) && u.roll < Chance(d - p.minDistance, p.chancePerMeter)
  }

  function Stepped(p: Pace, u: Update): (r: Pace) {
    if Produces(p, u) then p.(distance := 0.0, last := Some(u.stamp)) else p.(distance := p.distance + u.incremental)
  }

  /** The preview: the probability after walking further, time constraint included. */
  function ProbabilityAfterIncremental(p: Pace, incremental: real, now: int): (r: real) {
    if TimeMet(p, now) then DistanceProbability(p, p.distance + incremental) else 0.0
  }

  predicate TimeBlocking(p: Pace, now: int) {
    !p.bypass && Stamped(p.last) && now - p.last.value < p.minTime
  }

  /** Whole seconds, rounded up, until the time constraint lets go. */
  function TimeRemaining(p: Pace, now: int): (r: int) {
    if !Stamped(p.last) then 0
    else
      var remaining := p.minTime - (now - p.last.value);
      var seconds := -((-remaining) / 1000);
      if seconds >= 0 then seconds else 0
  }

  class EncounterService {
    var distanceSinceLastEncounter: real
    var lastEncounterTime: Option<int>
    var minEncounterDistance: real
    var encounterChancePerMeter: real
    var minTimeBetweenEncounters: int
    var bypassTimeConstraint: bool

    function State(): (r: Pace)
      reads this
    {
      Pace(distanceSinceLastEncounter, lastEncounterTime, minEncounterDistance, encounterChancePerMeter,
           minTimeBetweenEncounters, bypassTimeConstraint)
    }

    constructor ()
      ensures State() == Pace(0.0, None, 50.0, 0.001, 30000, false)
    {
      distanceSinceLastEncounter, lastEncounterTime := 0.0, None;
      minEncounterDistance, encounterChancePerMeter, minTimeBetweenEncounters := 50.0, 0.001, 30000;
      bypassTimeConstraint := false;
    }

    /** Process a distance update; a missing reading or location changes nothing. */
    method ProcessDistanceUpdate(reading: Option<Update>) returns (encounter: bool)
      modifies this`distanceSinceLastEncounter, this`lastEncounterTime
      ensures State() == if reading.Some? then Stepped(old(State()), reading.value) else old(State())
      ensures encounter == (reading.Some? && Produces(old(State()), reading.value))
    {
      if reading.None? {
        return false;
      }
      var u := reading.value;
      distanceSinceLastEncounter := distanceSinceLastEncounter + u.incremental;
      var timeMet := bypassTimeConstraint ||
                     if lastEncounterTime.Some? && lastEncounterTime.value != 0
                     then u.now - lastEncounterTime.value >= minTimeBetweenEncounters else true;
      if distanceSinceLastEncounter >= minEncounterDistance && timeMet {
        var extra := distanceSinceLastEncounter - minEncounterDistance;
        if u.roll < Chance(extra, encounterChancePerMeter) {
          distanceSinceLastEncounter := 0.0;
          lastEncounterTime := Some(u.stamp);
          return true;
        }
      }
      return false;
    }

    /** The probability the next update will use, were it checked now. */
    method GetProbabilityAfterIncremental(incremental: real, now: int) returns (r: real)
      ensures r == ProbabilityAfterIncremental(State(), incremental, now)
    {
      if !bypassTimeConstraint {
        if lastEncounterTime.Some? && lastEncounterTime.value != 0
           && now - lastEncounterTime.value < minTimeBetweenEncounters {
          return 0.0;
        }
      }
      var after := distanceSinceLastEncounter + incremental;
      if after < minEncounterDistance {
        return 0.0;
      }
      r := Chance(after - minEncounterDistance, encounterChancePerMeter);
    }

    method ForceEncounter(stamp: int)
      modifies this`distanceSinceLastEncounter, this`lastEncounterTime
      ensures State() == Advanced(old(State()), Force(stamp))
    {
      distanceSinceLastEncounter, lastEncounterTime := 0.0, Some(stamp);
    }

    method Reset()
      modifies this`distanceSinceLastEncounter, this`lastEncounterTime
      ensures State() == Advanced(old(State()), Step.Reset)
    {
      distanceSinceLastEncounter, lastEncounterTime := 0.0, None;
    }
  }

  // ---- whole walks ----

  /** A distance update, a forced encounter, or a reset. */
  datatype Step = Walk(update: Update) | Force(stamp: int) | Reset

  function Advanced(p: Pace, e: Step): (r: Pace) {
    match e
    case Walk(u) => Stepped(p, u)
    case Force(stamp) => p.(distance := 0.0, last := Some(stamp))
    case Reset => p.(distance := 0.0, last := None)
  }

  function After(p: Pace, walk: seq<Step>): (r: Pace) {
    if walk == [] then p else Advanced(After(p, walk[..|walk| - 1]), walk[|walk| - 1])
  }

  /** Whether the i-th step of a walk rolled an encounter. */
  predicate Rolled(p: Pace, walk: seq<Step>, i: nat)
    requires i < |walk|
  {
    walk[i].Walk? && Produces(After(p, walk[..i]), walk[i].update)
  }

  /** Whether the i-th step met a creature, rolled or forced. */
  predicate Met(p: Pace, walk: seq<Step>, i: nat)
    requires i < |walk|
  {
    Rolled(p, walk, i) || walk[i].Force?
  }

  function StampOf(e: Step): (r: Option<int>) {
    match e case Walk(u) => Some(u.stamp) case Force(stamp) => Some(stamp) case Reset => None
  }

  /** The metres walked in the steps i .. j - 1. */
  function Walked(walk: seq<Step>, i: nat, j: nat): (r: real)
    requires i <= j <= |walk|
    decreases j
  {
    if i == j then 0.0 else Walked(walk, i, j - 1) + if walk[j - 1].Walk? then walk[j - 1].update.incremental else 0.0
  }

  /** Step i met a creature or reset the service, and nothing did so again before j. */
  ghost predicate Since(p: Pace, walk: seq<Step>, i: nat, j: nat)
    requires i < j <= |walk|
  {
    && (Met(p, walk, i) || walk[i].Reset?)
    && forall k :: i < k < j ==> !Met(p, walk, k) && !walk[k].Reset?
  }

  /** Since its last encounter or reset the service has counted exactly the metres walked, and it holds the
      time stamp of that encounter, or none. */
  lemma {:induction false} SinceEncounter(p: Pace, walk: seq<Step>, i: nat, j: nat)
    requires i < j <= |walk| && Since(p, walk, i, j)
    ensures After(p, walk[..j]) == After(p, walk[..i]).(distance := Walked(walk, i + 1, j), last := StampOf(walk[i]))
    decreases j
  {
    assert walk[..j][..j - 1] == walk[..j - 1];
    if j > i + 1 {
      SinceEncounter(p, walk, i, j - 1);
      assert !Met(p, walk, j - 1) && !walk[j - 1].Reset?;
    }
  }

  lemma {:induction false} SettingsStay(p: Pace, walk: seq<Step>)
    ensures var q := After(p, walk);
            && q.minDistance == p.minDistance && q.chancePerMeter == p.chancePerMeter && q.minTime == p.minTime
            && q.bypass == p.bypass
  {
    if walk != [] {
      SettingsStay(p, walk[..|walk| - 1]);
    }
  }

  lemma ChanceNeedsDistance(extra: real, chance: real, roll: real)
    requires extra >= 0.0 && roll >= 0.0 && roll < Chance(extra, chance)
    ensures extra > 0.0
  {
  }

  /** Over any walk a rolled encounter comes more than the minimum distance after the encounter before it,
      rolled or forced, or after the last reset; and at least the minimum time after that encounter,
      unless the constraint is bypassed or the encounter was stamped 0. */
  lemma ConsecutiveEncounters(p: Pace, walk: seq<Step>, i: nat, j: nat)
    requires i < j < |walk| && Since(p, walk, i, j) && Rolled(p, walk, j)
    requires walk[j].update.roll >= 0.0
    ensures Walked(walk, i + 1, j + 1) > p.minDistance
    ensures p.bypass || walk[i].Reset? || StampOf(walk[i]).value == 0
            || walk[j].update.now - StampOf(walk[i]).value >= p.minTime
  {
    hide Chance, After;
    SinceEncounter(p, walk, i, j);
    SettingsStay(p, walk[..i]);
    var q, u := After(p, walk[..j]), walk[j].update;
    assert Walked(walk, i + 1, j + 1) == q.distance + u.incremental;
    ChanceNeedsDistance(q.distance + u.incremental - q.minDistance, q.chancePerMeter, u.roll);
  }

  /** An encounter stamped 0 is forgotten: the next may follow at once. */
  lemma StampZeroForgotten()
    ensures var p := Pace(0.0, None, 50.0, 0.001, 30000, false);
            var walk := [Walk(Update(60.0, 0, 0.0, 0)), Walk(Update(60.0, 1, 0.0, 1))];
            Rolled(p, walk, 0) && Rolled(p, walk, 1)
  {
    var p := Pace(0.0, None, 50.0, 0.001, 30000, false);
    var walk := [Walk(Update(60.0, 0, 0.0, 0)), Walk(Update(60.0, 1, 0.0, 1))];
    assert walk[..0] == [] && walk[..1] == [walk[0]];
    assert After(p, walk[..1]) == Stepped(p, walk[0].update) by {
      assert walk[..1][..0] == [];
    }
    assert (60.0 - 50.0) * 0.001 == 0.01;
    assert Stepped(p, walk[0].update) == p.(distance := 0.0, last := Some(0));
  }

  /** An update is certain to meet a creature, whatever the roll, exactly when the time constraint is met
      and the distance reaches the minimum plus the length over which the chance grows to 1. */
  lemma CertainIff(p: Pace, incremental: real, now: int, stamp: int)
    requires p.chancePerMeter > 0.0
    ensures (forall roll: real :: 0.0 <= roll < 1.0 ==> Produces(p, Update(incremental, now, roll, stamp))) <==>
            TimeMet(p, now) && p.distance + incremental >= p.minDistance + 1.0 / p.chancePerMeter
  {
    var extra, c := p.distance + incremental - p.minDistance, p.chancePerMeter;
    ReachesOneIff(extra, c);
    assert 1.0 / c > 0.0;
    if extra * c < 1.0 {
      var roll := if extra * c > 0.0 then extra * c else 0.0;
      assert !Produces(p, Update(incremental, now, roll, stamp));
    } else if !TimeMet(p, now) {
      assert !Produces(p, Update(incremental, now, 0.0, stamp));
    }
  }

  lemma ReachesOneIff(extra: real, c: real)
    requires c > 0.0
    ensures extra * c >= 1.0 <==> extra >= 1.0 / c
  {
  }

  /** Whether an encounter is produced is decided by the previewed probability at the same clock. */
  lemma PreviewDecides(p: Pace, u: Update)
    requires u.roll >= 0.0
    ensures Produces(p, u) <==> u.roll < ProbabilityAfterIncremental(p, u.incremental, u.now)
  {
  }

  /** A preview taken earlier than the update agrees with it exactly unless the time constraint let go in
      between with a non-zero chance. */
  lemma EarlierPreviewAgreesIff(p: Pace, incremental: real, shown: int, used: int)
    requires shown <= used
    ensures ProbabilityAfterIncremental(p, incremental, shown) == ProbabilityAfterIncremental(p, incremental, used) <==>
            !(TimeBlocking(p, shown) && !TimeBlocking(p, used)
              && DistanceProbability(p, p.distance + incremental) != 0.0)
  {
  }

  /** The countdown and the blocking flag agree exactly unless the constraint is bypassed while the
      countdown still runs. */
  lemma CountdownAgreesIff(p: Pace, now: int)
    ensures (TimeBlocking(p, now) <==> TimeRemaining(p, now) > 0) <==>
            !(p.bypass && Stamped(p.last) && now - p.last.value < p.minTime)
  {
  }

  /** The countdown never tells too little, and at most a second too much. */
  lemma CountdownIsCeiling(p: Pace, now: int)
    requires TimeBlocking(p, now)
    ensures var remaining := p.minTime - (now - p.last.value);
            1000 * (TimeRemaining(p, now) - 1) < remaining <= 1000 * TimeRemaining(p, now)
  {
  }
}
