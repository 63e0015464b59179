/** The turn-based combat hook: taps, the two-phase counter-attack timer, the kill-beat timer, flee,
    auto-resolve and teardown interleave on shared refs. */
module Combat {
  import opened Basics

  /** An encounter object. Each accepted ability replaces it by a new object for the same creature object;
      `foe` is the creature met, which stays the same when a held one is loaded from storage into a new
      creature object; `number` says which presentation it belongs to. */
  datatype Encounter = Encounter(obj: nat, creature: nat, foe: nat, elite: bool, number: nat)

  /** The stored foe and the hit points it was stored with. */
  datatype StoredFoe = StoredFoe(foe: nat, hp: nat)

  /** Bringing the stored foe back to the card: the read is issued, then answered, then acted upon. */
  datatype Refresh = Idle | Reading | Read(found: Option<StoredFoe>)

  /** The counter timer: first the brace, pinned to an encounter object, then the hold. */
  datatype Timer = NoTimer | Brace(obj: nat, number: nat) | Hold

  /** counterPendingRef, isEnemyTurn and counterTimerRef. */
  datatype CounterBeat = CounterBeat(pending: bool, enemyTurn: bool, timer: Timer)

  /** killBeatPendingRef and killBeatTimerRef; the timer remembers which encounter was killed. */
  datatype KillBeat = KillBeat(pending: bool, timer: Option<nat>)

  datatype Hero = Hero(loaded: bool, hp: nat, maxHp: nat)

  datatype Screen = Screen(combatOpen: bool, minimized: bool)

  datatype Kind = Won | Fled | Lost

  /** How the encounter with this number ended. */
  datatype Outcome = Outcome(number: nat, foe: nat, kind: Kind)

  /** Where a strike was scheduled and where it landed. */
  datatype Landed = Landed(scheduled: nat, struck: nat)

  /** History: fresh object identities, presentations, outcomes, accepted abilities and strikes. */
  datatype Past = Past(nextObj: nat, presented: nat, outcomes: seq<Outcome>, accepted: nat, strikes: seq<Landed>)

  datatype Fight = Fight(
    encounter: Option<Encounter>,
    ready: bool,                       // the player's combat state is initialised
    hero: Hero,
    hp: map<nat, nat>,                 // creature hit points, shared by all encounter objects of a creature
    victoryProcessed: bool,
    fleeProcessed: bool,
    kill: KillBeat,
    beat: CounterBeat,
    screen: Screen,
    heldFoe: Option<Encounter>,
    engaging: seq<Encounter>,          // engage taps awaiting the removal of the stored foe
    stored: Option<StoredFoe>,
    holding: seq<Encounter>,           // foes just stored, not yet on the card
    refresh: Refresh,
    past: Past)

  datatype Event =
    | Present(creature: nat, elite: bool, maxHp: nat)
    | HoldFoe(creature: nat, maxHp: nat)
    | HoldLands
    | RefreshStarts
    | RefreshReads(ok: bool)
    | RefreshLands(creature: nat)
    | StoreCleared
    | EngageTap
    | EngageCleared(cleared: bool)
    | FightTap
    | Ability(affordable: bool, dot: nat, damage: nat)
    | BraceFires(strike: nat)
    | HoldFires
    | KillFires
    | Flee
    | AutoFlee
    | AutoResolve
    | CloseCombat
    | Minimize(on: bool)
    | Teardown
    | PlayerChanges(hero: Hero)

  const NO_KILL := KillBeat(false, None)
  const NO_BEAT := CounterBeat(false, false, NoTimer)
  const CLOSED := Screen(false, false)

  function Minus(a: nat, b: nat): (r: nat) {
    if a > b then a - b else 0
  }

  // ---- the handlers ----

  /** An outcome ends the open encounter, heals the player and closes the screens. */
  function End(s: Fight, kind: Kind): (s': Fight)
    requires s.encounter.Some?
  {
    s.(encounter := None, screen := CLOSED, ready := false, hero := s.hero.(hp := s.hero.maxHp),
       past := s.past.(outcomes := s.past.outcomes
                                   + [Outcome(s.encounter.value.number, s.encounter.value.foe, kind)]))
  }

  function HandleVictory(s: Fight, hasPlayer: bool): (s': Fight) {
    if s.encounter.None? || !hasPlayer || s.victoryProcessed then s
    else End(s, Won).(victoryProcessed := true, fleeProcessed := false, kill := NO_KILL, beat := NO_BEAT)
  }

  function ScheduleVictory(s: Fight): (s': Fight)
    requires s.encounter.Some?
  {
    if s.victoryProcessed || s.kill.pending then s
    else s.(kill := KillBeat(true, Some(s.encounter.value.number)))
  }

  function ScheduleCounterAttack(s: Fight): (s': Fight)
    requires s.encounter.Some?
  {
    if s.beat.pending then s
    else s.(beat := CounterBeat(true, true, Brace(s.encounter.value.obj, s.encounter.value.number)))
  }

  function CreatureHp(s: Fight, c: nat): (r: nat) {
    if c in s.hp then s.hp[c] else 0
  }

  /** An ability tap is let through to the rules of the turn. */
  predicate Accepts(s: Fight) {
    && s.encounter.Some? && s.hero.loaded && s.ready
    && !s.victoryProcessed && !s.kill.pending && !s.beat.pending
  }

  /** The turn is taken: the creature is hit and a new encounter object made. */
  function TakeTurn(s: Fight, c: nat, hp: nat): (s': Fight)
    requires s.encounter.Some?
  {
    s.(hp := s.hp[c := hp], encounter := Some(s.encounter.value.(obj := s.past.nextObj)),
       past := s.past.(nextObj := s.past.nextObj + 1, accepted := s.past.accepted + 1))
  }

  function HandleAbility(s: Fight, affordable: bool, dot: nat, damage: nat): (s': Fight) {
    if !Accepts(s) then s
    else
      var c := s.encounter.value.creature;
      if CreatureHp(s, c) == 0 then HandleVictory(s, true)
      else if !affordable then s
      else
        var afterDot := Minus(CreatureHp(s, c), dot);
        var afterHit := Minus(afterDot, damage);
        if afterDot == 0 then ScheduleVictory(s.(hp := s.hp[c := 0]))
        else if afterHit == 0 then ScheduleVictory(TakeTurn(s, c, 0))
        else ScheduleCounterAttack(TakeTurn(s, c, afterHit))
  }

  /** The brace ends: strike the encounter it was scheduled for, or none. */
  function Strike(s: Fight, damage: nat): (s': Fight)
    requires s.beat.timer.Brace?
  {
    if s.encounter.None? || s.encounter.value.obj != s.beat.timer.obj || !s.hero.loaded then s.(beat := NO_BEAT)
    else
      var hp := Minus(s.hero.hp, damage);
      var hit := s.(hero := s.hero.(hp := hp),
                    past := s.past.(strikes := s.past.strikes
                                    + [Landed(s.beat.timer.number, s.encounter.value.number)]));
      if hp == 0 then End(hit, Lost).(beat := NO_BEAT)
      else hit.(beat := s.beat.(timer := Hold))
  }

  function HandleFlee(s: Fight): (s': Fight) {
    if s.fleeProcessed || s.beat.pending then s
    else if s.encounter.Some? && s.hero.loaded then End(s, Fled).(fleeProcessed := true)
    else s.(fleeProcessed := true, encounter := None, screen := CLOSED, ready := false)
  }

  function HandleFight(s: Fight): (s': Fight) {
    if s.encounter.None? || !s.hero.loaded || s.hero.hp == 0 then s
    else if CreatureHp(s, s.encounter.value.creature) == 0 then HandleVictory(s, s.hero.loaded)
    else s.(screen := s.screen.(combatOpen := true), ready := true)
  }

  function PresentEncounter(s: Fight, c: nat, elite: bool, maxHp: nat): (s': Fight) {
    s.(encounter := Some(Encounter(s.past.nextObj, c, c, elite, s.past.presented)), hp := s.hp[c := maxHp],
       screen := CLOSED, victoryProcessed := false, fleeProcessed := false, ready := false, beat := NO_BEAT,
       past := s.past.(nextObj := s.past.nextObj + 1, presented := s.past.presented + 1))
  }

  /** engageHeldFoe once the stored foe is removed: the refs it resets, and no others. */
  function Engage(s: Fight): (s': Fight)
    requires s.engaging != []
  {
    s.(encounter := Some(s.engaging[0].(number := s.past.presented)), engaging := s.engaging[1..], screen := CLOSED,
       victoryProcessed := false, fleeProcessed := false, heldFoe := None, stored := None,
       past := s.past.(presented := s.past.presented + 1))
  }

  /** refreshHeldFoe once its read is answered: the foe found is put on the card as new objects. */
  function LandRefresh(s: Fight, c: nat): (s': Fight)
    requires s.refresh.Read?
  {
    match s.refresh.found
    case None => s.(refresh := Idle, heldFoe := None)
    case Some(f) =>
      s.(refresh := Idle, heldFoe := Some(Encounter(s.past.nextObj, c, f.foe, true, 0)), hp := s.hp[c := f.hp],
         past := s.past.(nextObj := s.past.nextObj + 1))
  }

  function ClearEncounter(s: Fight): (s': Fight) {
    s.(encounter := None, screen := CLOSED, ready := false, kill := NO_KILL, beat := NO_BEAT, heldFoe := None)
  }

  predicate Enabled(s: Fight, e: Event) {
    match e
    case Present(c, _, maxHp) => c !in s.hp && 0 < maxHp
    case HoldFoe(c, maxHp) => c !in s.hp && 0 < maxHp
    case HoldLands => s.holding != []
    case EngageCleared(_) => s.engaging != []
    case RefreshReads(_) => s.refresh.Reading?
    case RefreshLands(c) => s.refresh.Read? && c !in s.hp
    case BraceFires(_) => s.beat.timer.Brace?
    case HoldFires => s.beat.timer.Hold?
    case KillFires => s.kill.timer.Some?
    case _ => true
  }

  function Next(s: Fight, e: Event): (s': Fight)
    requires Enabled(s, e)
  {
    match e
    case Present(c, elite, maxHp) => PresentEncounter(s, c, elite, maxHp)
    // a foe that cannot be held, since one is stored already, is resolved passively
    case HoldFoe(c, maxHp) =>
      if s.stored.Some? then s
      else s.(holding := s.holding + [Encounter(s.past.nextObj, c, c, true, 0)], hp := s.hp[c := maxHp],
              stored := Some(StoredFoe(c, maxHp)), past := s.past.(nextObj := s.past.nextObj + 1))
    case HoldLands => s.(heldFoe := Some(s.holding[0]), holding := s.holding[1..])
    case RefreshStarts => if !s.refresh.Idle? || s.encounter.Some? then s else s.(refresh := Reading)
    // a failed read finds nothing
    case RefreshReads(ok) => s.(refresh := Read(if ok then s.stored else None))
    case RefreshLands(c) => LandRefresh(s, c)
    case StoreCleared => s.(stored := None)
    case EngageTap =>
      if s.heldFoe.None? || s.encounter.Some? then s else s.(engaging := s.engaging + [s.heldFoe.value])
    case EngageCleared(cleared) => if cleared then Engage(s) else s.(engaging := s.engaging[1..])
    case FightTap => HandleFight(s)
    case Ability(affordable, dot, damage) => HandleAbility(s, affordable, dot, damage)
    case BraceFires(strike) => Strike(s, strike)
    case HoldFires => s.(beat := NO_BEAT)
    case KillFires => HandleVictory(s.(kill := s.kill.(timer := None), screen := s.screen.(combatOpen := false)), true)
    case Flee => HandleFlee(s)
    case AutoFlee => if s.encounter.Some? && s.screen == Screen(false, true) then HandleFlee(s) else s
    case AutoResolve =>
      if !s.hero.loaded || s.encounter.None? || s.encounter.value.elite then s
      else HandleVictory(s.(screen := CLOSED), true)
    case CloseCombat => if s.beat.pending then s else s.(screen := s.screen.(combatOpen := false))
    case Minimize(on) => s.(screen := s.screen.(minimized := on))
    case Teardown => ClearEncounter(s)
    case PlayerChanges(hero) => s.(hero := hero)
  }

  /** A freshly mounted hook; a foe stored by an earlier launch may be waiting. */
  predicate Mounted(s: Fight) {
    && s.encounter.None? && !s.ready && !s.victoryProcessed && !s.fleeProcessed
    && s.kill == NO_KILL && s.beat == NO_BEAT
    && s.heldFoe.None? && s.engaging == [] && s.holding == [] && s.refresh.Idle? && s.past == Past(0, 0, [], 0, [])
    && (s.stored.Some? ==> s.stored.value.foe in s.hp)
  }

  ghost predicate IsRun(states: seq<Fight>, events: seq<Event>) {
    && |states| == |events| + 1 && Mounted(states[0])
    && forall i :: 0 <= i < |events| ==> Enabled(states[i], events[i]) && states[i + 1] == Next(states[i], events[i])
  }

  // ---- what every reachable state keeps ----

  /** The input freeze, the enemy-turn banner and an armed counter timer coincide. */
  predicate BeatsCoincide(b: CounterBeat) {
    b.pending == b.enemyTurn == !b.timer.NoTimer?
  }

  /** Each presented encounter has at most one outcome, and the open one has none yet. */
  ghost predicate OneOutcomeEach(p: Past, open: Option<Encounter>) {
    && (forall i, j :: 0 <= i < j < |p.outcomes| ==> p.outcomes[i].number != p.outcomes[j].number)
    && (forall i :: 0 <= i < |p.outcomes| ==> p.outcomes[i].number < p.presented)
    && (open.Some? ==> open.value.number < p.presented
                       && forall i :: 0 <= i < |p.outcomes| ==> p.outcomes[i].number != open.value.number)
  }

  /** Strikes landed on what they were scheduled for, no more than one for each accepted ability. */
  ghost predicate StrikesAccounted(p: Past, b: CounterBeat) {
    && (forall i :: 0 <= i < |p.strikes| ==> p.strikes[i].scheduled == p.strikes[i].struck)
    && |p.strikes| + (if b.timer.Brace? then 1 else 0) <= p.accepted
  }

  /** The creature of an encounter in play has hit points on record, and its object is not fresh. */
  predicate Known(s: Fight, e: Encounter) {
    e.creature in s.hp && e.foe in s.hp && e.obj < s.past.nextObj
  }

  /** A brace is pinned to one encounter object, which no held or engaged foe shares. */
  ghost predicate ObjectsDistinct(s: Fight) {
    && (s.encounter.Some? ==> Known(s, s.encounter.value))
    && (s.heldFoe.Some? ==> Known(s, s.heldFoe.value))
    && (s.stored.Some? ==> s.stored.value.foe in s.hp)
    && (s.refresh.Read? && s.refresh.found.Some? ==> s.refresh.found.value.foe in s.hp)
    && (forall i :: 0 <= i < |s.engaging| ==> Known(s, s.engaging[i]))
    && (forall i :: 0 <= i < |s.holding| ==> Known(s, s.holding[i]))
    && (s.beat.timer.Brace? ==>
          && s.beat.timer.obj < s.past.nextObj
          && (s.heldFoe.Some? ==> s.heldFoe.value.obj != s.beat.timer.obj)
          && (forall i :: 0 <= i < |s.engaging| ==> s.engaging[i].obj != s.beat.timer.obj)
          && (forall i :: 0 <= i < |s.holding| ==> s.holding[i].obj != s.beat.timer.obj)
          && (s.encounter.Some? && s.encounter.value.obj == s.beat.timer.obj ==>
                s.encounter.value.number == s.beat.timer.number))
  }

  ghost predicate Inv(s: Fight) {
    && BeatsCoincide(s.beat) && OneOutcomeEach(s.past, s.encounter) && StrikesAccounted(s.past, s.beat)
    && ObjectsDistinct(s)
    && (s.encounter.Some? ==> !s.victoryProcessed && !s.fleeProcessed)
  }

  lemma EndKeepsInv(s: Fight, kind: Kind)
    requires Inv(s) && s.encounter.Some?
    ensures Inv(End(s, kind))
  {
  }

  lemma NoBeatKeepsInv(s: Fight)
    requires Inv(s)
    ensures Inv(s.(beat := NO_BEAT))
  {
  }

  lemma VictoryKeepsInv(s: Fight, hasPlayer: bool)
    requires Inv(s)
    ensures Inv(HandleVictory(s, hasPlayer))
  {
  }

  lemma FleeKeepsInv(s: Fight)
    requires Inv(s)
    ensures Inv(HandleFlee(s))
  {
    if s.encounter.Some? && s.hero.loaded { EndKeepsInv(s, Fled); }
  }

  lemma StrikeKeepsInv(s: Fight, damage: nat)
    requires Inv(s) && s.beat.timer.Brace?
    ensures Inv(Strike(s, damage))
  {
    NoBeatKeepsInv(s);
    if s.encounter.Some? && s.encounter.value.obj == s.beat.timer.obj && s.hero.loaded {
      var hp := Minus(s.hero.hp, damage);
      var hit := s.(hero := s.hero.(hp := hp), beat := s.beat.(timer := Hold),
                    past := s.past.(strikes := s.past.strikes
                                    + [Landed(s.beat.timer.number, s.encounter.value.number)]));
      assert Inv(hit);
      EndKeepsInv(hit, Lost);
      NoBeatKeepsInv(End(hit, Lost));
    }
  }

  lemma SameOutcomes(p: Past, q: Past, open: Option<Encounter>, still: Option<Encounter>)
    requires OneOutcomeEach(p, open) && q.outcomes == p.outcomes && q.presented == p.presented
    requires still.Some? ==> open.Some? && still.value.number == open.value.number
    ensures OneOutcomeEach(q, still)
  {
  }

  lemma TurnKeepsInv(s: Fight, c: nat, hp: nat)
    requires Inv(s) && s.encounter.Some? && !s.beat.pending
    ensures Inv(TakeTurn(s, c, hp)) && Inv(ScheduleCounterAttack(TakeTurn(s, c, hp)))
    ensures Inv(ScheduleVictory(TakeTurn(s, c, hp)))
  {
    hide OneOutcomeEach;
    var t := TakeTurn(s, c, hp);
    assert OneOutcomeEach(t.past, t.encounter) by {
      SameOutcomes(s.past, t.past, s.encounter, t.encounter);
    }
  }

  lemma AbilityKeepsInv(s: Fight, affordable: bool, dot: nat, damage: nat)
    requires Inv(s)
    ensures Inv(HandleAbility(s, affordable, dot, damage))
  {
    if Accepts(s) {
      var c := s.encounter.value.creature;
      VictoryKeepsInv(s, true);
      TurnKeepsInv(s, c, Minus(Minus(CreatureHp(s, c), dot), damage));
      assert Inv(ScheduleVictory(s.(hp := s.hp[c := 0])));
    }
  }

  lemma PresentKeepsInv(s: Fight, c: nat, elite: bool, maxHp: nat)
    requires Inv(s) && Enabled(s, Present(c, elite, maxHp))
    ensures Inv(PresentEncounter(s, c, elite, maxHp))
  {
  }

  lemma HoldFoeKeepsInv(s: Fight, c: nat, maxHp: nat)
    requires Inv(s) && Enabled(s, HoldFoe(c, maxHp))
    ensures Inv(Next(s, HoldFoe(c, maxHp)))
  {
    hide OneOutcomeEach, StrikesAccounted;
    var t := Next(s, HoldFoe(c, maxHp));
    assert OneOutcomeEach(t.past, t.encounter) by {
      SameOutcomes(s.past, t.past, s.encounter, t.encounter);
    }
    assert StrikesAccounted(t.past, t.beat) by {
      SameStrikes(s.past, t.past, s.beat);
    }
  }

  lemma HoldLandsKeepsInv(s: Fight)
    requires Inv(s) && s.holding != []
    ensures Inv(Next(s, HoldLands))
  {
    hide OneOutcomeEach, StrikesAccounted;
    assert forall i :: 0 <= i < |s.holding[1..]| ==> s.holding[1..][i] == s.holding[i + 1];
  }

  lemma RefreshKeepsInv(s: Fight, c: nat)
    requires Inv(s) && s.refresh.Read? && c !in s.hp
    ensures Inv(LandRefresh(s, c))
  {
    hide OneOutcomeEach, StrikesAccounted;
    var t := LandRefresh(s, c);
    assert OneOutcomeEach(t.past, t.encounter) by {
      SameOutcomes(s.past, t.past, s.encounter, t.encounter);
    }
    assert StrikesAccounted(t.past, t.beat) by {
      SameStrikes(s.past, t.past, s.beat);
    }
  }

  lemma EngageTapKeepsInv(s: Fight)
    requires Inv(s)
    ensures Inv(Next(s, EngageTap))
  {
    hide OneOutcomeEach, StrikesAccounted;
  }

  lemma EngageKeepsInv(s: Fight)
    requires Inv(s) && s.engaging != []
    ensures Inv(Engage(s)) && Inv(s.(engaging := s.engaging[1..]))
  {
    hide StrikesAccounted;
    assert forall i :: 0 <= i < |s.engaging[1..]| ==> s.engaging[1..][i] == s.engaging[i + 1];
    assert StrikesAccounted(Engage(s).past, s.beat) by {
      SameStrikes(s.past, Engage(s).past, s.beat);
    }
  }

  lemma SameStrikes(p: Past, q: Past, b: CounterBeat)
    requires StrikesAccounted(p, b) && q.strikes == p.strikes && q.accepted == p.accepted
    ensures StrikesAccounted(q, b)
  {
  }

  /** The screens, the player and the kill beat are no part of the invariant. */
  lemma FrameKeepsInv(s: Fight, t: Fight)
    requires Inv(s)
    requires t == s.(screen := t.screen, hero := t.hero, ready := t.ready, kill := t.kill, refresh := t.refresh,
                     stored := t.stored)
    requires t.stored == s.stored || t.stored.None?
    requires t.refresh == s.refresh || t.refresh in {Idle, Reading, Read(None), Read(s.stored)}
    ensures Inv(t)
  {
  }

  lemma ClearKeepsInv(s: Fight)
    requires Inv(s)
    ensures Inv(ClearEncounter(s))
  {
    hide StrikesAccounted;
    NoBeatKeepsInv(s);
  }

  lemma QuietKeepsInv(s: Fight, e: Event)
    requires Inv(s) && Enabled(s, e)
    requires e.RefreshStarts? || e.RefreshReads? || e.StoreCleared? || e.CloseCombat? || e.Minimize? || e.PlayerChanges?
    ensures Inv(Next(s, e))
  {
    hide Inv;
    FrameKeepsInv(s, Next(s, e));
  }

  lemma StepKeepsInv(s: Fight, e: Event)
    requires Inv(s) && Enabled(s, e)
    ensures Inv(Next(s, e))
  {
    hide Inv;
    match e
    case Present(c, elite, maxHp) => PresentKeepsInv(s, c, elite, maxHp);
    case HoldFoe(c, maxHp) => HoldFoeKeepsInv(s, c, maxHp);
    case HoldLands => HoldLandsKeepsInv(s);
    case RefreshStarts => QuietKeepsInv(s, e);
    case RefreshReads(_) => QuietKeepsInv(s, e);
    case RefreshLands(c) => RefreshKeepsInv(s, c);
    case StoreCleared => QuietKeepsInv(s, e);
    case EngageTap => EngageTapKeepsInv(s);
    case EngageCleared(_) => EngageKeepsInv(s);
    case FightTap =>
      VictoryKeepsInv(s, s.hero.loaded);
      FrameKeepsInv(s, s.(screen := s.screen.(combatOpen := true), ready := true));
    case Ability(affordable, dot, damage) => AbilityKeepsInv(s, affordable, dot, damage);
    case BraceFires(strike) => StrikeKeepsInv(s, strike);
    case HoldFires => NoBeatKeepsInv(s);
    case KillFires =>
      var t := s.(kill := s.kill.(timer := None), screen := s.screen.(combatOpen := false));
      FrameKeepsInv(s, t);
      VictoryKeepsInv(t, true);
    case Flee => FleeKeepsInv(s);
    case AutoFlee => FleeKeepsInv(s);
    case AutoResolve =>
      FrameKeepsInv(s, s.(screen := CLOSED));
      VictoryKeepsInv(s.(screen := CLOSED), true);
    case CloseCombat => QuietKeepsInv(s, e);
    case Minimize(_) => QuietKeepsInv(s, e);
    case Teardown => ClearKeepsInv(s);
    case PlayerChanges(_) => QuietKeepsInv(s, e);
  }

  lemma {:induction false} RunKeepsInv(states: seq<Fight>, events: seq<Event>, i: nat)
    requires IsRun(states, events) && i < |states|
    ensures Inv(states[i])
  {
    if i > 0 {
      RunKeepsInv(states, events, i - 1);
      StepKeepsInv(states[i - 1], events[i - 1]);
    }
  }

  // ---- what the invariant promises ----

  function Count(outcomes: seq<Outcome>, kind: Kind): (n: nat) {
    if outcomes == [] then 0
    else Count(outcomes[..|outcomes| - 1], kind) + if outcomes[|outcomes| - 1].kind == kind then 1 else 0
  }

  lemma {:induction false} CountsAddUp(outcomes: seq<Outcome>)
    ensures Count(outcomes, Won) + Count(outcomes, Fled) + Count(outcomes, Lost) == |outcomes|
  {
    if outcomes != [] { CountsAddUp(outcomes[..|outcomes| - 1]); }
  }

  lemma {:induction false} DistinctBelow(xs: seq<nat>, n: nat)
    requires forall i :: 0 <= i < |xs| ==> xs[i] < n
    requires forall i, j :: 0 <= i < j < |xs| ==> xs[i] != xs[j]
    ensures |xs| <= n
    decreases n
  {
    if xs == [] {
    } else if k :| 0 <= k < |xs| && xs[k] == n - 1 {
      var rest := xs[..k] + xs[k + 1..];
      forall i | 0 <= i < |rest|
        ensures rest[i] < n - 1
      {
        var o := if i < k then i else i + 1;
        assert rest[i] == xs[o] && o != k;
      }
      DistinctBelow(rest, n - 1);
    } else {
      assert xs[0] < n;
      DistinctBelow(xs, n - 1);
    }
  }

  /** In every run, victories, flights and defeats together never outnumber the encounters presented,
      and each presented encounter ends at most once: its rewards are granted at most once. */
  lemma OutcomesBounded(states: seq<Fight>, events: seq<Event>, i: nat)
    requires IsRun(states, events) && i < |states|
    ensures var os := states[i].past.outcomes;
            && Count(os, Won) + Count(os, Fled) + Count(os, Lost) <= states[i].past.presented
            && forall a, b :: 0 <= a < b < |os| ==> os[a].number != os[b].number
  {
    RunKeepsInv(states, events, i);
    var os := states[i].past.outcomes;
    CountsAddUp(os);
    DistinctBelow(seq(|os|, k requires 0 <= k < |os| => os[k].number), states[i].past.presented);
  }

  /** While the counter beat is armed, no ability, flee or close is accepted. */
  lemma FrozenDuringBeat(states: seq<Fight>, events: seq<Event>, i: nat, affordable: bool, dot: nat, damage: nat)
    requires IsRun(states, events) && i < |states| && !states[i].beat.timer.NoTimer?
    ensures states[i].beat.pending && states[i].beat.enemyTurn
    ensures var s := states[i];
            && Next(s, Ability(affordable, dot, damage)) == s && Next(s, Flee) == s && Next(s, AutoFlee) == s
            && Next(s, CloseCombat) == s
  {
    RunKeepsInv(states, events, i);
  }

  /** Timer firings left until input is released. */
  function FiringsLeft(t: Timer): (n: nat) {
    match t
    case NoTimer => 0
    case Brace(_, _) => 2
    case Hold => 1
  }

  /** At most two timer firings release input: each firing brings the release nearer, and no other
      event delays it. */
  lemma BeatEnds(s: Fight, e: Event)
    requires Inv(s) && Enabled(s, e) && s.beat.pending
    ensures FiringsLeft(Next(s, e).beat.timer) <= FiringsLeft(s.beat.timer) <= 2
    ensures e.BraceFires? || e.HoldFires? ==> FiringsLeft(Next(s, e).beat.timer) < FiringsLeft(s.beat.timer)
    ensures Next(s, e).beat.pending <==> FiringsLeft(Next(s, e).beat.timer) > 0
  {
    StepKeepsInv(s, e);
  }

  /** Strikes land only on the encounter they were scheduled for, at most one for each ability. */
  lemma StrikesLandWhereScheduled(states: seq<Fight>, events: seq<Event>, i: nat)
    requires IsRun(states, events) && i < |states|
    ensures |states[i].past.strikes| <= states[i].past.accepted
    ensures forall k :: 0 <= k < |states[i].past.strikes| ==>
              states[i].past.strikes[k].scheduled == states[i].past.strikes[k].struck
  {
    RunKeepsInv(states, events, i);
  }

  // ---- the kill beat ----

  /** A pending kill belongs to the open encounter, whose creature is down, and will be resolved. */
  predicate KillBeatSound(s: Fight) {
    && (s.kill.timer.Some? ==> s.kill.pending)
    && (s.kill.pending ==>
          && s.encounter.Some? && s.kill.timer == Some(s.encounter.value.number)
          && CreatureHp(s, s.encounter.value.creature) == 0 && !s.beat.pending)
  }

  /** The open encounter is left or replaced while its kill beat runs. */
  predicate KillHazard(s: Fight, e: Event) {
    s.kill.pending && (e.Flee? || (e.AutoFlee? && s.screen == Screen(false, true)) || e.Present?
                       || (e.EngageCleared? && e.cleared))
  }

  /** The kill beat stays sound exactly when the encounter is not left or replaced during it. */
  lemma KillBeatSoundIff(s: Fight, e: Event)
    requires Inv(s) && Enabled(s, e) && KillBeatSound(s)
    ensures KillBeatSound(Next(s, e)) <==> !KillHazard(s, e)
  {
    assert s.encounter.Some? ==> s.encounter.value.number < s.past.presented && s.encounter.value.creature in s.hp;
    hide Next, KillBeatSound, OneOutcomeEach, StrikesAccounted, ObjectsDistinct;
    if e.Ability? {
      AbilityKeepsKillBeat(s, e.affordable, e.dot, e.damage);
    } else if e.BraceFires? {
      StrikeKeepsKillBeat(s, e.strike);
    } else if e.FightTap? || e.KillFires? || e.AutoResolve? {
      VictoryKeepsKillBeat(s, e);
    } else if e.Flee? || e.AutoFlee? {
      FleeKillBeatIff(s, e);
    } else if e.Present? {
      PresentKillBeatIff(s, e.creature, e.elite, e.maxHp);
    } else if e.EngageCleared? {
      EngageKillBeatIff(s, e.cleared);
    } else {
      OthersKeepKillBeat(s, e);
    }
  }

  lemma VictoryKeepsKillBeat(s: Fight, e: Event)
    requires Enabled(s, e) && KillBeatSound(s) && (s.encounter.Some? ==> !s.victoryProcessed)
    requires e.FightTap? || e.KillFires? || e.AutoResolve?
    ensures KillBeatSound(Next(s, e))
  {
  }

  lemma FleeKillBeatIff(s: Fight, e: Event)
    requires KillBeatSound(s) && (s.encounter.Some? ==> !s.fleeProcessed) && (e.Flee? || e.AutoFlee?)
    ensures KillBeatSound(Next(s, e)) <==> !KillHazard(s, e)
  {
  }

  lemma OthersKeepKillBeat(s: Fight, e: Event)
    requires Enabled(s, e) && KillBeatSound(s) && !e.Ability? && !e.BraceFires? && !e.FightTap? && !e.KillFires?
    requires !e.AutoResolve? && !e.Flee? && !e.AutoFlee? && !e.Present? && !e.EngageCleared?
    requires s.encounter.Some? ==> s.encounter.value.creature in s.hp
    ensures KillBeatSound(Next(s, e))
  {
    hide HandleAbility, Strike, HandleVictory, HandleFlee, PresentEncounter, Engage;
  }

  lemma PresentKillBeatIff(s: Fight, c: nat, elite: bool, maxHp: nat)
    requires Enabled(s, Present(c, elite, maxHp)) && KillBeatSound(s)
    requires s.encounter.Some? ==> s.encounter.value.number < s.past.presented
    ensures KillBeatSound(Next(s, Present(c, elite, maxHp))) <==> !s.kill.pending
  {
  }

  lemma EngageKillBeatIff(s: Fight, cleared: bool)
    requires Enabled(s, EngageCleared(cleared)) && KillBeatSound(s)
    requires s.encounter.Some? ==> s.encounter.value.number < s.past.presented
    ensures KillBeatSound(Next(s, EngageCleared(cleared))) <==> !(s.kill.pending && cleared)
  {
  }

  lemma AbilityKeepsKillBeat(s: Fight, affordable: bool, dot: nat, damage: nat)
    requires KillBeatSound(s)
    ensures KillBeatSound(Next(s, Ability(affordable, dot, damage)))
  {
  }

  lemma StrikeKeepsKillBeat(s: Fight, damage: nat)
    requires KillBeatSound(s) && s.beat.timer.Brace? && s.beat.pending
    ensures KillBeatSound(Next(s, BraceFires(damage)))
  {
  }

  /** In a run whose kill beats are never left, every victory a kill timer grants was earned: it goes
      to the encounter the timer was set for, whose creature is down. */
  lemma KillVictoriesEarned(states: seq<Fight>, events: seq<Event>, i: nat)
    requires IsRun(states, events) && i < |events| && events[i].KillFires?
    requires forall k :: 0 <= k < i ==> !KillHazard(states[k], events[k])
    ensures var s, t := states[i], states[i + 1];
            && s.encounter.Some? && s.kill.timer == Some(s.encounter.value.number)
            && CreatureHp(s, s.encounter.value.creature) == 0
            && t.past.outcomes == s.past.outcomes + [Outcome(s.encounter.value.number, s.encounter.value.foe, Won)]
  {
    RunKeepsKillBeat(states, events, i);
    RunKeepsInv(states, events, i);
  }

  lemma {:induction false} RunKeepsKillBeat(states: seq<Fight>, events: seq<Event>, i: nat)
    requires IsRun(states, events) && i < |states|
    requires forall k :: 0 <= k < i ==> !KillHazard(states[k], events[k])
    ensures KillBeatSound(states[i])
  {
    if i > 0 {
      RunKeepsKillBeat(states, events, i - 1);
      RunKeepsInv(states, events, i - 1);
      KillBeatSoundIff(states[i - 1], events[i - 1]);
    }
  }

  /** Fleeing during a kill beat and meeting the next encounter before its timer fires wins that
      encounter, with its creature untouched. */
  lemma FleeInKillBeatWinsNextEncounter(s: Fight, c: nat, elite: bool, maxHp: nat)
    requires Inv(s) && KillBeatSound(s) && s.kill.pending && Enabled(s, Present(c, elite, maxHp))
    ensures var s2 := Next(Next(s, Flee), Present(c, elite, maxHp));
            && Enabled(s2, KillFires) && s2.encounter.Some? && s2.encounter.value.creature == c
            && var s3 := Next(s2, KillFires);
               && s3.past.outcomes == s2.past.outcomes + [Outcome(s2.encounter.value.number, c, Won)]
               && CreatureHp(s3, c) == maxHp > 0
  {
  }

  /** The kill guard is set but no timer will clear it. */
  predicate Stuck(s: Fight) {
    s.kill == KillBeat(true, None)
  }

  /** Fleeing during a kill beat and meeting nothing before its timer fires leaves the guard stuck. */
  lemma FleeInKillBeatSticks(s: Fight)
    requires Inv(s) && KillBeatSound(s) && s.kill.pending
    ensures Enabled(Next(s, Flee), KillFires) && Stuck(Next(Next(s, Flee), KillFires))
  {
  }

  /** A stuck guard refuses every ability of every later encounter, until a victory that needs no
      ability or a teardown. */
  lemma StuckRefusesAbilities(s: Fight, e: Event)
    requires Stuck(s) && Enabled(s, e)
    ensures e.Ability? ==> Next(s, e) == s
    ensures Stuck(Next(s, e)) <==> !e.Teardown? && Count(Next(s, e).past.outcomes, Won) == Count(s.past.outcomes, Won)
  {
    hide Count, HandleAbility, Strike, HandleFlee, HandleVictory;
    if e.Ability? {
      StuckRefuses(s, e.affordable, e.dot, e.damage);
    } else if e.BraceFires? {
      StrikeWinsNothing(s, e.strike);
    } else if e.Flee? || e.AutoFlee? {
      FleeWinsNothing(s);
    } else if e.FightTap? {
      VictoryCounted(s, s.hero.loaded);
    } else if e.AutoResolve? {
      VictoryCounted(s.(screen := CLOSED), true);
    }
  }

  lemma VictoryCounted(s: Fight, hasPlayer: bool)
    ensures var t := HandleVictory(s, hasPlayer);
            if s.encounter.None? || !hasPlayer || s.victoryProcessed then t == s
            else t.kill == NO_KILL && Count(t.past.outcomes, Won) == Count(s.past.outcomes, Won) + 1
  {
    if s.encounter.Some? {
      CountAppend(s.past.outcomes, Outcome(s.encounter.value.number, s.encounter.value.foe, Won), Won);
    }
  }

  lemma StuckRefuses(s: Fight, affordable: bool, dot: nat, damage: nat)
    requires Stuck(s)
    ensures HandleAbility(s, affordable, dot, damage) == s
  {
  }

  lemma StrikeWinsNothing(s: Fight, damage: nat)
    requires s.beat.timer.Brace?
    ensures var t := Strike(s, damage);
            t.kill == s.kill && Count(t.past.outcomes, Won) == Count(s.past.outcomes, Won)
  {
    hide Count;
    var os, t := s.past.outcomes, Strike(s, damage);
    if t.past.outcomes != os { CountAppend(os, t.past.outcomes[|os|], Won); }
  }

  lemma FleeWinsNothing(s: Fight)
    ensures var t := HandleFlee(s);
            t.kill == s.kill && Count(t.past.outcomes, Won) == Count(s.past.outcomes, Won)
  {
    hide Count;
    var os, t := s.past.outcomes, HandleFlee(s);
    if t.past.outcomes != os { CountAppend(os, t.past.outcomes[|os|], Won); }
  }

  lemma CountAppend(os: seq<Outcome>, o: Outcome, kind: Kind)
    ensures Count(os + [o], kind) == Count(os, kind) + if o.kind == kind then 1 else 0
  {
    assert (os + [o])[..|os|] == os;
  }

  // ---- each foe is won once ----

  predicate Engaging(s: Fight, f: nat) {
    exists i :: 0 <= i < |s.engaging| && s.engaging[i].foe == f
  }

  /** The foe is stored, held, or waits to be engaged. */
  predicate Kept(s: Fight, f: nat) {
    (s.stored.Some? && s.stored.value.foe == f) || (s.heldFoe.Some? && s.heldFoe.value.foe == f) || Engaging(s, f)
  }

  /** No two outcomes are of one foe, and no foe that has one can come up again. */
  ghost predicate FoesDistinct(s: Fight) {
    && (forall i, j :: 0 <= i < j < |s.past.outcomes| ==> s.past.outcomes[i].foe != s.past.outcomes[j].foe)
    && (forall i :: 0 <= i < |s.past.outcomes| ==> s.past.outcomes[i].foe in s.hp && !Kept(s, s.past.outcomes[i].foe))
    && (forall i, j :: 0 <= i < j < |s.engaging| ==> s.engaging[i].foe != s.engaging[j].foe)
    && (s.encounter.Some? ==>
          && !Kept(s, s.encounter.value.foe)
          && forall i :: 0 <= i < |s.past.outcomes| ==> s.past.outcomes[i].foe != s.encounter.value.foe)
  }

  /** An engage tap while the held foe already waits to be engaged. */
  predicate DoubleTap(s: Fight, e: Event) {
    e.EngageTap? && s.encounter.None? && s.heldFoe.Some? && Engaging(s, s.heldFoe.value.foe)
  }

  /** A foe is put on the card that is being fought or has been: a refresh found it, or it was held, before it
      was engaged. */
  predicate StaleCard(s: Fight, e: Event) {
    || (e.RefreshLands? && s.refresh.Read? && s.refresh.found.Some? && Met(s, s.refresh.found.value.foe))
    || (e.HoldLands? && s.holding != [] && Met(s, s.holding[0].foe))
  }

  predicate Met(s: Fight, f: nat) {
    || (s.encounter.Some? && s.encounter.value.foe == f)
    || exists i :: 0 <= i < |s.past.outcomes| && s.past.outcomes[i].foe == f
  }

  lemma EndKeepsFoes(s: Fight, kind: Kind)
    requires FoesDistinct(s) && ObjectsDistinct(s) && s.encounter.Some?
    ensures FoesDistinct(End(s, kind))
  {
    var t := End(s, kind);
    assert forall f :: Kept(t, f) == Kept(s, f);
  }

  /** Steps that leave the foes and the record of outcomes alone. */
  lemma FoesFrame(s: Fight, t: Fight)
    requires FoesDistinct(s) && t.heldFoe == s.heldFoe && t.engaging == s.engaging && t.past.outcomes == s.past.outcomes
    requires s.hp.Keys <= t.hp.Keys && t.stored == s.stored
    requires t.encounter.Some? ==> s.encounter.Some? && t.encounter.value.foe == s.encounter.value.foe
    ensures FoesDistinct(t)
  {
    assert forall f :: Kept(t, f) == Kept(s, f);
  }

  lemma VictoryKeepsFoes(s: Fight, hasPlayer: bool)
    requires FoesDistinct(s) && ObjectsDistinct(s)
    ensures FoesDistinct(HandleVictory(s, hasPlayer))
  {
    if s.encounter.Some? && hasPlayer && !s.victoryProcessed {
      EndKeepsFoes(s, Won);
      FoesFrame(End(s, Won), HandleVictory(s, hasPlayer));
    }
  }

  lemma FleeKeepsFoes(s: Fight)
    requires FoesDistinct(s) && ObjectsDistinct(s)
    ensures FoesDistinct(HandleFlee(s))
  {
    if s.encounter.Some? && s.hero.loaded && !s.fleeProcessed && !s.beat.pending {
      EndKeepsFoes(s, Fled);
      FoesFrame(End(s, Fled), HandleFlee(s));
    } else {
      FoesFrame(s, HandleFlee(s));
    }
  }

  lemma StrikeKeepsFoes(s: Fight, damage: nat)
    requires FoesDistinct(s) && ObjectsDistinct(s) && Enabled(s, BraceFires(damage))
    ensures FoesDistinct(Next(s, BraceFires(damage)))
  {
    hide FoesDistinct, ObjectsDistinct;
    var t := Strike(s, damage);
    if s.encounter.None? || s.encounter.value.obj != s.beat.timer.obj || !s.hero.loaded || s.hero.hp > damage {
      FoesFrame(s, t);
    } else {
      EndKeepsFoes(s, Lost);
      FoesFrame(End(s, Lost), t);
    }
  }

  lemma AbilityKeepsFoes(s: Fight, affordable: bool, dot: nat, damage: nat)
    requires FoesDistinct(s) && ObjectsDistinct(s)
    ensures FoesDistinct(Next(s, Ability(affordable, dot, damage)))
  {
    hide FoesDistinct, ObjectsDistinct;
    var t := HandleAbility(s, affordable, dot, damage);
    VictoryKeepsFoes(s, true);
    if t.past.outcomes == s.past.outcomes {
      FoesFrame(s, t);
    }
  }

  lemma PresentKeepsFoes(s: Fight, c: nat, elite: bool, maxHp: nat)
    requires FoesDistinct(s) && ObjectsDistinct(s) && Enabled(s, Present(c, elite, maxHp))
    ensures FoesDistinct(Next(s, Present(c, elite, maxHp)))
  {
    var t := PresentEncounter(s, c, elite, maxHp);
    assert forall f :: Kept(t, f) == Kept(s, f);
  }

  lemma HoldFoeKeepsFoes(s: Fight, c: nat, maxHp: nat)
    requires FoesDistinct(s) && ObjectsDistinct(s) && Enabled(s, HoldFoe(c, maxHp))
    ensures FoesDistinct(Next(s, HoldFoe(c, maxHp)))
  {
    var t := Next(s, HoldFoe(c, maxHp));
    assert forall f :: Kept(t, f) ==> Kept(s, f) || f == c;
  }

  /** Fewer foes kept. */
  lemma FewerKept(s: Fight, t: Fight)
    requires FoesDistinct(s) && t.engaging == s.engaging && t.past.outcomes == s.past.outcomes && s.hp.Keys <= t.hp.Keys
    requires t.encounter.Some? ==> t.encounter == s.encounter
    requires forall f :: Kept(t, f) ==> Kept(s, f)
    ensures FoesDistinct(t)
  {
  }

  lemma MetKeptOverlap(s: Fight, f: nat)
    requires Met(s, f) && Kept(s, f)
    ensures !FoesDistinct(s)
  {
  }

  lemma NoneFoundKeepsFoes(s: Fight, c: nat)
    requires FoesDistinct(s) && s.refresh == Read(None)
    ensures FoesDistinct(LandRefresh(s, c))
  {
    FewerKept(s, LandRefresh(s, c));
  }

  /** A foe is put on the card and nothing else comes up. */
  lemma CardFoesIff(s: Fight, t: Fight)
    requires FoesDistinct(s) && t.heldFoe.Some? && t.engaging == s.engaging && t.stored == s.stored
    requires t.encounter == s.encounter && t.past.outcomes == s.past.outcomes && s.hp.Keys <= t.hp.Keys
    ensures FoesDistinct(t) <==> !Met(s, t.heldFoe.value.foe)
  {
    var f := t.heldFoe.value.foe;
    assert Kept(t, f);
    if Met(s, f) {
      MetKeptOverlap(t, f);
    } else {
      assert forall g :: Kept(t, g) ==> Kept(s, g) || g == f;
    }
  }

  lemma HoldLandsFoesIff(s: Fight)
    requires FoesDistinct(s) && Enabled(s, HoldLands)
    ensures FoesDistinct(Next(s, HoldLands)) <==> !StaleCard(s, HoldLands)
  {
    hide FoesDistinct, Met;
    CardFoesIff(s, Next(s, HoldLands));
  }

  lemma RefreshFoesIff(s: Fight, c: nat)
    requires FoesDistinct(s) && Enabled(s, RefreshLands(c))
    ensures FoesDistinct(Next(s, RefreshLands(c))) <==> !StaleCard(s, RefreshLands(c))
  {
    hide FoesDistinct, Kept, Met;
    if s.refresh.found.None? {
      NoneFoundKeepsFoes(s, c);
    } else {
      CardFoesIff(s, LandRefresh(s, c));
    }
  }

  lemma EngageTapFoesIff(s: Fight)
    requires FoesDistinct(s)
    ensures FoesDistinct(Next(s, EngageTap)) <==> !DoubleTap(s, EngageTap)
  {
    var t := Next(s, EngageTap);
    forall f ensures Kept(t, f) == Kept(s, f) {
      if i :| 0 <= i < |s.engaging| && s.engaging[i].foe == f { assert t.engaging[i] == s.engaging[i]; }
    }
    if DoubleTap(s, EngageTap) {
      var i :| 0 <= i < |s.engaging| && s.engaging[i].foe == s.heldFoe.value.foe;
      assert t.engaging[i] == s.engaging[i] && t.engaging[|s.engaging|] == s.heldFoe.value;
    }
  }

  lemma EngageKeepsFoes(s: Fight, cleared: bool)
    requires FoesDistinct(s) && Enabled(s, EngageCleared(cleared))
    ensures FoesDistinct(Next(s, EngageCleared(cleared)))
  {
    var rest := s.engaging[1..];
    assert forall i :: 0 <= i < |rest| ==> rest[i] == s.engaging[i + 1];
    var t := s.(engaging := rest);
    assert forall f :: Kept(t, f) ==> Kept(s, f);
    assert Kept(s, s.engaging[0].foe);
    var u := Engage(s);
    forall f | Kept(u, f) ensures Kept(s, f) && f != s.engaging[0].foe {
      var i :| 0 <= i < |rest| && rest[i].foe == f;
    }
  }

  lemma StoreClearedKeepsFoes(s: Fight)
    requires FoesDistinct(s)
    ensures FoesDistinct(Next(s, StoreCleared))
  {
    FewerKept(s, s.(stored := None));
  }

  lemma ClearKeepsFoes(s: Fight)
    requires FoesDistinct(s)
    ensures FoesDistinct(Next(s, Teardown))
  {
    FewerKept(s, ClearEncounter(s));
  }

  /** A tap, timer or resolution of the fight itself keeps the foes apart. */
  lemma FightKeepsFoes(s: Fight, e: Event)
    requires ObjectsDistinct(s) && FoesDistinct(s) && Enabled(s, e)
    requires e.FightTap? || e.KillFires? || e.AutoResolve? || e.Flee? || e.AutoFlee?
    ensures FoesDistinct(Next(s, e))
  {
    hide FoesDistinct, ObjectsDistinct, HandleVictory, HandleFlee;
    match e
    case FightTap =>
      VictoryKeepsFoes(s, s.hero.loaded);
      FoesFrame(s, s.(screen := s.screen.(combatOpen := true), ready := true));
    case KillFires =>
      var t := s.(kill := s.kill.(timer := None), screen := s.screen.(combatOpen := false));
      FoesFrame(s, t);
      ObjectsFrame(s, t);
      VictoryKeepsFoes(t, true);
    case AutoResolve =>
      FoesFrame(s, s.(screen := CLOSED));
      ObjectsFrame(s, s.(screen := CLOSED));
      VictoryKeepsFoes(s.(screen := CLOSED), true);
    case _ => FleeKeepsFoes(s);
  }

  lemma OthersKeepFoes(s: Fight, e: Event)
    requires FoesDistinct(s) && Enabled(s, e)
    requires e.RefreshStarts? || e.RefreshReads? || e.HoldFires? || e.CloseCombat? || e.Minimize? || e.PlayerChanges?
    ensures FoesDistinct(Next(s, e))
  {
    hide FoesDistinct;
    FoesFrame(s, Next(s, e));
  }

  /** A step keeps the foes apart exactly when it is no double engage tap and puts no foe on the card that has
      been engaged. */
  lemma FoesDistinctIff(s: Fight, e: Event)
    requires Inv(s) && FoesDistinct(s) && Enabled(s, e)
    ensures FoesDistinct(Next(s, e)) <==> !DoubleTap(s, e) && !StaleCard(s, e)
  {
    assert !e.EngageTap? ==> !DoubleTap(s, e);
    assert !e.RefreshLands? && !e.HoldLands? ==> !StaleCard(s, e);
    hide FoesDistinct, ObjectsDistinct, OneOutcomeEach, StrikesAccounted, DoubleTap, StaleCard, Next;
    match e
    case Present(c, elite, maxHp) => PresentKeepsFoes(s, c, elite, maxHp);
    case HoldFoe(c, maxHp) => HoldFoeKeepsFoes(s, c, maxHp);
    case HoldLands => HoldLandsFoesIff(s);
    case RefreshLands(c) => RefreshFoesIff(s, c);
    case StoreCleared => StoreClearedKeepsFoes(s);
    case EngageTap => EngageTapFoesIff(s);
    case EngageCleared(cleared) => EngageKeepsFoes(s, cleared);
    case Ability(affordable, dot, damage) => AbilityKeepsFoes(s, affordable, dot, damage);
    case BraceFires(strike) => StrikeKeepsFoes(s, strike);
    case FightTap => FightKeepsFoes(s, e);
    case KillFires => FightKeepsFoes(s, e);
    case Flee => FightKeepsFoes(s, e);
    case AutoFlee => FightKeepsFoes(s, e);
    case AutoResolve => FightKeepsFoes(s, e);
    case Teardown => ClearKeepsFoes(s);
    case _ => OthersKeepFoes(s, e);
  }

  lemma ObjectsFrame(s: Fight, t: Fight)
    requires ObjectsDistinct(s) && t == s.(screen := t.screen, kill := t.kill)
    ensures ObjectsDistinct(t)
  {
  }

  lemma {:induction false} RunKeepsFoes(states: seq<Fight>, events: seq<Event>, i: nat)
    requires IsRun(states, events) && i < |states|
    requires forall k :: 0 <= k < i ==> !DoubleTap(states[k], events[k]) && !StaleCard(states[k], events[k])
    ensures FoesDistinct(states[i])
  {
    hide Next, DoubleTap, StaleCard;
    if i > 0 {
      RunKeepsFoes(states, events, i - 1);
      RunKeepsInv(states, events, i - 1);
      FoesDistinctIff(states[i - 1], events[i - 1]);
    }
  }

  /** In every run without a double engage tap or a stale card each foe is won, fled from or lost to at most
      once, whether or not it was held, stored and loaded again. */
  lemma EachFoeOnce(states: seq<Fight>, events: seq<Event>, i: nat)
    requires IsRun(states, events) && i < |states|
    requires forall k :: 0 <= k < i ==> !DoubleTap(states[k], events[k]) && !StaleCard(states[k], events[k])
    ensures var os := states[i].past.outcomes;
            forall a, b :: 0 <= a < b < |os| ==> os[a].foe != os[b].foe
  {
    RunKeepsFoes(states, events, i);
  }

  ghost predicate Reaches(s: Fight, events: seq<Event>, t: Fight)
    decreases |events|
  {
    if events == [] then s == t else Enabled(s, events[0]) && Reaches(Next(s, events[0]), events[1..], t)
  }

  lemma {:induction false} ReachesThrough(s: Fight, events: seq<Event>, m: Fight, more: seq<Event>, t: Fight)
    requires Reaches(s, events, m) && Reaches(m, more, t)
    ensures Reaches(s, events + more, t)
    decreases |events|
  {
    if events == [] {
      assert events + more == more;
    } else {
      ReachesThrough(Next(s, events[0]), events[1..], m, more, t);
      assert (events + more)[1..] == events[1..] + more;
    }
  }

  lemma ReachesOne(s: Fight, e: Event)
    requires Enabled(s, e)
    ensures Reaches(s, [e], Next(s, e))
  {
  }

  /** The player can act and nothing is under way. */
  predicate AtRest(s: Fight) {
    && s.encounter.None? && s.engaging == [] && s.hero.loaded && 0 < s.hero.hp <= s.hero.maxHp
    && s.kill == NO_KILL && s.beat == NO_BEAT
  }

  /** The same but for the encounter just presented and what waits to be engaged. */
  predicate Presented(s: Fight, e: Encounter, t: Fight) {
    && t.encounter == Some(e.(number := s.past.presented)) && !t.victoryProcessed && !t.fleeProcessed
    && t.hp == s.hp && t.hero == s.hero && t.kill == s.kill && t.beat == s.beat
    && t.refresh == s.refresh && t.holding == s.holding && t.past == s.past.(presented := s.past.presented + 1)
  }

  lemma TapWaits(s: Fight)
    requires s.heldFoe.Some? && s.encounter.None?
    ensures Next(s, EngageTap) == s.(engaging := s.engaging + [s.heldFoe.value])
  {
  }

  lemma EngagesFirst(s: Fight)
    requires s.engaging != []
    ensures var t := Next(s, EngageCleared(true));
            Presented(s, s.engaging[0], t) && t.engaging == s.engaging[1..]
  {
  }

  /** Two engage taps before the stored foe is removed present it and leave it waiting. */
  lemma FoeEngagedTwice(s: Fight) returns (events: seq<Event>, t: Fight)
    requires s.heldFoe.Some? && s.encounter.None? && s.engaging == []
    ensures Reaches(s, events, t) && Presented(s, s.heldFoe.value, t) && t.engaging == [s.heldFoe.value]
  {
    hide Reaches, Next;
    var s0, s1 := Next(s, EngageTap), Next(Next(s, EngageTap), EngageTap);
    TapWaits(s);
    TapWaits(s0);
    assert s1.engaging == [s.heldFoe.value, s.heldFoe.value];
    t := Next(s1, EngageCleared(true));
    EngagesFirst(s1);
    events := Three(s, EngageTap, EngageTap, EngageCleared(true));
  }

  lemma Two(s: Fight, a: Event, b: Event) returns (events: seq<Event>)
    requires Enabled(s, a) && Enabled(Next(s, a), b)
    ensures Reaches(s, events, Next(Next(s, a), b))
  {
    hide Next, Enabled, Reaches;
    ReachesOne(s, a);
    ReachesOne(Next(s, a), b);
    ReachesThrough(s, [a], Next(s, a), [b], Next(Next(s, a), b));
    events := [a] + [b];
  }

  lemma Three(s: Fight, a: Event, b: Event, c: Event) returns (events: seq<Event>)
    requires Enabled(s, a) && Enabled(Next(s, a), b) && Enabled(Next(Next(s, a), b), c)
    ensures Reaches(s, events, Next(Next(Next(s, a), b), c))
  {
    hide Next, Enabled, Reaches;
    var m := Next(Next(s, a), b);
    events := Two(s, a, b);
    ReachesOne(m, c);
    ReachesThrough(s, events, m, [c], Next(m, c));
    events := events + [c];
  }

  /** What a victory by one ability leaves. */
  predicate Killed(s: Fight, t: Fight)
    requires s.encounter.Some?
  {
    var e := s.encounter.value;
    && t.past == s.past.(outcomes := s.past.outcomes + [Outcome(e.number, e.foe, Won)])
    && t.encounter.None? && t.kill == NO_KILL && t.beat == NO_BEAT && t.hero == s.hero.(hp := s.hero.maxHp)
    && t.hp == s.hp[e.creature := 0] && t.engaging == s.engaging && t.refresh == s.refresh && t.holding == s.holding
  }

  /** An engaged foe is taken down by one ability and its kill timer fires. */
  lemma KilledAtOnce(s: Fight) returns (events: seq<Event>, t: Fight)
    requires s.encounter.Some? && s.hero.loaded && 0 < s.hero.hp <= s.hero.maxHp
    requires s.kill == NO_KILL && s.beat == NO_BEAT
    requires 0 < CreatureHp(s, s.encounter.value.creature) && !s.victoryProcessed
    ensures Reaches(s, events, t) && Killed(s, t)
  {
    hide Reaches;
    var kill := Ability(true, CreatureHp(s, s.encounter.value.creature), 0);
    var s1 := Next(s, FightTap);
    var s2 := Next(s1, kill);
    assert s2.kill == KillBeat(true, Some(s.encounter.value.number));
    t := Next(s2, KillFires);
    events := Three(s, FightTap, kill, KillFires);
  }

  /** A foe that is already down when it is engaged is won by opening it. */
  lemma WonByOpening(s: Fight) returns (events: seq<Event>, t: Fight)
    requires s.engaging != [] && CreatureHp(s, s.engaging[0].creature) == 0 && s.hero.loaded && 0 < s.hero.hp
    ensures Reaches(s, events, t)
    ensures t.past.outcomes == s.past.outcomes + [Outcome(s.past.presented, s.engaging[0].foe, Won)]
  {
    hide Reaches;
    var m := Next(s, EngageCleared(true));
    t := Next(m, FightTap);
    events := Two(s, EngageCleared(true), FightTap);
  }

  /** The foe ends twice, won both times. */
  predicate WonTwice(s: Fight, f: nat, t: Fight) {
    var n := s.past.presented;
    t.past.outcomes == s.past.outcomes + [Outcome(n, f, Won), Outcome(n + 1, f, Won)]
  }

  /** After a double tap and the first win, the second presentation of the same, already defeated creature
      is won by opening it. */
  lemma SameFoeWonTwice(s: Fight) returns (events: seq<Event>, t: Fight)
    requires s.heldFoe.Some? && AtRest(s) && 0 < CreatureHp(s, s.heldFoe.value.creature)
    ensures Reaches(s, events, t) && WonTwice(s, s.heldFoe.value.foe, t)
  {
    hide Next, Enabled, Reaches;
    var engaging, s1 := FoeEngagedTwice(s);
    var killing, s2 := KilledAtOnce(s1);
    var opening, s3 := WonByOpening(s2);
    ReachesThrough(s, engaging, s1, killing, s2);
    ReachesThrough(s, engaging + killing, s2, opening, s3);
    events, t := engaging + killing + opening, s3;
  }

  /** What fighting the foe on the card to its end leaves. */
  predicate Fought(s: Fight, t: Fight)
    requires s.heldFoe.Some?
  {
    var e := s.heldFoe.value;
    && AtRest(t) && t.hp == s.hp[e.creature := 0] && t.refresh == s.refresh && t.holding == s.holding
    && t.past == s.past.(presented := s.past.presented + 1,
                         outcomes := s.past.outcomes + [Outcome(s.past.presented, e.foe, Won)])
  }

  lemma EngagedNow(s: Fight) returns (events: seq<Event>, t: Fight)
    requires s.heldFoe.Some? && s.encounter.None? && s.engaging == []
    ensures Reaches(s, events, t) && Presented(s, s.heldFoe.value, t) && t.engaging == []
  {
    hide Reaches, Next;
    var m := Next(s, EngageTap);
    TapWaits(s);
    assert m.engaging == [s.heldFoe.value];
    t := Next(m, EngageCleared(true));
    EngagesFirst(m);
    events := Two(s, EngageTap, EngageCleared(true));
  }

  lemma FoughtNow(s: Fight) returns (events: seq<Event>, t: Fight)
    requires s.heldFoe.Some? && AtRest(s) && 0 < CreatureHp(s, s.heldFoe.value.creature)
    ensures Reaches(s, events, t) && Fought(s, t)
  {
    hide Next, Enabled, Reaches;
    var engaging, m := EngagedNow(s);
    var killing;
    killing, t := KilledAtOnce(m);
    ReachesThrough(s, engaging, m, killing, t);
    events := engaging + killing;
  }

  /** The foe on the card is fought, a step puts it back there alive, and it is fought again. */
  lemma BackOnCard(s: Fight, e: Event, s1: Fight, first: seq<Event>) returns (events: seq<Event>, t: Fight)
    requires s.heldFoe.Some? && Reaches(s, first, s1) && Fought(s, s1) && Enabled(s1, e)
    requires var s2 := Next(s1, e);
             && AtRest(s2) && s2.heldFoe.Some? && s2.heldFoe.value.foe == s.heldFoe.value.foe
             && 0 < CreatureHp(s2, s2.heldFoe.value.creature)
             && s2.past.presented == s1.past.presented && s2.past.outcomes == s1.past.outcomes
    ensures Reaches(s, events, t) && WonTwice(s, s.heldFoe.value.foe, t)
  {
    hide Next, Enabled, Reaches;
    var s2 := Next(s1, e);
    ReachesOne(s1, e);
    var again;
    again, t := FoughtNow(s2);
    ReachesThrough(s, first, s1, [e], s2);
    ReachesThrough(s, first + [e], s2, again, t);
    events := first + [e] + again;
  }

  /** A read answered before the stored foe is removed and acted upon after its defeat puts the foe back on
      the card, alive, and it is engaged and won again. */
  lemma StaleFoeWonTwice(s: Fight, c: nat) returns (events: seq<Event>, t: Fight)
    requires s.heldFoe.Some? && AtRest(s) && 0 < CreatureHp(s, s.heldFoe.value.creature) && s.refresh.Idle?
    requires s.stored.Some? && s.stored.value.foe == s.heldFoe.value.foe && 0 < s.stored.value.hp && c !in s.hp
    ensures Reaches(s, events, t) && WonTwice(s, s.heldFoe.value.foe, t)
  {
    var s0 := Next(Next(s, RefreshStarts), RefreshReads(true));
    assert s0 == s.(refresh := Read(s.stored));
    var reading := Two(s, RefreshStarts, RefreshReads(true));
    var first, s1 := FoughtNow(s0);
    assert Next(s1, RefreshLands(c)) == LandRefresh(s1, c);
    hide Next, Reaches;
    events, t := BackOnCard(s0, RefreshLands(c), s1, first);
    ReachesThrough(s, reading, s0, events, t);
    events := reading + events;
  }

  /** So does a hold that comes to its end only after a refresh has brought its foe to the card and the foe
      was defeated. */
  lemma HeldFoeWonTwice(s: Fight, c: nat, c': nat, maxHp: nat) returns (events: seq<Event>, t: Fight)
    requires AtRest(s) && s.stored.None? && s.holding == [] && s.refresh.Idle?
    requires c !in s.hp && c' !in s.hp && c != c' && 0 < maxHp
    ensures Reaches(s, events, t) && WonTwice(s, c, t)
  {
    var holding, s0 := CardBeforeHold(s, c, c', maxHp);
    var first, s1 := FoughtNow(s0);
    assert Next(s1, HoldLands) == s1.(heldFoe := Some(s1.holding[0]), holding := s1.holding[1..]);
    hide Next, Reaches;
    events, t := BackOnCard(s0, HoldLands, s1, first);
    ReachesThrough(s, holding, s0, events, t);
    events := holding + events;
  }

  /** A foe has been stored and a refresh has put it on the card before its hold did. */
  lemma CardBeforeHold(s: Fight, c: nat, c': nat, maxHp: nat) returns (events: seq<Event>, t: Fight)
    requires AtRest(s) && s.stored.None? && s.holding == [] && s.refresh.Idle?
    requires c !in s.hp && c' !in s.hp && c != c' && 0 < maxHp
    ensures Reaches(s, events, t) && AtRest(t) && t.heldFoe.Some? && t.heldFoe.value.foe == c
    ensures t.heldFoe.value.creature == c' && t.hp == s.hp[c := maxHp][c' := maxHp]
    ensures |t.holding| == 1 && t.holding[0].creature == c && t.holding[0].foe == c
    ensures t.past == s.past.(nextObj := s.past.nextObj + 2)
  {
    hide Reaches;
    var hold, read := HoldFoe(c, maxHp), RefreshReads(true);
    var s1 := Next(s, hold);
    var s2 := Next(s1, RefreshStarts);
    var s3 := Next(s2, read);
    assert s3 == s1.(refresh := Read(Some(StoredFoe(c, maxHp))));
    events := Three(s, hold, RefreshStarts, read);
    t := Next(s3, RefreshLands(c'));
    ReachesOne(s3, RefreshLands(c'));
    ReachesThrough(s, events, s3, [RefreshLands(c')], t);
    events := events + [RefreshLands(c')];
  }
}
