/** Runs of the save protocol in which each hazard occurs. */
module SaveWitnesses {
  import opened Basics
  import opened SaveProtocol
  import opened SaveSafety
  import opened SaveHazards
  import R = SaveRecovery

  // ---- reachable states ----

  lemma {:induction false} ReachesThen(s: App, acts: seq<Action>, t: App, act: Action)
    requires Reaches(s, acts, t) && Enabled(t, act) && !Hazard(t, act)
    ensures Reaches(s, acts + [act], Next(t, act))
    decreases |acts|
  {
    hide Hazard, Next;
    if acts == [] {
      assert [act][1..] == [];
    } else {
      ReachesThen(Next(s, acts[0]), acts[1..], t, act);
      assert (acts + [act])[1..] == acts[1..] + [act];
    }
  }

  /** Reached from a launch without a hazard. */
  ghost predicate Reachable(t: App) {
    exists s, acts :: Launch(s) && Reaches(s, acts, t)
  }

  lemma LaunchReachable(s: App)
    requires Launch(s)
    ensures Reachable(s)
  {
    assert Reaches(s, [], s);
  }

  lemma ReachableThen(t: App, act: Action)
    requires Reachable(t) && Enabled(t, act) && !Hazard(t, act)
    ensures Reachable(Next(t, act))
  {
    hide Hazard, Next, Launch;
    var s, acts :| Launch(s) && Reaches(s, acts, t);
    ReachesThen(s, acts, t, act);
  }

  lemma ReachableIsSafe(t: App)
    requires Reachable(t)
    ensures Safe(t)
  {
    var s, acts :| Launch(s) && Reaches(s, acts, t);
    LaunchIsSafe(s);
    ReachesSafe(s, acts, t);
  }

  // ---- up to a provisional character ----

  /** A launch with nothing on the device; the account may have a character 7 in the cloud. */
  function Installed(cloud: bool): (s: App)
    ensures Launch(s)
  {
    App(if cloud then Some(Save(7, 100)) else None, multiset{}, None, None, false, 0, None, NoCheck, {}, map[],
        multiset{}, None, false, None, View(false, false, None, multiset{}), 8, if cloud then {7} else {})
  }

  const FAILED := Io(false, 1, None)
  const KEPT := Io(true, 1, None)

  /** The archetype screen is up; its effect has not run yet. */
  function Selecting(cloud: bool): (s: App) {
    Installed(cloud).(gen := 1, selecting := true, view := View(false, true, Some(1), multiset{}))
  }

  lemma SelectionUp(cloud: bool)
    ensures Reachable(Selecting(cloud))
  {
    var s0 := Installed(cloud);
    LaunchReachable(s0);
    hide Reachable;
    ReachableThen(s0, StartLoad);
    var s1 := Next(s0, StartLoad);
    ReachableThen(s1, LoadRead(1, true));
    var s2 := Next(s1, LoadRead(1, true));
    ReachableThen(s2, FireCommit);
    var s := Next(s2, FireCommit);
    assert s.loads == {};
    assert s == Selecting(cloud);
  }

  /** The selection has been tapped; its reconcile call stands at a stage. */
  function Tapping(cloud: bool, stage: Stage): (s: App) {
    Selecting(cloud).(reconciled := Some(1), check := Pending(0),
                      checks := map[0 := Check(stage, None, [Waiter(1, 2)])])
  }

  lemma TappedOccurs(cloud: bool)
    ensures Reachable(Tapping(cloud, Reading))
  {
    hide Reachable;
    SelectionUp(cloud);
    ReachableThen(Selecting(cloud), Tap(0, true, KEPT));
    assert Next(Selecting(cloud), Tap(0, true, KEPT)) == Tapping(cloud, Reading);
  }

  /** A tap whose reconcile call has read the cloud record and is about to persist it. */
  lemma AboutToPersist()
    ensures Reachable(Tapping(true, Writing(Save(7, 100))))
  {
    hide Reachable;
    TappedOccurs(true);
    var s0, s1 := Tapping(true, Reading), Tapping(true, Deciding(Save(7, 100)));
    ReachableThen(s0, CloudAnswers(0, true, KEPT));
    assert Next(s0, CloudAnswers(0, true, KEPT)) == s1;
    ReachableThen(s1, Compare(0, KEPT));
    assert Next(s1, Compare(0, KEPT)) == Tapping(true, Writing(Save(7, 100)));
  }

  function Waiting(retries: nat): (s: App) {
    Tapping(true, Reading).(check := Done(Unavailable), checks := map[0 := Check(Reading, None, [Waiter(1, retries)])])
  }

  function Asleep(retries: nat): (s: App) {
    Waiting(0).(checks := map[], sleeping := multiset{Waiter(1, retries)})
  }

  /** An unreadable cloud answer sends the selection to sleep while it has retries left. */
  lemma AnswerFails(s: App, retries: nat)
    requires 0 < retries && Reachable(s) && (s == Waiting(retries) || (retries == 2 && s == Tapping(true, Reading)))
    ensures Reachable(Asleep(retries - 1))
  {
    hide Reachable;
    ReachableThen(s, CloudAnswers(0, false, KEPT));
    AnswerStep(s, retries);
    hide Next;
  }

  lemma AnswerStep(s: App, retries: nat)
    requires 0 < retries && (s == Waiting(retries) || (retries == 2 && s == Tapping(true, Reading)))
    ensures Next(s, CloudAnswers(0, false, KEPT)) == Asleep(retries - 1)
  {
    var act := CloudAnswers(0, false, KEPT);
    var t := s.(checks := map[], check := Done(Unavailable));
    assert s.checks - {0} == map[];
    var u := Resume(t, Waiter(1, retries), Unavailable, true, KEPT);
    assert u == Asleep(retries - 1);
    assert [Waiter(1, retries)][1..] == [];
    assert ResumeAll(u, [], Unavailable, true, KEPT) == u;
    assert Next(s, act) == ResumeAll(t, [Waiter(1, retries)], Unavailable, true, KEPT);
  }

  lemma WakesUp(retries: nat)
    requires Reachable(Asleep(retries))
    ensures Reachable(Waiting(retries))
  {
    hide Reachable;
    var act := Wake(Waiter(1, retries), 0);
    ReachableThen(Asleep(retries), act);
    assert Asleep(retries).sleeping - multiset{Waiter(1, retries)} == multiset{};
    assert Next(Asleep(retries), act) == Waiting(retries);
  }

  /** The state after the last retry: a provisional character, stored locally or not, whose selection
      still awaits the save. */
  function ProvisionalLive(io: Io): (s: App) {
    Create(Waiting(0).(checks := map[]), false, io)
  }

  lemma ProvisionalOccurs(io: Io)
    requires io.Valid()
    ensures Reachable(ProvisionalLive(io))
  {
    hide Reachable;
    TappedOccurs(true);
    AnswerFails(Tapping(true, Reading), 2);
    WakesUp(1);
    AnswerFails(Waiting(1), 1);
    WakesUp(0);
    ReachableThen(Waiting(0), CloudAnswers(0, false, io));
    LastAnswer(io);
  }

  lemma LastAnswer(io: Io)
    requires io.Valid()
    ensures Next(Waiting(0), CloudAnswers(0, false, io)) == ProvisionalLive(io)
  {
    var t := Waiting(0).(checks := map[]);
    assert Waiting(0).checks - {0} == map[];
    assert [Waiter(1, 0)][1..] == [];
    assert Next(Waiting(0), CloudAnswers(0, false, io)) == ResumeAll(t, [Waiter(1, 0)], Unavailable, true, io);
  }

  /** The provisional character is stored and on screen, and the effect of its rendering has returned. */
  function ProvisionalShown(): (s: App) {
    ProvisionalLive(KEPT).(shown := Some(8), selecting := false, view := View(false, false, Some(1), multiset{}))
  }

  lemma ProvisionalShownOccurs()
    ensures Reachable(ProvisionalShown())
  {
    hide Reachable;
    var s0 := ProvisionalLive(KEPT);
    ProvisionalOccurs(KEPT);
    ReachableThen(s0, Arm(1));
    var s1 := Next(s0, Arm(1));
    ReachableThen(s1, FireCommit);
    var s2 := Next(s1, FireCommit);
    ReachableThen(s2, EffectReturns);
    assert s2.view.arming == multiset{};
    assert Next(s2, EffectReturns) == ProvisionalShown();
  }

  /** A reload has read the provisional character again and is about to publish the new object. */
  function Reloaded(gen: nat): (s: App) {
    ProvisionalShown().(gen := gen, commit := Some(ShowLoaded(gen)), view := View(true, false, Some(gen), multiset{}))
  }

  lemma ReloadOccurs()
    ensures Reachable(Reloaded(2))
  {
    hide Reachable;
    ProvisionalShownOccurs();
    var s0 := ProvisionalShown();
    ReachableThen(s0, StartLoad);
    var s1 := Next(s0, StartLoad);
    ReachableThen(s1, LoadRead(2, true));
    assert s1.loads - {Load(2, false)} == {};
    assert Next(s1, LoadRead(2, true)) == Reloaded(2);
  }

  /** The reload was published and its effect reconciles while the provisional character is live. */
  function Reconciling(stage: Stage): (s: App) {
    ProvisionalShown().(gen := 2, reconciled := Some(2), check := Pending(0),
                        checks := map[0 := Check(stage, Some(2), [])], view := View(false, false, Some(2), multiset{}))
  }

  lemma ReconcilingOccurs()
    ensures Reachable(Reconciling(Writing(Save(7, 100))))
  {
    hide Reachable;
    ReloadOccurs();
    var s0 := Reloaded(2);
    ReachableThen(s0, FireCommit);
    var s1 := Next(s0, FireCommit);
    ReachableThen(s1, EffectStarts(0));
    assert Next(s1, EffectStarts(0)) == Reconciling(Reading);
    ReachableThen(Reconciling(Reading), CloudAnswers(0, true, KEPT));
    assert Next(Reconciling(Reading), CloudAnswers(0, true, KEPT)) == Reconciling(Deciding(Save(7, 100)));
    ReachableThen(Reconciling(Deciding(Save(7, 100))), Compare(0, KEPT));
    assert Next(Reconciling(Deciding(Save(7, 100))), Compare(0, KEPT)) == Reconciling(Writing(Save(7, 100)));
  }

  // ---- each hazard does occur ----

  /** A reload overtakes a reconcile call that is about to persist the cloud record: the adoption is lost,
      the snapshot is now as new as the record, and once the reload publishes the provisional character
      its effect promotes it over the record. */
  lemma LostAdoptionOccurs() returns (s: App, act: Action)
    ensures Reachable(s) && Enabled(s, act) && act.Persist? && Hazard(s, act)
    ensures s.cloud == Some(Save(7, 100)) && s.player == Some(8) && s.provisional && s.commit == Some(ShowLoaded(s.gen))
    ensures Next(s, act).local == s.cloud && CanOverwrite(Next(s, act))
  {
    hide Reachable;
    var s0 := Reconciling(Writing(Save(7, 100)));
    ReconcilingOccurs();
    ReachableThen(s0, StartLoad);
    var s1 := Next(s0, StartLoad);
    ReachableThen(s1, LoadRead(3, true));
    s, act := Next(s1, LoadRead(3, true)), Persist(0, true, true, KEPT);
    ResolveAdoptedForm(s.(local := Some(Save(7, 100))), 0, 7, true, KEPT);
    ReloadOverwrites(Next(s, act));
  }

  /** The local write of a provisional character fails and a second load comes: its next save reaches
      the cloud although no read ever succeeded. */
  lemma EmptyLoadOccurs() returns (s: App, act: Action)
    ensures Reachable(s) && Enabled(s, act) && act.LoadRead? && Hazard(s, act) && CanOverwrite(Next(s, act))
    ensures s.cloud == Some(Save(7, 100)) && s.local.None? && s.player == Some(8)
  {
    hide Reachable;
    var s0 := ProvisionalLive(FAILED);
    ProvisionalOccurs(FAILED);
    ReachableThen(s0, StartLoad);
    s, act := Next(s0, StartLoad), LoadRead(2, true);
    UnvettedOverwrites(Next(s, act));
  }

  /** The provisional character is stored, but the read of a second load fails: it is taken for absent,
      the provisional mark goes, and the next save reaches the cloud over a record never read. */
  lemma FailedReadOccurs() returns (s: App, act: Action)
    ensures Reachable(s) && Enabled(s, act) && act.LoadMissed? && Hazard(s, act) && CanOverwrite(Next(s, act))
    ensures s.cloud == Some(Save(7, 100)) && s.player == Some(8) && s.provisional
  {
    hide Reachable;
    var s0 := ProvisionalShown();
    ProvisionalShownOccurs();
    ReachableThen(s0, StartLoad);
    var s1 := Next(s0, StartLoad);
    ReachableThen(s1, LoadFails(2, true));
    s, act := Next(s1, LoadFails(2, true)), LoadMissed(2);
    UnvettedOverwrites(Next(s, act));
  }

  /** A provisional character is replaced by an adopted one, and then a save captured before lands. */
  lemma StaleSaveOccurs() returns (s: App, act: Action)
    ensures Reachable(s) && Enabled(s, act) && act.SaveStale? && Hazard(s, act)
    ensures s.cloud == Some(Save(7, 100)) && s.player == Some(7) && Next(s, act).player == Some(8)
    ensures CanOverwrite(Next(s, act))
  {
    hide Reachable;
    var s0, adopt := Reconciling(Writing(Save(7, 100))), Persist(0, true, true, KEPT);
    ReconcilingOccurs();
    ReachableThen(s0, adopt);
    ResolveAdoptedForm(s0.(local := Some(Save(7, 100))), 0, 7, true, KEPT);
    s, act := Next(s0, adopt), SaveStale(8, KEPT);
    UnvettedOverwrites(Next(s, act));
  }

  /** The selection took over the cloud character and persisted it. */
  lemma AdoptionOccurs() returns (s: App)
    ensures Reachable(s) && s.cloud == Some(Save(7, 100)) && s.local == Some(Save(7, 100)) && s.player == Some(7)
    ensures s.nextChar == 8
  {
    hide Reachable;
    var s0 := Tapping(true, Writing(Save(7, 100)));
    AboutToPersist();
    var adopt := Persist(0, true, true, KEPT);
    assert s0.checks[0].waiters[0].gen == s0.gen;
    ReachableThen(s0, adopt);
    ResolveAdoptedForm(s0.(local := Some(Save(7, 100))), 0, 7, true, KEPT);
    s := Next(s0, adopt);
  }

  /** After a restart, no player can be built from the confirmed snapshot and the selection is offered instead. */
  lemma UnparsedLoadOccurs() returns (s: App, act: Action)
    ensures Reachable(s) && Enabled(s, act) && act.LoadRead? && Hazard(s, act) && CanOverwrite(Next(s, act))
    ensures s.cloud == Some(Save(7, 100)) && s.local == Some(Save(7, 100))
  {
    hide Reachable;
    var s1 := AdoptionOccurs();
    ReachableThen(s1, Kill);
    var s2 := Next(s1, Kill);
    ReachableThen(s2, StartLoad);
    s, act := Next(s2, StartLoad), LoadRead(1, false);
    OfferedOverwrites(Next(s, act));
  }

  /** A new character was created over a confirmed-empty cloud and its first write is still queued; a
      second load's read fails and clears the snapshot, the only trace of the character. */
  lemma QueuedLossOccurs() returns (s: App, act: Action)
    ensures Reachable(s) && Enabled(s, act) && act.LoadFails? && Hazard(s, act) && CanOverwrite(Next(s, act))
    ensures s.cloud.None? && s.local == Some(Save(8, 1)) && s.queue == multiset{Save(8, 5)}
  {
    hide Reachable;
    var s0 := Tapping(false, Reading);
    TappedOccurs(false);
    var answer := CloudAnswers(0, true, Io(true, 1, Some(5)));
    ReachableThen(s0, answer);
    ResolveConfirmedForm(s0, 0, true, answer.io);
    assert s0.checks[0].waiters[0].gen == s0.gen;
    var s1 := Next(s0, answer);
    ReachableThen(s1, StartLoad);
    s, act := Next(s1, StartLoad), LoadFails(2, true);
    QueuedLossOverwrites(Next(s, act), Save(8, 5));
  }

  /** A character was created over a confirmed-empty cloud, nothing of it was stored, and it was cleared; the
      next one is created and its first write is queued. */
  function SecondCreated(): (s: App) {
    Selecting(false).(gen := 3, reconciled := Some(3), check := Done(NoNewerCloud), queue := multiset{Save(9, 5)},
                      local := Some(Save(9, 1)), player := Some(9), nextChar := 10, vetted := {8, 9},
                      view := View(true, true, Some(3), multiset{1, 3}))
  }

  lemma CreatedUnstored() returns (s: App)
    ensures Reachable(s) && s == Selecting(false).(reconciled := Some(1), check := Done(NoNewerCloud),
                                                   player := Some(8), nextChar := 9, vetted := {8},
                                                   view := View(true, true, Some(1), multiset{1}))
  {
    hide Reachable;
    var s0, answer := Tapping(false, Reading), CloudAnswers(0, true, FAILED);
    TappedOccurs(false);
    ReachableThen(s0, answer);
    ResolveConfirmedForm(s0, 0, true, FAILED);
    assert s0.checks[0].waiters[0].gen == s0.gen;
    assert s0.checks - {0} == map[];
    s := Next(s0, answer);
  }

  lemma SelectingAgain() returns (s: App)
    ensures Reachable(s) && s == Selecting(false).(gen := 3, reconciled := Some(1), nextChar := 9, vetted := {8},
                                                   view := View(false, true, Some(3), multiset{1}))
  {
    hide Reachable;
    var s0 := CreatedUnstored();
    ReachableThen(s0, ClearPlayer);
    var s1 := Next(s0, ClearPlayer);
    ReachableThen(s1, StartLoad);
    var s2 := Next(s1, StartLoad);
    ReachableThen(s2, LoadRead(3, true));
    var s3 := Next(s2, LoadRead(3, true));
    assert s3.loads == {};
    ReachableThen(s3, FireCommit);
    s := Next(s3, FireCommit);
  }

  lemma SecondCreatedOccurs()
    ensures Reachable(SecondCreated())
  {
    hide Reachable;
    var s0 := SelectingAgain();
    var tap, answer := Tap(0, true, KEPT), CloudAnswers(0, true, Io(true, 1, Some(5)));
    ReachableThen(s0, tap);
    var s1 := Next(s0, tap);
    assert s1.checks[0].waiters[0].gen == s1.gen;
    assert s1.checks - {0} == map[];
    ReachableThen(s1, answer);
    ResolveConfirmedForm(s1, 0, true, answer.io);
    assert Next(s1, answer) == SecondCreated();
  }

  /** A save of the first, which was cleared for the cloud too, lands after the second one went live. */
  lemma LateClearedSaveOccurs() returns (s: App, act: Action)
    ensures Reachable(s) && Enabled(s, act) && act.SaveStale? && act.c in s.vetted && Hazard(s, act)
    ensures s.queue == multiset{Save(9, 5)} && Next(s, act).player == Some(8) && CanOverwrite(Next(s, act))
  {
    SecondCreatedOccurs();
    s, act := SecondCreated(), SaveStale(8, KEPT);
    UnvettedBehindQueueOverwrites(Next(s, act), Save(9, 5));
  }

  /** The exception to the rule occurs as well: the selection's own call persists the record, but no player can
      be built from it; every further tap is told to adopt it. */
  lemma HarmlessHazardOccurs() returns (s: App, act: Action)
    ensures Reachable(s) && Enabled(s, act) && act.Persist? && Hazard(s, act) && !CanOverwrite(Next(s, act))
    ensures s.cloud == Some(Save(7, 100)) && Next(s, act).local == s.cloud && Next(s, act).selecting
  {
    hide Reachable;
    AboutToPersist();
    var s0 := Tapping(true, Writing(Save(7, 100)));
    ReachableThen(s0, EffectReturns);
    s, act := Next(s0, EffectReturns), Persist(0, true, false, KEPT);
    assert s == s0.(view := View(false, false, Some(1), multiset{}));
    LostAdoptionForm(s, act);
    assert s.checks - {0} == map[];
    ReachableIsSafe(s);
    R.HazardOverwritesIff(s, act);
  }
}
