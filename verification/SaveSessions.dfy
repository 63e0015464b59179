/** Sessions of the save protocol: superseded calls, deferred commits and the promise of a first screen. */
module SaveSessions {
  import opened Basics
  import opened SaveProtocol
  import opened SaveSafety
  import opened SaveHazards
  import opened SaveWitnesses

  // ---- superseded calls and deferred commits ----

  lemma {:induction false} ResumeAllStale(s: App, ws: seq<Waiter>, o: Outcome, parses: bool, io: Io)
    requires !LiveWaiter(s, ws)
    ensures ResumeAll(s, ws, o, parses, io) == s
    decreases |ws|
  {
    if ws != [] {
      LiveWaiterSplits(s, ws);
      ResumeAllStale(s, ws[1..], o, parses, io);
    }
  }

  /** The step continues a call that a newer load or a clear has superseded. */
  ghost predicate Superseded(s: App, act: Action)
    requires Enabled(s, act)
  {
    match act
    case LoadRead(g, _) => g != s.gen
    case LoadFails(g, _) => g != s.gen
    case LoadMissed(g) => g != s.gen
    case CloudAnswers(id, _, _) => CheckSuperseded(s, s.checks[id])
    case CompareFails(id, _) => CheckSuperseded(s, s.checks[id])
    case Compare(id, _) => CheckSuperseded(s, s.checks[id])
    case Persist(id, _, _, _) => CheckSuperseded(s, s.checks[id])
    case Wake(w, _) => w.gen != s.gen
    case Arm(g) => g != s.gen
    case _ => false
  }

  ghost predicate CheckSuperseded(s: App, c: Check) {
    c.effectGen != Some(s.gen) && !LiveWaiter(s, c.waiters)
  }

  /** Beyond its own bookkeeping a step reaches at most the stored snapshot, when it adopts a record or
      fails to read, and the pending commit, when a selection ends whose save was under way. */
  predicate OnlyBookkeeping(s: App, act: Action, t: App) {
    && t == s.(loads := t.loads, checks := t.checks, check := t.check, sleeping := t.sleeping,
               local := t.local, commit := t.commit, view := t.view)
    && t.view == s.view.(arming := t.view.arming)
    && (t.local != s.local ==> act.Persist? || act.LoadFails? || act.CompareFails?)
    && (t.commit != s.commit || t.view != s.view ==> act.Arm?)
  }

  /** A superseded load, reconcile call or selection never touches the live player or the screens. */
  lemma SupersededChangesNothing(s: App, act: Action)
    requires Enabled(s, act) && Superseded(s, act)
    ensures OnlyBookkeeping(s, act, Next(s, act))
  {
    hide Next, OnlyBookkeeping;
    match act
    case CloudAnswers(id, readable, io) => SupersededAnswer(s, id, readable, io);
    case CompareFails(_, _) => SupersededCompare(s, act);
    case Compare(_, _) => SupersededCompare(s, act);
    case Persist(id, stored, parses, io) => SupersededPersist(s, id, stored, parses, io);
    case Wake(_, _) => SupersededSelection(s, act);
    case Arm(_) => SupersededSelection(s, act);
    case _ => SupersededLoad(s, act);
  }

  lemma SupersededLoad(s: App, act: Action)
    requires Enabled(s, act) && (act.LoadRead? || act.LoadFails? || act.LoadMissed?) && act.g != s.gen
    ensures OnlyBookkeeping(s, act, Next(s, act))
  {
  }

  lemma SupersededSelection(s: App, act: Action)
    requires Enabled(s, act) && (act.Wake? || act.Arm?) && (act.Wake? ==> act.w.gen != s.gen)
    ensures OnlyBookkeeping(s, act, Next(s, act))
  {
  }

  lemma SupersededCompare(s: App, act: Action)
    requires Enabled(s, act) && (act.CompareFails? || act.Compare?) && CheckSuperseded(s, s.checks[act.id])
    ensures OnlyBookkeeping(s, act, Next(s, act))
  {
    hide Resolve, CheckSuperseded;
    if act.Compare? {
      ResolveStale(s, act.id, NoNewerCloud, true, act.io);
    }
  }

  lemma SupersededAnswer(s: App, id: nat, readable: bool, io: Io)
    requires Enabled(s, CloudAnswers(id, readable, io)) && CheckSuperseded(s, s.checks[id])
    ensures OnlyBookkeeping(s, CloudAnswers(id, readable, io), Next(s, CloudAnswers(id, readable, io)))
  {
    hide Resolve, CheckSuperseded;
    ResolveStale(s, id, Unavailable, true, io);
    ResolveStale(s, id, NoNewerCloud, true, io);
  }

  lemma SupersededPersist(s: App, id: nat, stored: bool, parses: bool, io: Io)
    requires Enabled(s, Persist(id, stored, parses, io)) && CheckSuperseded(s, s.checks[id])
    ensures OnlyBookkeeping(s, Persist(id, stored, parses, io), Next(s, Persist(id, stored, parses, io)))
  {
    var rec := s.checks[id].stage.rec;
    var s' := if stored then s.(local := Some(rec)) else s;
    assert CheckSuperseded(s', s.checks[id]);
    hide Resolve, CheckSuperseded;
    ResolveStale(s', id, Adopted(rec.who), parses, io);
  }

  /** A deferred commit fires once, publishes only the live character, and clearing cancels it. */
  lemma CommitPublishesLive(s: App)
    requires s.commit.Some?
    ensures var t := Next(s, FireCommit);
            t.commit.None? && t.player == s.player && (t.shown == s.shown || t.shown == s.player)
    ensures !Enabled(Next(s, FireCommit), FireCommit) && !Enabled(Next(s, ClearPlayer), FireCommit)
  {
  }

  // ---- never stranded ----

  /** The step starts the session anew. */
  predicate Restarts(act: Action) {
    act.StartLoad? || act.ClearPlayer? || act.Kill? || act.Reinstall?
  }

  /** Something is on screen, or a commit is pending that will put it there: the selection screen, or the
      live player. */
  predicate OnTrack(s: App) {
    || s.shown.Some? || s.selecting || s.commit == Some(ShowSelection(s.gen))
    || (s.player.Some? && (s.commit == Some(ShowCreated) || s.commit == Some(ShowLoaded(s.gen))))
  }

  /** Only a live player is ever on screen. */
  predicate ShownIsLive(s: App) {
    s.player.None? ==> s.shown.None?
  }

  /** The step ends a selection whose save was under way, while the live load's selection screen is
      still to be shown. */
  predicate CancelsSelection(s: App, act: Action) {
    act.Arm? && s.player.None? && !s.selecting
  }

  /** When the load of the current generation ends, something is there to be shown. */
  lemma LoadEndsOnTrack(s: App, act: Action)
    requires Enabled(s, act) && ((act.LoadRead? && act.g == s.gen) || (act.LoadMissed? && act.g == s.gen))
    ensures OnTrack(Next(s, act)) && Next(s, act).view.loaded == Some(s.gen)
  {
  }

  /** A step of the same session takes the thing to be shown away exactly when it ends an outdated
      selection before the pending selection screen came up. */
  lemma TrackLostIff(s: App, act: Action)
    requires Enabled(s, act) && OnTrack(s) && ShownIsLive(s) && !Restarts(act)
    ensures OnTrack(Next(s, act)) <==> !CancelsSelection(s, act)
  {
    if act.Tap? || act.CloudAnswers? || act.Compare? || act.Persist? {
      hide OnTrack, Next;
      ReconcileOnTrack(s, act);
    } else if act.Arm? {
      ArmOnTrackIff(s, act.g);
    } else {
      hide OnTrack, Next;
      OthersOnTrack(s, act);
    }
  }

  lemma ReconcileOnTrack(s: App, act: Action)
    requires Enabled(s, act) && OnTrack(s) && (act.Tap? || act.CloudAnswers? || act.Compare? || act.Persist?)
    ensures OnTrack(Next(s, act))
  {
    hide Resolve, Resume;
    match act
    case Tap(id, parses, io) =>
      var o := if s.check.Done? then s.check.outcome else Unavailable;
      ResumeOnTrack(s, Waiter(s.gen, ARCHETYPE_CLOUD_RETRIES), o, parses, io);
    case CloudAnswers(id, readable, io) =>
      ResolveOnTrack(s, id, Unavailable, true, io);
      ResolveOnTrack(s, id, NoNewerCloud, true, io);
    case Compare(id, io) => ResolveOnTrack(s, id, NoNewerCloud, true, io);
    case Persist(id, stored, parses, io) =>
      var rec := s.checks[id].stage.rec;
      ResolveOnTrack(if stored then s.(local := Some(rec)) else s, id, Adopted(rec.who), parses, io);
  }

  lemma ArmOnTrackIff(s: App, g: nat)
    requires Enabled(s, Arm(g)) && OnTrack(s) && ShownIsLive(s)
    ensures OnTrack(Next(s, Arm(g))) <==> !CancelsSelection(s, Arm(g))
  {
  }

  lemma OthersOnTrack(s: App, act: Action)
    requires Enabled(s, act) && OnTrack(s) && !Restarts(act) && !act.Arm?
    requires !act.Tap? && !act.CloudAnswers? && !act.Compare? && !act.Persist?
    ensures OnTrack(Next(s, act))
  {
    hide Resolve, Resume;
  }

  lemma ResumeOnTrack(s: App, w: Waiter, o: Outcome, parses: bool, io: Io)
    requires OnTrack(s)
    ensures OnTrack(Resume(s, w, o, parses, io))
  {
  }

  lemma ResolveOnTrack(s: App, id: nat, o: Outcome, parses: bool, io: Io)
    requires OnTrack(s) && id in s.checks
    ensures OnTrack(Resolve(s, id, o, parses, io))
  {
    var t := EffectThen(Finished(s, id, o), s.checks[id].effectGen, o, parses, io);
    assert OnTrack(t);
    hide ResumeAll, EffectThen;
    ResumeAllOnTrack(t, s.checks[id].waiters, o, parses, io);
  }

  lemma {:induction false} ResumeAllOnTrack(s: App, ws: seq<Waiter>, o: Outcome, parses: bool, io: Io)
    requires OnTrack(s)
    ensures OnTrack(ResumeAll(s, ws, o, parses, io))
    decreases |ws|
  {
    hide Resume;
    if ws != [] {
      ResumeOnTrack(s, ws[0], o, parses, io);
      ResumeAllOnTrack(Resume(s, ws[0], o, parses, io), ws[1..], o, parses, io);
    }
  }

  lemma ResumeShown(s: App, w: Waiter, o: Outcome, parses: bool, io: Io)
    requires ShownIsLive(s)
    ensures ShownIsLive(Resume(s, w, o, parses, io))
  {
  }

  lemma {:induction false} ResumeAllShown(s: App, ws: seq<Waiter>, o: Outcome, parses: bool, io: Io)
    requires ShownIsLive(s)
    ensures ShownIsLive(ResumeAll(s, ws, o, parses, io))
    decreases |ws|
  {
    hide Resume;
    if ws != [] {
      ResumeShown(s, ws[0], o, parses, io);
      ResumeAllShown(Resume(s, ws[0], o, parses, io), ws[1..], o, parses, io);
    }
  }

  lemma ResolveShown(s: App, id: nat, o: Outcome, parses: bool, io: Io)
    requires ShownIsLive(s) && id in s.checks
    ensures ShownIsLive(Resolve(s, id, o, parses, io))
  {
    var t := EffectThen(Finished(s, id, o), s.checks[id].effectGen, o, parses, io);
    assert ShownIsLive(t);
    hide ResumeAll, EffectThen;
    ResumeAllShown(t, s.checks[id].waiters, o, parses, io);
  }

  lemma ShownStaysLive(s: App, act: Action)
    requires Enabled(s, act) && ShownIsLive(s)
    ensures ShownIsLive(Next(s, act))
  {
    hide Resolve, Resume;
    match act
    case Tap(id, parses, io) =>
      var o := if s.check.Done? then s.check.outcome else Unavailable;
      ResumeShown(s, Waiter(s.gen, ARCHETYPE_CLOUD_RETRIES), o, parses, io);
    case CloudAnswers(id, readable, io) =>
      ResolveShown(s, id, Unavailable, true, io);
      ResolveShown(s, id, NoNewerCloud, true, io);
    case Compare(id, io) => ResolveShown(s, id, NoNewerCloud, true, io);
    case Persist(id, stored, parses, io) =>
      var rec := s.checks[id].stage.rec;
      ResolveShown(if stored then s.(local := Some(rec)) else s, id, Adopted(rec.who), parses, io);
    case _ =>
  }

  lemma {:induction false} RunShownIsLive(states: seq<App>, acts: seq<Action>, i: nat)
    requires IsRun(states, acts) && Launch(states[0]) && i < |states|
    ensures ShownIsLive(states[i])
  {
    if i > 0 {
      hide Next, ShownIsLive, Launch;
      RunShownIsLive(states, acts, i - 1);
      ShownStaysLive(states[i - 1], acts[i - 1]);
    }
  }

  /** In every run from a launch, over every stretch that starts no session anew, a finished load leaves
      something on screen or about to be, for good, unless an outdated selection ends before the selection
      screen came up. */
  lemma {:induction false} NeverStranded(states: seq<App>, acts: seq<Action>, i: nat, j: nat)
    requires IsRun(states, acts) && Launch(states[0]) && i <= j < |states| && OnTrack(states[i])
    requires forall k :: i <= k < j ==> !Restarts(acts[k]) && !CancelsSelection(states[k], acts[k])
    ensures OnTrack(states[j])
    decreases j - i
  {
    hide Next, OnTrack, ShownIsLive, Launch;
    if i < j {
      NeverStranded(states, acts, i, j - 1);
      RunShownIsLive(states, acts, j - 1);
      TrackLostIff(states[j - 1], acts[j - 1]);
    }
  }

  /** The load is finished, nothing is shown, and nothing is under way that could show anything. */
  ghost predicate Stranded(s: App) {
    && s.view.loaded == Some(s.gen)
    && s.player.None? && s.shown.None? && !s.selecting && s.commit.None? && s.view.arming == multiset{} && Attended(s)
    && Load(s.gen, false) !in s.loads && Load(s.gen, true) !in s.loads
    && (forall id :: id in s.checks ==> s.checks[id].effectGen != Some(s.gen))
  }

  /** From there, only a new load, a clear or a restart leads out. */
  lemma StrandedStays(s: App, act: Action)
    requires Stranded(s) && Enabled(s, act) && !Restarts(act)
    ensures Stranded(Next(s, act))
  {
    hide Stranded, Next;
    if act.CloudAnswers? || act.Compare? || act.Persist? {
      StrandedCheckStays(s, act);
    } else if act.LoadRead? || act.LoadFails? || act.LoadMissed? {
      StrandedLoadStays(s, act);
    } else if act.CompareFails? {
      StrandedCompareStays(s, act.id, act.cleared);
    } else if act.Wake? {
      StrandedWakeStays(s, act.w, act.id);
    } else {
      StrandedRestStays(s, act);
    }
  }

  lemma StrandedLoadStays(s: App, act: Action)
    requires Stranded(s) && Enabled(s, act) && (act.LoadRead? || act.LoadFails? || act.LoadMissed?)
    ensures Stranded(Next(s, act))
  {
    assert act.g != s.gen && Load(s.gen, false) !in s.loads && Load(s.gen, true) !in s.loads;
    hide Stranded;
    StrandedFrame(s, Next(s, act));
  }

  lemma StrandedWakeStays(s: App, w: Waiter, id: nat)
    requires Stranded(s) && Enabled(s, Wake(w, id))
    ensures Stranded(Next(s, Wake(w, id)))
  {
    assert w.gen != s.gen && Load(s.gen, false) !in s.loads && Load(s.gen, true) !in s.loads;
    hide Stranded;
    StrandedFrame(s, Next(s, Wake(w, id)));
  }

  lemma StrandedCompareStays(s: App, id: nat, cleared: bool)
    requires Stranded(s) && Enabled(s, CompareFails(id, cleared))
    ensures Stranded(Next(s, CompareFails(id, cleared)))
  {
    assert Load(s.gen, false) !in s.loads && Load(s.gen, true) !in s.loads;
    hide Stranded;
    StrandedFrame(s, Next(s, CompareFails(id, cleared)));
  }

  lemma StrandedRestStays(s: App, act: Action)
    requires Stranded(s) && Enabled(s, act) && !Restarts(act)
    requires !act.CloudAnswers? && !act.Compare? && !act.Persist?
    requires !act.LoadRead? && !act.LoadFails? && !act.LoadMissed? && !act.CompareFails? && !act.Wake?
    ensures Stranded(Next(s, act))
  {
    assert act.Repaint? || act.EffectReturns? || act.Deliver? || act.Drop?;
    assert s.player.None? && Load(s.gen, false) !in s.loads && Load(s.gen, true) !in s.loads;
    hide Stranded;
    StrandedFrame(s, Next(s, act));
  }

  /** What can still happen to a stranded session: calls of other generations, deliveries, the snapshot. */
  lemma StrandedFrame(s: App, t: App)
    requires Stranded(s)
    requires t == s.(cloud := t.cloud, queue := t.queue, local := t.local, loads := t.loads, checks := t.checks,
                     sleeping := t.sleeping, view := t.view)
    requires t.view == s.view.(due := t.view.due)
    requires Load(s.gen, false) !in t.loads && Load(s.gen, true) !in t.loads
    requires forall w :: w in t.sleeping ==> w in s.sleeping
    requires forall id :: id in t.checks ==> id in s.checks && t.checks[id].effectGen == s.checks[id].effectGen
                                             && t.checks[id].waiters == s.checks[id].waiters
    ensures Stranded(t)
  {
  }

  lemma StrandedCheckStays(s: App, act: Action)
    requires Stranded(s) && Enabled(s, act) && (act.CloudAnswers? || act.Compare? || act.Persist?)
    ensures Stranded(Next(s, act))
  {
    assert Superseded(s, act);
    SupersededChangesNothing(s, act);
    StrandedChecks(s, act);
    hide Next, Enabled, Superseded;
  }

  lemma ResolveStale(s: App, id: nat, o: Outcome, parses: bool, io: Io)
    requires id in s.checks && CheckSuperseded(s, s.checks[id])
    ensures Resolve(s, id, o, parses, io) == Finished(s, id, o)
  {
    ResumeAllStale(Finished(s, id, o), s.checks[id].waiters, o, parses, io);
  }

  lemma StrandedChecks(s: App, act: Action)
    requires Stranded(s) && Enabled(s, act) && (act.CloudAnswers? || act.Compare? || act.Persist?)
    ensures forall id :: id in Next(s, act).checks ==>
              && id in s.checks && Next(s, act).checks[id].effectGen == s.checks[id].effectGen
              && Next(s, act).checks[id].waiters == s.checks[id].waiters
    ensures Next(s, act).check == NoCheck && Next(s, act).sleeping == s.sleeping && Next(s, act).loads == s.loads
  {
    hide Resolve;
    match act
    case CloudAnswers(id, readable, io) =>
      ResolveStale(s, id, Unavailable, true, io);
      ResolveStale(s, id, NoNewerCloud, true, io);
    case Compare(id, io) => ResolveStale(s, id, NoNewerCloud, true, io);
    case Persist(id, stored, parses, io) =>
      var rec := s.checks[id].stage.rec;
      ResolveStale(if stored then s.(local := Some(rec)) else s, id, Adopted(rec.who), parses, io);
  }

  /** A session is cleared and loaded again while the selection of the one before still awaits its save;
      the new load's selection screen is pending when that selection ends and cancels it. */
  lemma StrandedOccurs() returns (s: App, act: Action)
    ensures Reachable(s) && Enabled(s, act) && CancelsSelection(s, act) && Superseded(s, act)
    ensures s.view.loaded == Some(s.gen) && s.commit == Some(ShowSelection(s.gen))
    ensures !OnTrack(Next(s, act)) && Enabled(Next(s, act), FireCommit) && Stranded(Next(Next(s, act), FireCommit))
  {
    hide Reachable;
    var s0 := ProvisionalLive(FAILED);
    ProvisionalOccurs(FAILED);
    ReachableThen(s0, ClearPlayer);
    var s1 := Next(s0, ClearPlayer);
    ReachableThen(s1, StartLoad);
    var s2 := Next(s1, StartLoad);
    ReachableThen(s2, LoadRead(3, true));
    s, act := Next(s2, LoadRead(3, true)), Arm(1);
    assert s.view.arming == multiset{1};
  }
}
