/** The hazards that lead to no overwrite, and with them the exact condition for one: nothing is claimed yet, or
    the persisted record can only be adopted. */
module SaveRecovery {
  import opened Basics
  import opened SaveProtocol
  import opened SaveSafety
  import opened SaveHazards

  // ---- nothing claimed yet ----

  /** No record has been read or written, whatever the device holds. */
  ghost predicate NoRecord(s: App) {
    && s.cloud.None? && Attended(s) && Captured(s) && Ordered(s)
    && (forall id :: id in s.checks ==> s.checks[id].stage.Reading?)
    && !(s.check.Done? && s.check.outcome.Adopted?)
    && (s.player.None? ==> s.shown.None?)
    && (s.check.Pending? ==> s.check.id in s.checks)
  }

  /** And no write is under way. */
  ghost predicate Blank(s: App) {
    NoRecord(s) && s.queue == multiset{}
  }

  lemma SingleIsBlank(s: App, a: Character)
    requires Core(s, a) && s.cloud.None? && s.queue == multiset{}
    ensures Blank(s)
  {
  }

  /** The first character to be saved is then the only one in line. */
  lemma FirstClaim(s: App, c: Character)
    requires NoRecord(s) && s.player == Some(c) && !s.provisional && Confirmed(s.local) && s.local.value.who == c
    requires forall w :: w in s.queue ==> w.who == c
    ensures Single(s)
  {
    assert Core(s, c);
  }

  lemma SaveConfirmedBlank(s: App, c: Character, io: Io)
    requires Blank(s) && s.player == Some(c) && !s.provisional && io.Valid()
    ensures Blank(SaveConfirmed(s, c, io)) || Single(SaveConfirmed(s, c, io))
  {
    var t := SaveConfirmed(s, c, io);
    if io.stored {
      assert NoRecord(t);
      FirstClaim(t, c);
    }
  }

  lemma SetAndSaveBlank(s: App, c: Character, io: Io)
    requires Blank(s) && s.player.Some? && c < s.nextChar && io.Valid()
    ensures Blank(SetAndSave(s, c, io)) || Single(SetAndSave(s, c, io))
  {
    var t := s.(player := Some(c), shown := Some(c), view := s.view.(unseen := false, due := true));
    assert Blank(t);
    if !s.provisional { SaveConfirmedBlank(t, c, io); }
  }

  /** Creating a character, before it is saved. */
  function Newcomer(s: App, confirmed: bool): (t: App) {
    s.(player := Some(s.nextChar), nextChar := s.nextChar + 1, provisional := !confirmed,
       view := s.view.(unseen := true, arming := s.view.arming + multiset{s.gen}),
       vetted := if confirmed then s.vetted + {s.nextChar} else s.vetted)
  }

  lemma NewcomerBlank(s: App, confirmed: bool)
    requires Blank(s)
    ensures Blank(Newcomer(s, confirmed))
  {
  }

  lemma SaveProvisionalBlank(s: App, c: Character, io: Io)
    requires Blank(s) && c < s.nextChar
    ensures Blank(SaveProvisional(s, c, io))
  {
  }

  lemma CreateBlank(s: App, confirmed: bool, io: Io)
    requires Blank(s) && s.player.None? && io.Valid()
    ensures Blank(Create(s, confirmed, io)) || (confirmed && Single(Create(s, confirmed, io)))
  {
    hide Blank, SaveConfirmed, SaveProvisional;
    var t := Newcomer(s, confirmed);
    NewcomerBlank(s, confirmed);
    if confirmed {
      SaveConfirmedBlank(t, s.nextChar, io);
    } else {
      SaveProvisionalBlank(t, s.nextChar, io);
    }
  }

  lemma ResumeUnavailableBlank(s: App, w: Waiter, io: Io)
    requires Blank(s) && io.Valid() && (w.gen == s.gen && s.player.None? ==> s.selecting)
    ensures var t := Resume(s, w, Unavailable, true, io);
            Blank(t) && t.selecting == s.selecting && (s.player.Some? ==> t.player.Some?)
  {
    hide Blank;
    if w.gen == s.gen {
      if 0 < w.retries {
        SleepBlank(s, Waiter(w.gen, w.retries - 1));
      } else if s.player.None? {
        CreateBlank(s, false, io);
      }
    }
  }

  lemma SleepBlank(s: App, w: Waiter)
    requires Blank(s) && w.gen <= s.gen && (s.player.None? ==> s.selecting)
    ensures Blank(s.(sleeping := s.sleeping + multiset{w}))
  {
  }

  lemma {:induction false} ResumeAllUnavailableBlank(s: App, ws: seq<Waiter>, io: Io)
    requires Blank(s) && io.Valid() && (LiveWaiter(s, ws) && s.player.None? ==> s.selecting)
    ensures Blank(ResumeAll(s, ws, Unavailable, true, io))
    decreases |ws|
  {
    hide Blank;
    if ws != [] {
      LiveWaiterSplits(s, ws);
      ResumeUnavailableBlank(s, ws[0], io);
      hide Resume;
      ResumeAllUnavailableBlank(Resume(s, ws[0], Unavailable, true, io), ws[1..], io);
    }
  }

  lemma FinishedBlank(s: App, id: nat, o: Outcome)
    requires Blank(s) && id in s.checks && !o.Adopted?
    ensures Blank(Finished(s, id, o))
  {
  }

  lemma PromoteBlank(s: App, io: Io)
    requires Blank(s) && s.player.Some? && s.provisional && io.Valid()
    ensures var t := EffectThen(s, Some(s.gen), NoNewerCloud, true, io);
            Blank(t) || Single(t)
  {
    var t := s.(provisional := false, vetted := s.vetted + {s.player.value});
    assert Blank(t);
    SaveConfirmedBlank(t, s.player.value, io);
  }

  lemma AnswerBlank(s: App, id: nat, readable: bool, io: Io)
    requires Blank(s) && Enabled(s, CloudAnswers(id, readable, io))
    ensures var t := Next(s, CloudAnswers(id, readable, io));
            Blank(t) || Single(t)
  {
    var c := s.checks[id];
    var o := if readable then NoNewerCloud else Unavailable;
    var t := Finished(s, id, o);
    FinishedBlank(s, id, o);
    assert LiveWaiter(s, c.waiters) && s.player.None? ==> s.selecting;
    hide Blank;
    if readable {
      ResolveConfirmedForm(s, id, true, io);
      if c.effectGen == Some(s.gen) && s.provisional && s.player.Some? {
        PromoteBlank(t, io);
      } else if LiveWaiter(s, c.waiters) && s.player.None? {
        CreateBlank(t, true, io);
      }
    } else {
      ResumeAllUnavailableBlank(t, c.waiters, io);
    }
  }

  /** A call is started while a selection is up or a character is live, or for neither. */
  lemma AddCheckBlank(s: App, t: App, id: nat, c: Check)
    requires Blank(s) && id !in s.checks && c.stage.Reading?
    requires t == s.(checks := s.checks[id := c], check := t.check, reconciled := t.reconciled, view := t.view)
    requires t.reconciled == s.reconciled || t.reconciled == Some(s.gen)
    requires t.check == s.check || t.check == Pending(id)
    requires forall i :: 0 <= i < |c.waiters| ==> c.waiters[i].gen <= s.gen
    requires s.player.Some? || s.selecting
    ensures Blank(t)
  {
  }

  lemma AddWaiterBlank(s: App, p: nat, w: Waiter)
    requires Blank(s) && s.selecting && p in s.checks && w.gen == s.gen
    ensures Blank(s.(checks := s.checks[p := s.checks[p].(waiters := s.checks[p].waiters + [w])]))
  {
    var t := s.(checks := s.checks[p := s.checks[p].(waiters := s.checks[p].waiters + [w])]);
    assert Captured(t) && Attended(t);
  }

  lemma TapBlank(s: App, id: nat, parses: bool, io: Io)
    requires Blank(s) && Enabled(s, Tap(id, parses, io))
    ensures var t := Next(s, Tap(id, parses, io));
            Blank(t) || Single(t)
  {
    var w := Waiter(s.gen, ARCHETYPE_CLOUD_RETRIES);
    assert s.check.Pending? ==> s.check.id in s.checks;
    assert !(s.check.Done? && s.check.outcome.Adopted?);
    hide Blank;
    match s.check
    case NoCheck => AddCheckBlank(s, Next(s, Tap(id, parses, io)), id, Check(Reading, None, [w]));
    case Pending(p) => AddWaiterBlank(s, p, w);
    case Done(o) =>
      if o.Unavailable? {
        SleepBlank(s, Waiter(s.gen, ARCHETYPE_CLOUD_RETRIES - 1));
      } else if s.player.None? {
        CreateBlank(s, true, io);
      }
  }

  lemma LoadsBlank(s: App, loads: set<Load>)
    requires Blank(s)
    ensures Blank(s.(loads := loads))
  {
  }

  lemma LoadedNoneBlank(s: App)
    requires Blank(s)
    ensures Blank(LoadedNone(s, s.gen))
  {
  }

  lemma LoadedBlank(s: App, parses: bool)
    requires Blank(s) && s.local.Some?
    ensures Blank(Loaded(s, s.gen, parses))
  {
  }

  lemma UnreadBlank(s: App, cleared: bool)
    requires Blank(s)
    ensures Blank(Unread(s, cleared))
  {
  }

  lemma LoadBlank(s: App, act: Action)
    requires Blank(s) && Enabled(s, act) && (act.LoadRead? || act.LoadFails? || act.LoadMissed?)
    ensures Blank(Next(s, act))
  {
    hide Blank, LoadedNone, Unread;
    match act
    case LoadRead(g, parses) =>
      LoadsBlank(s, s.loads - {Load(g, false)});
      if g == s.gen {
        if s.local.None? {
          LoadedNoneBlank(s.(loads := s.loads - {Load(g, false)}));
        } else {
          LoadedBlank(s, parses);
        }
      }
    case LoadFails(g, cleared) =>
      var loads := s.loads - {Load(g, false)} + {Load(g, true)};
      LoadsBlank(s, loads);
      UnreadBlank(s.(loads := loads), cleared);
    case LoadMissed(g) =>
      LoadsBlank(s, s.loads - {Load(g, true)});
      LoadedNoneBlank(s.(loads := s.loads - {Load(g, true)}));
  }

  lemma PublishBlank(s: App)
    requires Blank(s) && s.player.Some?
    ensures Blank(Publish(s))
  {
  }

  lemma SelectBlank(s: App, view: View)
    requires Blank(s)
    ensures Blank(s.(commit := None)) && Blank(s.(commit := None, selecting := true, view := view))
  {
  }

  lemma CommittedBlank(s: App)
    requires Blank(s) && s.commit.Some?
    ensures Blank(Committed(s, s.commit.value))
  {
    hide Blank;
    SelectBlank(s, s.view.(due := s.view.due || !s.selecting));
    if s.player.Some? { PublishBlank(s.(commit := None)); }
  }

  lemma ScreenBlank(s: App, act: Action)
    requires Blank(s) && Enabled(s, act) && (act.Repaint? || act.Arm? || act.EffectReturns?)
    ensures Blank(Next(s, act))
  {
  }

  lemma BlankFacts(s: App)
    requires Blank(s)
    ensures s.player.None? ==> s.shown.None?
    ensures s.commit.Some? && s.commit.value.ShowSelection? ==> s.commit.value.gen <= s.gen
    ensures s.local.Some? ==> s.local.value.who < s.nextChar
    ensures s.player.Some? ==> s.player.value < s.nextChar
  {
  }

  lemma SessionBlank(s: App, act: Action)
    requires Blank(s) && Enabled(s, act)
    requires act.StartLoad? || act.ClearPlayer? || act.Kill? || act.Reinstall?
    ensures Blank(Next(s, act))
  {
  }

  lemma EffectStartsBlank(s: App, id: nat)
    requires Blank(s) && Enabled(s, EffectStarts(id))
    ensures Blank(Next(s, EffectStarts(id)))
  {
    BlankFacts(s);
    hide Blank;
    AddCheckBlank(s, Next(s, EffectStarts(id)), id, Check(Reading, Some(s.gen), []));
  }

  lemma DropSleeperBlank(s: App, w: Waiter)
    requires Blank(s)
    ensures Blank(s.(sleeping := s.sleeping - multiset{w}))
  {
  }

  lemma WakeBlank(s: App, w: Waiter, id: nat)
    requires Blank(s) && Enabled(s, Wake(w, id))
    ensures Blank(Next(s, Wake(w, id)))
  {
    DropSleeperBlank(s, w);
    assert w.gen == s.gen ==> s.player.Some? || s.selecting;
    hide Blank;
    if w.gen == s.gen {
      AddCheckBlank(s.(sleeping := s.sleeping - multiset{w}), Next(s, Wake(w, id)), id, Check(Reading, None, [w]));
    }
  }

  /** From there any step whatever leaves nothing claimed, or one character in line. */
  lemma BlankStep(s: App, act: Action)
    requires Blank(s) && Enabled(s, act)
    ensures Blank(Next(s, act)) || Single(Next(s, act))
  {
    assert !act.CompareFails? && !act.Compare? && !act.Persist? && !act.Deliver? && !act.Drop?;
    hide Blank;
    match act
    case StartLoad => SessionBlank(s, act);
    case ClearPlayer => SessionBlank(s, act);
    case LoadRead(_, _) => LoadBlank(s, act);
    case LoadFails(_, _) => LoadBlank(s, act);
    case LoadMissed(_) => LoadBlank(s, act);
    case FireCommit => CommittedBlank(s);
    case Repaint => ScreenBlank(s, act);
    case EffectStarts(id) => EffectStartsBlank(s, id);
    case EffectReturns => ScreenBlank(s, act);
    case Tap(id, parses, io) => TapBlank(s, id, parses, io);
    case CloudAnswers(id, readable, io) => AnswerBlank(s, id, readable, io);
    case Wake(w, id) => WakeBlank(s, w, id);
    case Arm(_) => ScreenBlank(s, act);
    case SaveProgress(io) => SaveBlank(s, act);
    case SaveStale(c, io) => SaveBlank(s, act);
    case Kill => SessionBlank(s, act);
    case Reinstall => SessionBlank(s, act);
  }

  lemma SaveBlank(s: App, act: Action)
    requires Blank(s) && Enabled(s, act) && (act.SaveProgress? || act.SaveStale?)
    ensures Blank(Next(s, act)) || Single(Next(s, act))
  {
    var c := if act.SaveStale? then act.c else s.player.value;
    assert c < s.nextChar;
    hide Blank;
    SetAndSaveBlank(s, c, act.io);
  }

  // ---- a selection that can only adopt ----

  /** The session as if the device held no snapshot. */
  function Bare(s: App): (t: App) {
    s.(local := None)
  }

  /** The reconcile call can only end by adopting the record it read. */
  predicate Adopts(s: App, stage: Stage) {
    stage.Missed? || stage.Writing? || (stage.Deciding? && stage.rec.savedAt > LocalSavedAt(s))
  }

  /** Whoever awaits a reconcile call, or will by the next tap, can only be told to adopt. */
  ghost predicate OnlyAdopts(s: App) {
    && !s.view.due && !LiveSleeper(s)
    && (s.check.Pending? || (s.check.Done? && s.check.outcome.Adopted?))
    && (forall id :: id in s.checks && (LiveWaiter(s, s.checks[id].waiters) || s.check == Pending(id)) ==>
          Adopts(s, s.checks[id].stage))
  }

  /** The record of a has been persisted behind the back of a selection that will adopt it. */
  ghost predicate Adopting(s: App, a: Character) {
    && Core(Bare(s), a) && s.cloud.Some? && Confirmed(s.local) && s.local.value.who == a
    && s.player.None? && s.selecting && OnlyAdopts(s)
  }

  /** Nobody but the live session is concerned, and the snapshot is kept. */
  lemma AdoptingFrame(s: App, t: App, a: Character)
    requires Adopting(s, a) && Core(Bare(t), a) && t.cloud.Some? && t.local == s.local
    requires t.player.None? && t.selecting && OnlyAdopts(t)
    ensures Adopting(t, a)
  {
  }

  /** Once the character of the record is live, or nothing is, the snapshot does no harm. */
  lemma SnapshotRestored(s: App, a: Character)
    requires Core(Bare(s), a) && s.cloud.Some? && Confirmed(s.local) && s.local.value.who == a
    requires (s.player == Some(a) && !s.provisional) || (s.player.None? && Idle(s))
    ensures Core(s, a)
  {
    StoreQuietlyKeeps(Bare(s), a, s.local.value);
    assert Bare(s).(local := Some(s.local.value)) == s;
  }

  lemma AdoptRestores(s: App, a: Character)
    requires Core(Bare(s), a) && s.cloud.Some? && Confirmed(s.local) && s.local.value.who == a
    ensures Core(Adopt(s, a), a)
  {
    StoreAndAdoptKeeps(Bare(s), a, s.local.value);
    assert Bare(s).(local := Some(s.local.value)) == s;
  }

  /** The steps that neither read nor write the snapshot. */
  predicate LeavesSnapshot(s: App, act: Action) {
    || act.StartLoad? || act.ClearPlayer? || act.Arm? || act.Wake?
    || ((act.FireCommit? || act.Repaint?) && s.player.None?)
    || act.Deliver? || act.Drop? || act.Kill? || (act.LoadFails? && !act.cleared)
    || ((act.LoadRead? || act.LoadMissed?) && act.g != s.gen) || (act.CompareFails? && !act.cleared)
    || (act.CloudAnswers? && act.readable && s.cloud.Some?)
  }

  lemma StepAside(s: App, act: Action)
    requires Enabled(s, act) && LeavesSnapshot(s, act)
    ensures Enabled(Bare(s), act) && !Conflict(Bare(s), act)
    ensures Bare(Next(s, act)) == Next(Bare(s), act) && Next(s, act).local == s.local
  {
    if act.FireCommit? || act.Repaint? {
      ScreenAside(s, act);
    } else if act.Arm? || act.Wake? {
      SelectionAside(s, act);
    } else if act.LoadFails? || act.LoadRead? || act.LoadMissed? || act.CompareFails? || act.CloudAnswers? {
      ReadAside(s, act);
    } else {
      SessionAside(s, act);
    }
    hide Next, Enabled, LeavesSnapshot;
  }

  lemma ScreenAside(s: App, act: Action)
    requires Enabled(s, act) && (act.FireCommit? || act.Repaint?) && s.player.None?
    ensures Enabled(Bare(s), act) && Bare(Next(s, act)) == Next(Bare(s), act) && Next(s, act).local == s.local
  {
    hide Resolve, Tapped, SetAndSave, Loaded, Publish;
  }

  lemma SessionAside(s: App, act: Action)
    requires Enabled(s, act) && (act.StartLoad? || act.ClearPlayer? || act.Deliver? || act.Drop? || act.Kill?)
    ensures Enabled(Bare(s), act) && Bare(Next(s, act)) == Next(Bare(s), act) && Next(s, act).local == s.local
  {
    hide Resolve, Tapped, SetAndSave, Loaded, Committed;
  }

  lemma SelectionAside(s: App, act: Action)
    requires Enabled(s, act) && (act.Arm? || act.Wake?)
    ensures Enabled(Bare(s), act) && Bare(Next(s, act)) == Next(Bare(s), act) && Next(s, act).local == s.local
  {
    hide Resolve, Tapped, SetAndSave, Loaded, Committed;
  }

  lemma ReadAside(s: App, act: Action)
    requires Enabled(s, act) && LeavesSnapshot(s, act)
    requires act.LoadFails? || act.LoadRead? || act.LoadMissed? || act.CompareFails? || act.CloudAnswers?
    ensures Enabled(Bare(s), act) && Bare(Next(s, act)) == Next(Bare(s), act) && Next(s, act).local == s.local
  {
    hide Resolve, Tapped, SetAndSave, Committed;
  }

  lemma AsideKeepsCore(s: App, act: Action, a: Character)
    requires Adopting(s, a) && Enabled(s, act) && LeavesSnapshot(s, act)
    ensures Core(Bare(Next(s, act)), a) && Next(s, act).local == s.local && Next(s, act).cloud.Some?
  {
    hide Core, OnlyAdopts, Next;
    StepAside(s, act);
    var a' := CoreStep(Bare(s), a, act);
    CloudStays(s, act);
  }

  /** A restart of the session leaves one character in line. */
  lemma AdoptingEnds(s: App, act: Action, a: Character)
    requires Adopting(s, a) && Enabled(s, act) && (act.ClearPlayer? || act.Kill?)
    ensures Core(Next(s, act), a)
  {
    AsideKeepsCore(s, act, a);
    hide Core, OnlyAdopts;
    SnapshotRestored(Next(s, act), a);
  }

  /** Losing the snapshot does too. */
  lemma AdoptingForgets(s: App, act: Action, a: Character)
    requires Adopting(s, a) && Enabled(s, act)
    requires act.Reinstall? || (act.LoadFails? && act.cleared) || (act.CompareFails? && act.cleared)
    ensures Core(Next(s, act), a)
  {
    hide Core, OnlyAdopts, Resolve, Tapped, SetAndSave;
    assert Next(s, act) == Next(Bare(s), act);
    var a' := CoreStep(Bare(s), a, act);
  }

  lemma AdoptingWaits(s: App, act: Action, a: Character)
    requires Adopting(s, a) && Enabled(s, act) && LeavesSnapshot(s, act) && !act.ClearPlayer? && !act.Kill?
    ensures Adopting(Next(s, act), a)
  {
    AsideKeepsCore(s, act, a);
    WaitsOnlyAdopts(s, act, a);
    assert Next(s, act).player.None? && Next(s, act).selecting by {
      hide Core, OnlyAdopts, Resolve, Tapped, SetAndSave;
    }
    hide Core, OnlyAdopts, Next;
    AdoptingFrame(s, Next(s, act), a);
  }

  lemma WaitsOnlyAdopts(s: App, act: Action, a: Character)
    requires Adopting(s, a) && Enabled(s, act) && LeavesSnapshot(s, act) && !act.ClearPlayer? && !act.Kill?
    ensures OnlyAdopts(Next(s, act))
  {
    assert Captured(s) by { assert Captured(Bare(s)); }
    assert s.player.None? && s.selecting && !s.view.due && OnlyAdopts(s);
    hide Core, OnlyAdopts, Captured;
    match act
    case StartLoad => ReloadOnlyAdopts(s);
    case CompareFails(id, _) => AdvanceOnlyAdopts(s, id, Missed(s.checks[id].stage.rec));
    case CloudAnswers(id, _, _) =>
      ReadingIsNobodys(s, id);
      AdvanceOnlyAdopts(s, id, Deciding(s.cloud.value));
    case Wake(w, _) => WakeOnlyAdopts(s, act);
    case _ => FrameOnlyAdopts(s, act);
  }

  lemma ReloadOnlyAdopts(s: App)
    requires OnlyAdopts(s) && Captured(s)
    ensures OnlyAdopts(Next(s, StartLoad))
  {
  }

  lemma ReadingIsNobodys(s: App, id: nat)
    requires OnlyAdopts(s) && id in s.checks && s.checks[id].stage.Reading?
    ensures !LiveWaiter(s, s.checks[id].waiters) && s.check != Pending(id)
  {
  }

  lemma AdvanceOnlyAdopts(s: App, id: nat, stage: Stage)
    requires OnlyAdopts(s) && id in s.checks
    requires Adopts(s, stage) || (!LiveWaiter(s, s.checks[id].waiters) && s.check != Pending(id))
    ensures OnlyAdopts(s.(checks := s.checks[id := s.checks[id].(stage := stage)]))
  {
  }

  lemma WakeOnlyAdopts(s: App, act: Action)
    requires OnlyAdopts(s) && act.Wake? && Enabled(s, act)
    ensures OnlyAdopts(Next(s, act))
  {
  }

  lemma SameOnlyAdopts(s: App, t: App)
    requires OnlyAdopts(s) && t.check == s.check && t.checks == s.checks && t.sleeping == s.sleeping
    requires t.gen == s.gen && t.local == s.local && !t.view.due
    ensures OnlyAdopts(t)
  {
  }

  lemma FrameOnlyAdopts(s: App, act: Action)
    requires OnlyAdopts(s) && s.player.None? && s.selecting && !s.view.due && Enabled(s, act)
    requires LeavesSnapshot(s, act) && !act.ClearPlayer? && !act.Kill? && !act.StartLoad? && !act.CompareFails?
    requires !act.CloudAnswers? && !act.Wake?
    ensures OnlyAdopts(Next(s, act))
  {
    hide OnlyAdopts, Resolve, Tapped, SetAndSave, Publish;
    if act.FireCommit? || act.Repaint? {
      SameOnlyAdopts(s, Next(s, act));
    } else {
      hide Committed;
      SameOnlyAdopts(s, Next(s, act));
    }
  }

  // the steps that end a reconcile call, and the tap

  lemma AdoptingTap(s: App, a: Character, id: nat, parses: bool, io: Io)
    requires Adopting(s, a) && Enabled(s, Tap(id, parses, io))
    ensures var t := Next(s, Tap(id, parses, io));
            Adopting(t, a) || Core(t, a)
  {
    var w := Waiter(s.gen, ARCHETYPE_CLOUD_RETRIES);
    match s.check
    case Pending(p) =>
      assert p in s.checks by { assert Bare(s).check.id in Bare(s).checks; }
      AddWaiterKeeps(Bare(s), a, p);
      var t := s.(checks := s.checks[p := s.checks[p].(waiters := s.checks[p].waiters + [w])]);
      TapOnlyAdopts(s, p, w);
      assert Bare(t) == Bare(s).(checks := s.checks[p := s.checks[p].(waiters := s.checks[p].waiters + [w])]);
      hide Core, OnlyAdopts;
      AdoptingFrame(s, t, a);
    case Done(o) =>
      assert o == Adopted(a);
      hide Core, OnlyAdopts;
      if parses { AdoptRestores(s, a); }
  }

  lemma TapOnlyAdopts(s: App, p: nat, w: Waiter)
    requires OnlyAdopts(s) && s.check == Pending(p) && p in s.checks
    ensures OnlyAdopts(s.(checks := s.checks[p := s.checks[p].(waiters := s.checks[p].waiters + [w])]))
  {
  }

  /** A call that nobody awaits comes to nothing. */
  lemma QuietFinish(s: App, a: Character, id: nat, o: Outcome)
    requires Adopting(s, a) && id in s.checks
    requires o == Adopted(a) || s.check != Pending(id)
    ensures Adopting(Finished(s, id, o), a)
  {
    var t := FinishCheckKeeps(Bare(s), a, id, if s.check == Pending(id) then o else Unavailable);
    assert t == Bare(Finished(s, id, o));
    FinishOnlyAdopts(s, id, o);
    hide Core, OnlyAdopts;
    AdoptingFrame(s, Finished(s, id, o), a);
  }

  lemma FinishOnlyAdopts(s: App, id: nat, o: Outcome)
    requires OnlyAdopts(s) && id in s.checks && (o.Adopted? || s.check != Pending(id))
    ensures OnlyAdopts(Finished(s, id, o))
  {
    var t := Finished(s, id, o);
    assert forall k :: k in t.checks ==> t.checks[k] == s.checks[k];
  }

  lemma AdoptingUnreadable(s: App, a: Character, id: nat, io: Io)
    requires Adopting(s, a) && Enabled(s, CloudAnswers(id, false, io))
    ensures Adopting(Next(s, CloudAnswers(id, false, io)), a)
  {
    ReadingIsNobodys(s, id);
    QuietFinish(s, a, id, Unavailable);
    hide Core, OnlyAdopts, Adopting;
    ResumeAllStale(Finished(s, id, Unavailable), s.checks[id].waiters, Unavailable, io);
  }

  lemma {:induction false} ResumeAllStale(s: App, ws: seq<Waiter>, o: Outcome, io: Io)
    requires !LiveWaiter(s, ws)
    ensures ResumeAll(s, ws, o, true, io) == s
    decreases |ws|
  {
    if ws != [] {
      LiveWaiterSplits(s, ws);
      ResumeAllStale(s, ws[1..], o, io);
    }
  }

  lemma RecordOfCheck(s: App, a: Character, id: nat)
    requires Core(Bare(s), a) && id in s.checks && !s.checks[id].stage.Reading?
    ensures 0 < s.checks[id].stage.rec.savedAt && s.checks[id].stage.rec.who == a
  {
    assert id in Bare(s).checks;
  }

  lemma NotNewerIsNobodys(s: App, id: nat)
    requires OnlyAdopts(s) && id in s.checks && !Adopts(s, s.checks[id].stage)
    ensures !LiveWaiter(s, s.checks[id].waiters) && s.check != Pending(id)
  {
  }

  lemma AdoptingCompare(s: App, a: Character, id: nat, io: Io)
    requires Adopting(s, a) && Enabled(s, Compare(id, io))
    ensures Adopting(Next(s, Compare(id, io)), a)
  {
    var rec := s.checks[id].stage.rec;
    RecordOfCheck(s, a, id);
    hide Core, OnlyAdopts, Resolve;
    if s.checks[id].stage.Deciding? && rec.savedAt <= LocalSavedAt(s) {
      NotNewerIsNobodys(s, id);
      QuietFinish(s, a, id, NoNewerCloud);
      ResolveConfirmedForm(s, id, true, io);
    } else {
      AdoptingAdvances(s, a, id, rec);
    }
  }

  lemma AdoptingAdvances(s: App, a: Character, id: nat, rec: Save)
    requires Adopting(s, a) && id in s.checks && rec.who == a && 0 < rec.savedAt
    ensures Adopting(s.(checks := s.checks[id := s.checks[id].(stage := Writing(rec))]), a)
  {
    var t := s.(checks := s.checks[id := s.checks[id].(stage := Writing(rec))]);
    AdvanceOnlyAdopts(s, id, Writing(rec));
    hide Core, OnlyAdopts;
    AdvanceCheckKeeps(Bare(s), a, id, Writing(rec));
    assert Bare(t) == Bare(s).(checks := s.checks[id := s.checks[id].(stage := Writing(rec))]);
    AdoptingFrame(s, t, a);
  }

  lemma AdoptingPersist(s: App, a: Character, id: nat, stored: bool, parses: bool, io: Io)
    requires Adopting(s, a) && Enabled(s, Persist(id, stored, parses, io))
    requires !Conflict(s, Persist(id, stored, parses, io))
    ensures var t := Next(s, Persist(id, stored, parses, io));
            Adopting(t, a) || Core(t, a)
  {
    var rec := s.checks[id].stage.rec;
    RecordOfCheck(s, a, id);
    var s' := if stored then s.(local := Some(rec)) else s;
    ResolveAdoptedForm(s', id, a, parses, io);
    QuietFinish(s, a, id, Adopted(a));
    hide OnlyAdopts, Resolve;
    if parses && (s.checks[id].effectGen == Some(s.gen) || LiveWaiter(s, s.checks[id].waiters)) {
      var t := Finished(s', id, Adopted(a));
      assert Bare(t) == Bare(Finished(s, id, Adopted(a)));
      hide Core;
      AdoptRestores(t, a);
    }
  }

  lemma AdoptingLoad(s: App, a: Character, g: nat, parses: bool)
    requires Adopting(s, a) && Enabled(s, LoadRead(g, parses)) && !Conflict(s, LoadRead(g, parses)) && g == s.gen
    ensures Core(Next(s, LoadRead(g, parses)), a)
  {
    assert parses;
    LoadRestores(s, a);
  }

  lemma LoadRestores(s: App, a: Character)
    requires Core(Bare(s), a) && s.cloud.Some? && Confirmed(s.local) && s.local.value.who == a
    ensures Core(Loaded(s, s.gen, true), a)
  {
  }

  lemma AdoptingStep(s: App, act: Action, a: Character)
    requires Adopting(s, a) && Enabled(s, act) && !Conflict(s, act)
    ensures Adopting(Next(s, act), a) || Core(Next(s, act), a)
  {
    assert !act.EffectStarts? && !act.EffectReturns? && !act.SaveProgress? && !act.SaveStale?;
    assert act.LoadMissed? ==> act.g != s.gen;
    hide Adopting, Core, Conflict, Next;
    match act
    case ClearPlayer => AdoptingEnds(s, act, a);
    case Kill => AdoptingEnds(s, act, a);
    case Reinstall => AdoptingForgets(s, act, a);
    case Tap(id, parses, io) => AdoptingTap(s, a, id, parses, io);
    case Compare(id, io) => AdoptingCompare(s, a, id, io);
    case Persist(id, stored, parses, io) => AdoptingPersist(s, a, id, stored, parses, io);
    case LoadRead(g, parses) =>
      if g == s.gen {
        AdoptingLoad(s, a, g, parses);
      } else {
        AdoptingWaits(s, act, a);
      }
    case LoadFails(_, cleared) =>
      if cleared {
        AdoptingForgets(s, act, a);
      } else {
        AdoptingWaits(s, act, a);
      }
    case CompareFails(_, cleared) =>
      if cleared {
        AdoptingForgets(s, act, a);
      } else {
        AdoptingWaits(s, act, a);
      }
    case CloudAnswers(id, readable, io) =>
      if readable {
        AdoptingWaits(s, act, a);
      } else {
        AdoptingUnreadable(s, a, id, io);
      }
    case _ => AdoptingWaits(s, act, a);
  }

  // ---- the exact condition ----

  /** Ordinary steps cannot replace a record from here. */
  ghost predicate Harmless(s: App) {
    Single(s) || Blank(s) || exists a :: Adopting(s, a)
  }

  lemma HarmlessStep(s: App, act: Action)
    requires Harmless(s) && Enabled(s, act) && !Conflict(s, act)
    ensures Harmless(Next(s, act))
    ensures s.cloud.Some? ==> Next(s, act).cloud.Some? && Next(s, act).cloud.value.who == s.cloud.value.who
  {
    hide Next, Conflict;
    if Single(s) {
      OwnerStep(s, act);
    } else if Blank(s) {
      BlankStep(s, act);
    } else {
      var a :| Adopting(s, a);
      AdoptingStep(s, act, a);
      CloudStays(s, act);
      OwnerOfAdopting(s, Next(s, act), a);
    }
  }

  lemma OwnerOfAdopting(s: App, t: App, a: Character)
    requires Adopting(s, a) && (Adopting(t, a) || Core(t, a)) && t.cloud.Some?
    ensures t.cloud.value.who == s.cloud.value.who
    ensures Harmless(t)
  {
  }

  lemma {:induction false} ReachesHarmless(s: App, acts: seq<Action>, t: App)
    requires Harmless(s) && Reaches(s, acts, t)
    ensures Harmless(t)
    ensures s.cloud.Some? ==> t.cloud.Some? && t.cloud.value.who == s.cloud.value.who
    decreases |acts|
  {
    hide Harmless, Conflict, Smuggles, Next;
    if acts != [] {
      HarmlessStep(s, acts[0]);
      ReachesHarmless(Next(s, acts[0]), acts[1..], t);
    }
  }

  lemma HarmlessCannotOverwrite(s: App)
    requires Harmless(s)
    ensures !CanOverwrite(s)
  {
    hide Harmless;
    forall acts, t, acts', t' | Reaches(s, acts, t) && Reaches(t, acts', t')
      ensures !Replaced(t, t')
    {
      ReachesHarmless(s, acts, t);
      ReachesHarmless(t, acts', t');
    }
  }

  /** A lost adoption beside a selection that cannot end otherwise than by adopting the record. */
  lemma LostAdoptionHarmless(s: App, a: Character, act: Action)
    requires Core(s, a) && Enabled(s, act) && act.Persist? && Hazard(s, act)
    requires s.player.None? && !AsksAgain(Next(s, act))
    ensures Adopting(Next(s, act), a)
  {
    LostAdoptionForm(s, act);
    var t := Persisted(s, act.id);
    assert s.cloud.Some? && s.checks[act.id].stage.rec.who == a && 0 < s.checks[act.id].stage.rec.savedAt;
    UnreadKeeps(s, a, true);
    var u := FinishCheckKeeps(Bare(s), a, act.id, Adopted(a));
    assert u == Bare(t);
    NothingElseAsked(s, a, t);
    hide Core, AsksAgain, Next;
  }

  lemma NothingElseAsked(s: App, a: Character, t: App)
    requires Core(s, a) && s.cloud.Some? && s.player.None? && !Idle(s) && !AsksAgain(t)
    requires t == s.(local := t.local, check := t.check, checks := t.checks)
    requires t.check == s.check || (s.check.Pending? && t.check.Done? && t.check.outcome.Adopted?)
    requires t.check.Pending? ==> t.check.id in t.checks
    ensures t.selecting && OnlyAdopts(t)
  {
  }

  /** From any safe state, a hazard makes an overwrite by ordinary steps possible exactly when a write is under
      way and there is no record yet, or there is one and the hazard is not the persisting of that record
      beside a selection that can only adopt it. */
  lemma HazardOverwritesIff(s: App, act: Action)
    requires Safe(s) && Enabled(s, act) && Hazard(s, act)
    ensures CanOverwrite(Next(s, act)) <==> Exposes(s, act)
  {
    if Exposes(s, act) {
      HazardCanOverwrite(s, act);
    } else {
      var a :| Inv(s, a);
      if s.cloud.None? {
        SingleIsBlank(s, a);
        BlankStep(s, act);
      } else {
        LostAdoptionHarmless(s, a, act);
      }
      HarmlessCannotOverwrite(Next(s, act));
    }
  }
}
