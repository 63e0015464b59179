/** Safety of the save protocol: a step keeps the invariant exactly when it is not a hazard, and over every
    hazard-free run no cloud record is replaced by another character's. */
module SaveSafety {
  import opened Basics
  import opened SaveProtocol

  // ---- closed forms of the continuations ----

  lemma {:induction false} ResumeAllAdopted(s: App, ws: seq<Waiter>, c: Character, parses: bool, io: Io)
    ensures ResumeAll(s, ws, Adopted(c), parses, io) ==
            if LiveWaiter(s, ws) && s.player.None? && parses then Adopt(s, c) else s
    decreases |ws|
  {
    if ws != [] {
      var t := Resume(s, ws[0], Adopted(c), parses, io);
      ResumeAllAdopted(t, ws[1..], c, parses, io);
      LiveWaiterSplits(s, ws);
    }
  }

  lemma {:induction false} ResumeAllConfirmed(s: App, ws: seq<Waiter>, parses: bool, io: Io)
    ensures ResumeAll(s, ws, NoNewerCloud, parses, io) ==
            if LiveWaiter(s, ws) && s.player.None? then Create(s, true, io) else s
    decreases |ws|
  {
    if ws != [] {
      var t := Resume(s, ws[0], NoNewerCloud, parses, io);
      ResumeAllConfirmed(t, ws[1..], parses, io);
      LiveWaiterSplits(s, ws);
    }
  }

  lemma LiveWaiterSplits(s: App, ws: seq<Waiter>)
    requires ws != []
    ensures LiveWaiter(s, ws) <==> ws[0].gen == s.gen || LiveWaiter(s, ws[1..])
  {
  }

  lemma SleepKeeps(s: App, a: Character, w: Waiter)
    requires Core(s, a) && w.gen <= s.gen && (s.player.None? ==> s.selecting)
    ensures Core(s.(sleeping := s.sleeping + multiset{w}), a)
  {
  }

  lemma CreateProvisionalKeeps(s: App, a: Character, io: Io)
    requires Core(s, a) && s.player.None? && !Confirmed(s.local) && io.Valid()
    ensures Core(Create(s, false, io), a)
  {
  }

  lemma {:induction false} ResumeAllUnavailable(s: App, a: Character, ws: seq<Waiter>, parses: bool, io: Io)
    requires Core(s, a) && io.Valid()
    requires LiveWaiter(s, ws) && s.player.None? ==> s.selecting
    ensures Core(ResumeAll(s, ws, Unavailable, parses, io), a)
    ensures ResumeAll(s, ws, Unavailable, parses, io).cloud == s.cloud
    decreases |ws|
  {
    hide Core, Create, Confirmed;
    if ws != [] {
      LiveWaiterSplits(s, ws);
      var t := ResumeUnavailable(s, a, ws[0], parses, io);
      ResumeAllUnavailable(t, a, ws[1..], parses, io);
    }
  }

  lemma ResumeUnavailable(s: App, a: Character, w: Waiter, parses: bool, io: Io) returns (t: App)
    requires Core(s, a) && io.Valid()
    requires w.gen == s.gen && s.player.None? ==> s.selecting
    ensures t == Resume(s, w, Unavailable, parses, io) && Core(t, a) && t.cloud == s.cloud && t.gen == s.gen
    ensures s.player.Some? ==> t.player.Some?
    ensures t.selecting == s.selecting
  {
    assert s.player.None? && s.selecting ==> !Confirmed(s.local);
    hide Core;
    t := Resume(s, w, Unavailable, parses, io);
    if w.gen == s.gen {
      if 0 < w.retries {
        SleepKeeps(s, a, Waiter(w.gen, w.retries - 1));
      } else if s.player.None? {
        CreateProvisionalKeeps(s, a, io);
      }
    }
  }

  // ---- every step but a hazard keeps the invariant ----

  lemma StartLoadKeeps(s: App, a: Character)
    requires Core(s, a)
    ensures Core(Next(s, StartLoad), a)
  {
  }

  lemma ClearPlayerKeeps(s: App, a: Character)
    requires Core(s, a)
    ensures Core(Next(s, ClearPlayer), a)
  {
  }

  /** Screen changes keep the invariant unless they offer a selection over a confirmed snapshot. */
  lemma ScreenFrame(s: App, t: App, a: Character)
    requires Core(s, a)
    requires t == s.(shown := t.shown, selecting := t.selecting, commit := t.commit, loads := t.loads, view := t.view)
    requires s.player.None? ==> t.shown.None? && (s.selecting ==> t.selecting)
    requires t.commit.Some? && t.commit.value.ShowSelection? ==> t.commit.value.gen <= s.gen
    requires Confirmed(s.local) && s.player.None? ==> !t.selecting && t.commit != Some(ShowSelection(s.gen))
    ensures Core(t, a)
  {
  }

  lemma CommittedKeeps(s: App, a: Character)
    requires Core(s, a) && s.commit.Some?
    ensures Core(Committed(s, s.commit.value), a)
  {
    assert s.commit.value.ShowSelection? ==> s.commit.value.gen <= s.gen;
    assert s.player.None? ==> s.shown.None?;
    assert Confirmed(s.local) && s.player.None? ==> Idle(s);
    hide Core;
    ScreenFrame(s, Committed(s, s.commit.value), a);
  }

  lemma PublishKeeps(s: App, a: Character)
    requires Core(s, a) && s.player.Some?
    ensures Core(Publish(s), a)
  {
    assert s.commit.Some? && s.commit.value.ShowSelection? ==> s.commit.value.gen <= s.gen;
    hide Core;
    ScreenFrame(s, Publish(s), a);
  }

  lemma ViewKeeps(s: App, a: Character, view: View)
    requires Core(s, a)
    ensures Core(s.(view := view), a) && Core(s.(view := view, commit := Some(ShowCreated)), a)
  {
  }

  lemma ScreenStepKeeps(s: App, a: Character, act: Action)
    requires Core(s, a) && Enabled(s, act) && (act.FireCommit? || act.Repaint? || act.Arm? || act.EffectReturns?)
    ensures Core(Next(s, act), a)
  {
    hide Core, Committed, Publish, Resolve, Tapped, Loaded, SetAndSave;
    match act
    case FireCommit => CommittedKeeps(s, a);
    case Repaint => if s.player.Some? { PublishKeeps(s, a); }
    case Arm(g) => ViewKeeps(s, a, s.view.(arming := s.view.arming - multiset{g}));
    case EffectReturns => ViewKeeps(s, a, s.view.(due := false));
  }

  /** Starting a reconcile call keeps the invariant unless a selection awaits it over a confirmed snapshot. */
  lemma AddCheckKeeps(s: App, t: App, a: Character, id: nat, c: Check)
    requires Core(s, a) && id !in s.checks && c.stage.Reading?
    requires t == s.(checks := s.checks[id := c], check := t.check, reconciled := t.reconciled, view := t.view)
    requires t.reconciled == s.reconciled || t.reconciled == Some(s.gen)
    requires t.check == s.check || t.check == Pending(id)
    requires forall i :: 0 <= i < |c.waiters| ==> c.waiters[i].gen <= s.gen
    requires s.player.None? && !s.selecting ==> t.check == NoCheck && !LiveWaiter(s, c.waiters)
    ensures Core(t, a)
  {
    assert Captured(t) && Attended(t) && Agrees(t, a) && Ordered(t);
    assert Settled(t) by {
      if Confirmed(s.local) && s.player.None? { assert Idle(s) && Idle(t); }
    }
  }

  lemma DeliverKeeps(s: App, a: Character, w: Save)
    requires Core(s, a) && w in s.queue
    ensures Core(Next(s, Deliver(w)), a)
  {
  }

  lemma DropKeeps(s: App, a: Character, w: Save)
    requires Core(s, a) && w in s.queue
    ensures Core(Next(s, Drop(w)), a)
  {
  }

  lemma RestartKeeps(s: App, a: Character, act: Action)
    requires Core(s, a) && (act.Kill? || act.Reinstall?)
    ensures Core(Next(s, act), a)
  {
  }

  lemma EffectStartsKeeps(s: App, a: Character, id: nat)
    requires Core(s, a) && Enabled(s, EffectStarts(id))
    ensures Core(Next(s, EffectStarts(id)), a)
  {
    hide Captured, Agrees, Ordered;
    AddCheckKeeps(s, Next(s, EffectStarts(id)), a, id, Check(Reading, Some(s.gen), []));
  }

  lemma DropSleeperKeeps(s: App, a: Character, w: Waiter)
    requires Core(s, a) && w in s.sleeping
    ensures Core(s.(sleeping := s.sleeping - multiset{w}), a)
  {
  }

  lemma WakeKeeps(s: App, a: Character, w: Waiter, id: nat)
    requires Core(s, a) && Enabled(s, Wake(w, id))
    ensures Core(Next(s, Wake(w, id)), a)
  {
    hide Agrees, Ordered;
    var t := s.(sleeping := s.sleeping - multiset{w});
    DropSleeperKeeps(s, a, w);
    if w.gen == s.gen {
      AddCheckKeeps(t, Next(s, Wake(w, id)), a, id, Check(Reading, None, [w]));
    }
  }

  lemma LoadNoneKeeps(s: App, a: Character) returns (a': Character)
    requires Core(s, a) && !EmptyLoadConflict(s)
    ensures Core(LoadedNone(s, s.gen), a') && (s.cloud.Some? ==> a' == a)
  {
    a' := if s.player.Some? && s.provisional && s.cloud.None? then s.player.value else a;
  }

  lemma LoadUnparsedKeeps(s: App, a: Character)
    requires Core(s, a) && s.local.Some? && (0 < s.local.value.savedAt ==> s.player.Some?)
    ensures Core(Loaded(s, s.gen, false), a)
  {
  }

  lemma LoadParsedKeeps(s: App, a: Character)
    requires Core(s, a) && s.local.Some?
    ensures Core(Loaded(s, s.gen, true), a)
  {
  }

  lemma LoadKeeps(s: App, a: Character, g: nat, parses: bool) returns (a': Character)
    requires Core(s, a) && Enabled(s, LoadRead(g, parses)) && !Conflict(s, LoadRead(g, parses))
    ensures Core(Loaded(s, g, parses), a') && (s.cloud.Some? ==> a' == a)
  {
    hide Agrees, Ordered;
    a' := a;
    var t := s.(loads := s.loads - {Load(g, false)});
    ScreenFrame(s, t, a);
    if g == s.gen {
      if s.local.None? {
        a' := LoadNoneKeeps(t, a);
      } else if !parses {
        LoadUnparsedKeeps(s, a);
      } else {
        LoadParsedKeeps(s, a);
      }
    }
  }

  lemma UnreadKeeps(s: App, a: Character, cleared: bool)
    requires Core(s, a) && !(cleared && s.queue != multiset{} && s.cloud.None?)
    ensures Core(Unread(s, cleared), a)
  {
  }

  lemma LoadFailsKeeps(s: App, a: Character, g: nat, cleared: bool)
    requires Core(s, a) && Enabled(s, LoadFails(g, cleared)) && !Conflict(s, LoadFails(g, cleared))
    ensures Core(Next(s, LoadFails(g, cleared)), a)
  {
    hide Agrees, Ordered;
    var t := s.(loads := s.loads - {Load(g, false)} + {Load(g, true)});
    ScreenFrame(s, t, a);
    UnreadKeeps(t, a, cleared);
  }

  lemma LoadMissedKeeps(s: App, a: Character, g: nat) returns (a': Character)
    requires Core(s, a) && Enabled(s, LoadMissed(g)) && !Conflict(s, LoadMissed(g))
    ensures Core(Next(s, LoadMissed(g)), a') && (s.cloud.Some? ==> a' == a)
  {
    hide Agrees, Ordered;
    a' := a;
    var t := s.(loads := s.loads - {Load(g, true)});
    ScreenFrame(s, t, a);
    if g == s.gen {
      a' := LoadNoneKeeps(t, a);
    }
  }

  lemma SaveProvisionalKeeps(s: App, a: Character, io: Io)
    requires Core(s, a) && s.player.Some? && s.provisional && io.Valid()
    ensures Core(SetAndSave(s, s.player.value, io), a)
  {
  }

  lemma SaveConfirmedKeeps(s: App, a: Character, io: Io)
    requires Core(s, a) && s.player.Some? && !s.provisional && io.Valid()
    ensures Core(SetAndSave(s, s.player.value, io), a)
  {
  }

  lemma SaveProgressKeeps(s: App, a: Character, io: Io)
    requires Core(s, a) && Enabled(s, SaveProgress(io))
    ensures Core(Next(s, SaveProgress(io)), a)
  {
    hide Core, SetAndSave;
    if s.provisional {
      SaveProvisionalKeeps(s, a, io);
    } else {
      SaveConfirmedKeeps(s, a, io);
    }
  }

  lemma SaveStaleKeeps(s: App, a: Character, c: Character, io: Io) returns (a': Character)
    requires Core(s, a) && Enabled(s, SaveStale(c, io)) && !Conflict(s, SaveStale(c, io))
    ensures Core(Next(s, SaveStale(c, io)), a') && (s.cloud.Some? ==> a' == a)
  {
    a' := if s.provisional then a else c;
  }

  /** Nothing confirmed exists, so a newly confirmed character becomes the only one. */
  lemma CreateConfirmedKeeps(s: App, a: Character, io: Io)
    requires Core(s, a) && s.player.None? && Unclaimed(s) && io.Valid()
    ensures Core(Create(s, true, io), s.nextChar)
  {
  }

  lemma PromoteKeeps(s: App, a: Character, io: Io)
    requires Core(s, a) && s.player.Some? && s.provisional && Unclaimed(s) && io.Valid()
    ensures Core(EffectThen(s, Some(s.gen), NoNewerCloud, true, io), s.player.value)
  {
  }

  lemma AdoptKeeps(s: App, a: Character)
    requires Core(s, a) && s.cloud.Some?
    ensures Core(Adopt(s, a), a)
  {
  }

  /** Removing a finished reconcile call and settling its promise keeps the invariant. */
  lemma FinishCheckKeeps(s: App, a: Character, id: nat, o: Outcome) returns (t: App)
    requires Core(s, a) && id in s.checks
    requires o.Adopted? ==> s.cloud.Some? && o.who == a
    requires o.NoNewerCloud? && s.check == Pending(id) && s.player.None? ==> Unclaimed(s)
    ensures t == s.(checks := s.checks - {id}, check := if s.check == Pending(id) then Done(o) else s.check)
    ensures Core(t, a)
  {
    t := s.(checks := s.checks - {id}, check := if s.check == Pending(id) then Done(o) else s.check);
    assert Captured(t) && Attended(t) && Agrees(t, a) && Ordered(t);
    assert Settled(t) by {
      if Confirmed(s.local) && s.player.None? { assert Idle(s) && Idle(t); }
    }
  }

  lemma ResolveUnavailableKeeps(s: App, a: Character, id: nat, parses: bool, io: Io)
    requires Core(s, a) && id in s.checks && io.Valid()
    ensures Core(Resolve(s, id, Unavailable, parses, io), a)
    ensures Resolve(s, id, Unavailable, parses, io).cloud == s.cloud
  {
    hide Captured, Agrees, Ordered;
    var t := FinishCheckKeeps(s, a, id, Unavailable);
    assert LiveWaiter(s, s.checks[id].waiters) && s.player.None? ==> s.selecting;
    ResumeAllUnavailable(t, a, s.checks[id].waiters, parses, io);
  }

  function Finished(s: App, id: nat, o: Outcome): (t: App) {
    s.(checks := s.checks - {id}, check := if s.check == Pending(id) then Done(o) else s.check)
  }

  /** What a confirmed-empty answer does: promote the live provisional character, or create the chosen one. */
  lemma ResolveConfirmedForm(s: App, id: nat, parses: bool, io: Io)
    requires id in s.checks
    ensures var t, c := Finished(s, id, NoNewerCloud), s.checks[id];
            Resolve(s, id, NoNewerCloud, parses, io) ==
            if c.effectGen == Some(s.gen) && s.provisional && s.player.Some?
            then EffectThen(t, Some(s.gen), NoNewerCloud, parses, io)
            else if LiveWaiter(s, c.waiters) && s.player.None? then Create(t, true, io) else t
  {
    var t, c := Finished(s, id, NoNewerCloud), s.checks[id];
    ResumeAllConfirmed(EffectThen(t, c.effectGen, NoNewerCloud, parses, io), c.waiters, parses, io);
  }

  /** Where someone could act on a confirmed-empty answer, nothing is confirmed yet. */
  lemma ActorsSeeUnclaimed(s: App, a: Character, id: nat)
    requires Core(s, a) && id in s.checks && (s.cloud.None? || Confirmed(s.local))
    ensures s.player.Some? && s.provisional ==> Unclaimed(s)
    ensures s.player.None? && (s.check == Pending(id) || LiveWaiter(s, s.checks[id].waiters)) ==> Unclaimed(s)
  {
  }

  lemma ResolveConfirmedKeeps(s: App, a: Character, id: nat, parses: bool, io: Io) returns (a': Character)
    requires Core(s, a) && id in s.checks && io.Valid()
    requires s.cloud.None? || Confirmed(s.local)
    ensures Core(Resolve(s, id, NoNewerCloud, parses, io), a')
    ensures Resolve(s, id, NoNewerCloud, parses, io).cloud == s.cloud
    ensures s.cloud.Some? ==> a' == a
  {
    hide Core, Resolve;
    ActorsSeeUnclaimed(s, a, id);
    ResolveConfirmedForm(s, id, parses, io);
    var t := FinishCheckKeeps(s, a, id, NoNewerCloud);
    if s.checks[id].effectGen == Some(s.gen) && s.provisional && s.player.Some? {
      PromoteKeeps(t, a, io);
      a' := s.player.value;
    } else if LiveWaiter(s, s.checks[id].waiters) && s.player.None? {
      CreateConfirmedKeeps(t, a, io);
      a' := s.nextChar;
    } else {
      a' := a;
    }
  }

  lemma CompareKeeps(s: App, a: Character, id: nat, io: Io) returns (a': Character)
    requires Core(s, a) && Enabled(s, Compare(id, io))
    ensures Core(Next(s, Compare(id, io)), a') && (s.cloud.Some? ==> a' == a)
    ensures Next(s, Compare(id, io)).cloud == s.cloud
  {
    var rec := s.checks[id].stage.rec;
    assert 0 < rec.savedAt;
    if s.checks[id].stage.Missed? || rec.savedAt > LocalSavedAt(s) {
      AdvanceCheckKeeps(s, a, id, Writing(rec));
      a' := a;
    } else {
      a' := ResolveConfirmedKeeps(s, a, id, true, io);
    }
  }

  lemma AdvanceCheckKeeps(s: App, a: Character, id: nat, stage: Stage)
    requires Core(s, a) && id in s.checks && !stage.Reading?
    requires s.cloud.Some? && stage.rec.who == a && 0 < stage.rec.savedAt
    ensures Core(s.(checks := s.checks[id := s.checks[id].(stage := stage)]), a)
  {
    var t := s.(checks := s.checks[id := s.checks[id].(stage := stage)]);
    assert Captured(t) && Attended(t) && Agrees(t, a) && Ordered(t);
    assert Settled(t) by {
      if Confirmed(s.local) && s.player.None? { assert Idle(s) && Idle(t); }
    }
  }

  lemma CompareFailsKeeps(s: App, a: Character, id: nat, cleared: bool)
    requires Core(s, a) && Enabled(s, CompareFails(id, cleared))
    ensures Core(Next(s, CompareFails(id, cleared)), a)
  {
    var rec := s.checks[id].stage.rec;
    assert s.cloud.Some? && rec.who == a && 0 < rec.savedAt;
    hide Core;
    AdvanceCheckKeeps(s, a, id, Missed(rec));
    UnreadKeeps(s.(checks := s.checks[id := s.checks[id].(stage := Missed(rec))]), a, cleared);
  }

  lemma CloudAnswersKeeps(s: App, a: Character, id: nat, readable: bool, io: Io) returns (a': Character)
    requires Core(s, a) && Enabled(s, CloudAnswers(id, readable, io))
    ensures Core(Next(s, CloudAnswers(id, readable, io)), a') && (s.cloud.Some? ==> a' == a)
    ensures Next(s, CloudAnswers(id, readable, io)).cloud == s.cloud
  {
    a' := a;
    if !readable {
      ResolveUnavailableKeeps(s, a, id, true, io);
    } else if s.cloud.None? {
      a' := ResolveConfirmedKeeps(s, a, id, true, io);
    } else {
      assert s.cloud.value.who == a && 0 < s.cloud.value.savedAt;
      AdvanceCheckKeeps(s, a, id, Deciding(s.cloud.value));
    }
  }

  lemma ResolveAdoptedForm(s: App, id: nat, c: Character, parses: bool, io: Io)
    requires id in s.checks
    ensures var t, k := Finished(s, id, Adopted(c)), s.checks[id];
            Resolve(s, id, Adopted(c), parses, io) ==
            if parses && (k.effectGen == Some(s.gen) || (LiveWaiter(s, k.waiters) && s.player.None?))
            then Adopt(t, c) else t
  {
    var t, k := Finished(s, id, Adopted(c)), s.checks[id];
    ResumeAllAdopted(EffectThen(t, k.effectGen, Adopted(c), parses, io), k.waiters, c, parses, io);
  }

  lemma StoreAndAdoptKeeps(s: App, a: Character, rec: Save)
    requires Core(s, a) && s.cloud.Some? && rec.who == a && 0 < rec.savedAt
    ensures Core(Adopt(s.(local := Some(rec)), a), a)
  {
  }

  lemma StoreQuietlyKeeps(s: App, a: Character, rec: Save)
    requires Core(s, a) && s.cloud.Some? && rec.who == a && 0 < rec.savedAt
    requires (s.player == Some(a) && !s.provisional) || (s.player.None? && Idle(s))
    ensures Core(s.(local := Some(rec)), a)
  {
  }

  lemma PersistKeeps(s: App, a: Character, id: nat, stored: bool, parses: bool, io: Io)
    requires Core(s, a) && Enabled(s, Persist(id, stored, parses, io)) && !Conflict(s, Persist(id, stored, parses, io))
    ensures Core(Next(s, Persist(id, stored, parses, io)), a)
    ensures Next(s, Persist(id, stored, parses, io)).cloud == s.cloud
  {
    var rec := s.checks[id].stage.rec;
    assert s.cloud.Some? && rec.who == a && 0 < rec.savedAt;
    assert s.player.None? && Idle(s) ==> s.check == NoCheck;
    hide Core, Resolve, Idle;
    var s' := if stored then s.(local := Some(rec)) else s;
    ResolveAdoptedForm(s', id, a, parses, io);
    assert Next(s, Persist(id, stored, parses, io)) == Resolve(s', id, Adopted(a), parses, io);
    hide Next, Enabled;
    var t := FinishCheckKeeps(s, a, id, Adopted(a));
    if parses && (s.checks[id].effectGen == Some(s.gen) || (LiveWaiter(s, s.checks[id].waiters) && s.player.None?)) {
      if stored {
        StoreAndAdoptKeeps(t, a, rec);
        assert Adopt(t.(local := Some(rec)), a) == Adopt(Finished(s', id, Adopted(a)), a);
      } else {
        AdoptKeeps(t, a);
      }
    } else if stored {
      IdleAfterFinish(s, id, Adopted(a));
      StoreQuietlyKeeps(t, a, rec);
      assert t.(local := Some(rec)) == Finished(s', id, Adopted(a));
    }
  }

  lemma IdleAfterFinish(s: App, id: nat, o: Outcome)
    requires id in s.checks
    ensures Idle(s) ==> Idle(Finished(s, id, o))
  {
  }

  lemma AddWaiterKeeps(s: App, a: Character, p: nat)
    requires Core(s, a) && s.selecting && p in s.checks
    ensures var w := Waiter(s.gen, ARCHETYPE_CLOUD_RETRIES);
            Core(s.(checks := s.checks[p := s.checks[p].(waiters := s.checks[p].waiters + [w])]), a)
  {
    var t := s.(checks := s.checks[p := s.checks[p].(waiters := s.checks[p].waiters
                                                     + [Waiter(s.gen, ARCHETYPE_CLOUD_RETRIES)])]);
    assert Captured(t) && Attended(t) && Agrees(t, a) && Ordered(t);
    assert !Idle(s);
    hide Idle;
    assert Settled(t);
  }

  lemma TapKeeps(s: App, a: Character, id: nat, parses: bool, io: Io) returns (a': Character)
    requires Core(s, a) && Enabled(s, Tap(id, parses, io))
    ensures Core(Next(s, Tap(id, parses, io)), a') && (s.cloud.Some? ==> a' == a)
    ensures Next(s, Tap(id, parses, io)).cloud == s.cloud
  {
    a' := a;
    assert !Idle(s);
    assert s.player.None? ==> !Confirmed(s.local);
    var w := Waiter(s.gen, ARCHETYPE_CLOUD_RETRIES);
    match s.check
    case NoCheck =>
      hide Captured, Agrees, Ordered, Idle;
      AddCheckKeeps(s, Next(s, Tap(id, parses, io)), a, id, Check(Reading, None, [w]));
    case Pending(p) =>
      AddWaiterKeeps(s, a, p);
    case Done(o) =>
      match o {
        case Unavailable => var t := ResumeUnavailable(s, a, w, parses, io);
        case Adopted(c) =>
          if s.player.None? && parses { AdoptKeeps(s, a); }
        case NoNewerCloud =>
          if s.player.None? {
            CreateConfirmedKeeps(s, a, io);
            a' := s.nextChar;
          }
      }
  }

  /** A step that is not a conflict keeps one character in line, and keeps the owner of an existing record. */
  lemma CoreStep(s: App, a: Character, act: Action) returns (a': Character)
    requires Core(s, a) && Enabled(s, act) && !Conflict(s, act)
    ensures Core(Next(s, act), a') && (s.cloud.Some? ==> a' == a)
  {
    a' := a;
    hide Core;
    match act
    case StartLoad => StartLoadKeeps(s, a);
    case ClearPlayer => ClearPlayerKeeps(s, a);
    case LoadRead(g, parses) => a' := LoadKeeps(s, a, g, parses);
    case LoadFails(g, cleared) => LoadFailsKeeps(s, a, g, cleared);
    case LoadMissed(g) => a' := LoadMissedKeeps(s, a, g);
    case FireCommit => ScreenStepKeeps(s, a, act);
    case Repaint => ScreenStepKeeps(s, a, act);
    case EffectStarts(id) => EffectStartsKeeps(s, a, id);
    case EffectReturns => ScreenStepKeeps(s, a, act);
    case Tap(id, parses, io) => a' := TapKeeps(s, a, id, parses, io);
    case CloudAnswers(id, readable, io) => a' := CloudAnswersKeeps(s, a, id, readable, io);
    case CompareFails(id, cleared) => CompareFailsKeeps(s, a, id, cleared);
    case Compare(id, io) => a' := CompareKeeps(s, a, id, io);
    case Persist(id, stored, parses, io) => PersistKeeps(s, a, id, stored, parses, io);
    case Wake(w, id) => WakeKeeps(s, a, w, id);
    case Arm(_) => ScreenStepKeeps(s, a, act);
    case SaveProgress(io) => SaveProgressKeeps(s, a, io);
    case SaveStale(c, io) => a' := SaveStaleKeeps(s, a, c, io);
    case Deliver(w) => DeliverKeeps(s, a, w);
    case Drop(w) => DropKeeps(s, a, w);
    case Kill => RestartKeeps(s, a, act);
    case Reinstall => RestartKeeps(s, a, act);
  }

  // ---- and every step that smuggles nothing keeps the characters in line vetted ----

  lemma ResumeVetted(s: App, w: Waiter, o: Outcome, parses: bool, io: Io)
    requires Vetted(s) && (o.Adopted? ==> o.who in s.vetted)
    ensures Vetted(Resume(s, w, o, parses, io)) && s.vetted <= Resume(s, w, o, parses, io).vetted
  {
  }

  lemma {:induction false} ResumeAllVetted(s: App, ws: seq<Waiter>, o: Outcome, parses: bool, io: Io)
    requires Vetted(s) && (o.Adopted? ==> o.who in s.vetted)
    ensures Vetted(ResumeAll(s, ws, o, parses, io))
    decreases |ws|
  {
    hide Resume, Vetted;
    if ws != [] {
      ResumeVetted(s, ws[0], o, parses, io);
      ResumeAllVetted(Resume(s, ws[0], o, parses, io), ws[1..], o, parses, io);
    }
  }

  lemma ResolveVetted(s: App, id: nat, o: Outcome, parses: bool, io: Io)
    requires Vetted(s) && id in s.checks && (o.Adopted? ==> o.who in s.vetted)
    requires s.player.Some? ==> s.player.value < s.nextChar
    ensures Vetted(Resolve(s, id, o, parses, io))
  {
    var t := EffectThen(Finished(s, id, o), s.checks[id].effectGen, o, parses, io);
    assert Vetted(t) && s.vetted <= t.vetted;
    hide ResumeAll, EffectThen, Vetted;
    ResumeAllVetted(t, s.checks[id].waiters, o, parses, io);
  }

  lemma ReconcileVetted(s: App, a: Character, act: Action)
    requires Core(s, a) && Vetted(s) && Enabled(s, act)
    requires act.Tap? || act.CloudAnswers? || act.Compare? || act.Persist?
    ensures Vetted(Next(s, act))
  {
    hide Resolve, Resume, Captured, Attended;
    match act
    case Tap(id, parses, io) =>
      var o := if s.check.Done? then s.check.outcome else Unavailable;
      ResumeVetted(s, Waiter(s.gen, ARCHETYPE_CLOUD_RETRIES), o, parses, io);
    case CloudAnswers(id, readable, io) =>
      ResolveVetted(s, id, Unavailable, true, io);
      ResolveVetted(s, id, NoNewerCloud, true, io);
    case Compare(id, io) => ResolveVetted(s, id, NoNewerCloud, true, io);
    case Persist(id, stored, parses, io) =>
      var rec := s.checks[id].stage.rec;
      ResolveVetted(if stored then s.(local := Some(rec)) else s, id, Adopted(rec.who), parses, io);
  }

  lemma VettedFrame(s: App, t: App)
    requires Vetted(s) && t.cloud == s.cloud && t.queue == s.queue && t.player == s.player
    requires t.provisional == s.provisional && t.vetted == s.vetted && t.nextChar == s.nextChar
    ensures Vetted(t)
  {
  }

  lemma LoadedVetted(s: App, g: nat, parses: bool)
    requires Vetted(s) && s.local.Some? && s.local.value.who < s.nextChar
    requires Confirmed(s.local) && s.player.Some? ==> !s.provisional
    ensures Vetted(Loaded(s, g, parses))
  {
  }

  lemma LoadVetted(s: App, act: Action)
    requires Vetted(s) && Enabled(s, act) && !Smuggles(s, act) && (act.LoadRead? || act.LoadMissed?)
    requires s.local.Some? ==> s.local.value.who < s.nextChar
    requires Confirmed(s.local) && s.player.Some? ==> !s.provisional
    ensures Vetted(Next(s, act))
  {
    var t := Next(s, act);
    if act.LoadRead? && s.local.Some? {
      LoadedVetted(s, act.g, act.parses);
    } else if act.g == s.gen {
      assert t.cloud == s.cloud && t.queue == s.queue && t.player == s.player;
      assert t.vetted == s.vetted && t.nextChar == s.nextChar;
    } else {
      VettedFrame(s, t);
    }
  }

  lemma SaveVetted(s: App, act: Action)
    requires Vetted(s) && Enabled(s, act) && !Smuggles(s, act) && (act.SaveProgress? || act.SaveStale?)
    ensures Vetted(Next(s, act))
  {
  }

  lemma MoveVetted(s: App, act: Action)
    requires Vetted(s) && Enabled(s, act)
    requires act.ClearPlayer? || act.Deliver? || act.Drop? || act.Kill? || act.Reinstall?
    ensures Vetted(Next(s, act))
  {
  }

  lemma OtherVetted(s: App, act: Action)
    requires Vetted(s) && Enabled(s, act)
    requires !act.Tap? && !act.CloudAnswers? && !act.Compare? && !act.Persist? && !act.LoadRead? && !act.LoadMissed?
    requires !act.SaveProgress? && !act.SaveStale? && !act.ClearPlayer?
    requires !act.Deliver? && !act.Drop? && !act.Kill? && !act.Reinstall?
    ensures Vetted(Next(s, act))
  {
    hide Vetted, Resolve, Tapped, SetAndSave, Loaded;
    VettedFrame(s, Next(s, act));
  }

  lemma VettedStep(s: App, a: Character, act: Action)
    requires Core(s, a) && Vetted(s) && Enabled(s, act) && !Smuggles(s, act)
    ensures Vetted(Next(s, act))
  {
    assert s.local.Some? ==> s.local.value.who < s.nextChar;
    assert Confirmed(s.local) && s.player.Some? ==> !s.provisional;
    hide Core, Vetted, Smuggles, Next, Enabled;
    if act.Tap? || act.CloudAnswers? || act.Compare? || act.Persist? {
      ReconcileVetted(s, a, act);
    } else if act.LoadRead? || act.LoadMissed? {
      LoadVetted(s, act);
    } else if act.SaveProgress? || act.SaveStale? {
      SaveVetted(s, act);
    } else if act.ClearPlayer? || act.Deliver? || act.Drop? || act.Kill? || act.Reinstall? {
      MoveVetted(s, act);
    } else {
      OtherVetted(s, act);
    }
  }

  /** A step that is not a hazard keeps the invariant, and keeps the owner of an existing cloud record. */
  lemma StepKeeps(s: App, a: Character, act: Action) returns (a': Character)
    requires Inv(s, a) && Enabled(s, act) && !Hazard(s, act)
    ensures Inv(Next(s, act), a') && (s.cloud.Some? ==> a' == a)
  {
    hide Core, Vetted, Conflict, Smuggles, Next;
    a' := CoreStep(s, a, act);
    VettedStep(s, a, act);
  }

  // ---- the hazards are exactly the steps that break it ----

  lemma LostAdoptionUnsettles(s: App, a: Character, id: nat, parses: bool, io: Io)
    requires Core(s, a) && Enabled(s, Persist(id, true, parses, io)) && Conflict(s, Persist(id, true, parses, io))
    ensures !Settled(Next(s, Persist(id, true, parses, io)))
  {
    var rec := s.checks[id].stage.rec;
    ResolveAdoptedForm(s.(local := Some(rec)), id, rec.who, parses, io);
    var t := Finished(s.(local := Some(rec)), id, Adopted(rec.who));
    assert Next(s, Persist(id, true, parses, io)) == t;
  }

  lemma LoadConflictBreaks(s: App, a: Character, act: Action, a': Character)
    requires Core(s, a) && Enabled(s, act) && Conflict(s, act) && (act.LoadRead? || act.LoadMissed?)
    ensures !Core(Next(s, act), a')
  {
    hide Captured, Attended, Ordered, Latecomer, Resolve, Tapped, SetAndSave;
    assert act.g == s.gen && Next(s, act).commit == Some(ShowSelection(s.gen));
  }

  lemma ConflictBreaks(s: App, a: Character, act: Action, a': Character)
    requires Core(s, a) && Enabled(s, act) && Conflict(s, act)
    ensures !Core(Next(s, act), a')
  {
    hide Captured, Attended, Ordered, Latecomer;
    match act
    case Persist(id, stored, parses, io) => LostAdoptionUnsettles(s, a, id, parses, io);
    case LoadRead(g, parses) => LoadConflictBreaks(s, a, act, a');
    case LoadFails(_, _) =>
    case LoadMissed(_) => LoadConflictBreaks(s, a, act, a');
    case SaveStale(c, io) =>
  }

  lemma SmugglingBreaks(s: App, act: Action)
    requires Enabled(s, act) && Smuggles(s, act)
    ensures !Vetted(Next(s, act))
  {
  }

  lemma HazardBreaks(s: App, a: Character, act: Action, a': Character)
    requires Inv(s, a) && Enabled(s, act) && Hazard(s, act)
    ensures !Inv(Next(s, act), a')
  {
    hide Core, Vetted, Next, Conflict, Smuggles;
    if Conflict(s, act) {
      ConflictBreaks(s, a, act, a');
    } else {
      SmugglingBreaks(s, act);
    }
  }

  /** From a safe state, a step leads to a safe state exactly when it is not a hazard. */
  lemma SafeStepIffNoHazard(s: App, act: Action)
    requires Safe(s) && Enabled(s, act)
    ensures Safe(Next(s, act)) <==> !Hazard(s, act)
  {
    var a :| Inv(s, a);
    hide Inv, Hazard, Next;
    if Hazard(s, act) {
      forall a'
        ensures !Inv(Next(s, act), a')
      {
        HazardBreaks(s, a, act, a');
      }
    } else {
      var a' := StepKeeps(s, a, act);
    }
  }

  // ---- whole runs ----

  ghost predicate IsRun(states: seq<App>, acts: seq<Action>) {
    && |states| == |acts| + 1
    && forall i :: 0 <= i < |acts| ==> Enabled(states[i], acts[i]) && states[i + 1] == Next(states[i], acts[i])
  }

  ghost predicate HazardFree(states: seq<App>, acts: seq<Action>)
    requires IsRun(states, acts)
  {
    forall i :: 0 <= i < |acts| ==> Enabled(states[i], acts[i]) && !Hazard(states[i], acts[i])
  }

  ghost predicate ConflictFree(states: seq<App>, acts: seq<Action>)
    requires IsRun(states, acts)
  {
    forall i :: 0 <= i < |acts| ==> Enabled(states[i], acts[i]) && !Conflict(states[i], acts[i])
  }

  /** The cloud record of one character gives way to another character's. */
  predicate Replaced(s: App, t: App) {
    s.cloud.Some? && t.cloud.Some? && s.cloud.value.who != t.cloud.value.who
  }

  lemma LaunchIsSafe(s: App)
    requires Launch(s)
    ensures Safe(s) && Single(s)
  {
    assert Inv(s, if s.cloud.Some? then s.cloud.value.who else 0);
  }

  lemma {:induction false} RunStaysSafe(states: seq<App>, acts: seq<Action>, i: nat)
    requires IsRun(states, acts) && HazardFree(states, acts) && Safe(states[0]) && i < |states|
    ensures Safe(states[i])
  {
    if 0 < i {
      RunStaysSafe(states, acts, i - 1);
      SafeStepIffNoHazard(states[i - 1], acts[i - 1]);
    }
  }

  /** In every hazard-free run from a launch, no cloud record is ever replaced by another character's,
      and only vetted characters are ever sent to the cloud. */
  lemma CloudSaveNeverReplaced(states: seq<App>, acts: seq<Action>, i: nat, j: nat)
    requires IsRun(states, acts) && HazardFree(states, acts) && Launch(states[0])
    requires i <= j < |states|
    ensures states[i].cloud.Some? ==> states[j].cloud.Some? && !Replaced(states[i], states[j])
    ensures forall w :: w in states[j].queue ==> w.who in states[j].vetted
    ensures states[j].player.Some? && !states[j].provisional ==> states[j].player.value in states[j].vetted
  {
    LaunchIsSafe(states[0]);
    RunStaysSafe(states, acts, j);
    if states[i].cloud.Some? { CloudOwnerKept(states, acts, i, j); }
  }

  /** Without a conflict, whatever characters are smuggled in, the owner of a record is kept for good. */
  lemma {:induction false} CloudOwnerKept(states: seq<App>, acts: seq<Action>, i: nat, j: nat)
    requires IsRun(states, acts) && ConflictFree(states, acts) && Single(states[0])
    requires i <= j < |states| && states[i].cloud.Some?
    ensures states[j].cloud.Some? && states[j].cloud.value.who == states[i].cloud.value.who
  {
    hide Single, Conflict, Next;
    if i < j {
      CloudOwnerKept(states, acts, i, j - 1);
      RunStaysSingle(states, acts, j - 1);
      OwnerStep(states[j - 1], acts[j - 1]);
    }
  }

  lemma {:induction false} RunStaysSingle(states: seq<App>, acts: seq<Action>, i: nat)
    requires IsRun(states, acts) && ConflictFree(states, acts) && Single(states[0]) && i < |states|
    ensures Single(states[i])
  {
    hide Single, Conflict, Next;
    if 0 < i {
      RunStaysSingle(states, acts, i - 1);
      OwnerStep(states[i - 1], acts[i - 1]);
    }
  }

  lemma OwnerStep(s: App, act: Action)
    requires Single(s) && Enabled(s, act) && !Conflict(s, act)
    ensures Single(Next(s, act))
    ensures s.cloud.Some? ==> Next(s, act).cloud.Some? && Next(s, act).cloud.value.who == s.cloud.value.who
  {
    var a :| Core(s, a);
    var a' := CoreStep(s, a, act);
    if s.cloud.Some? { CloudStays(s, act); }
    hide Next, Conflict, Enabled;
  }

  lemma CloudStays(s: App, act: Action)
    requires Enabled(s, act) && s.cloud.Some?
    ensures Next(s, act).cloud.Some?
  {
    hide Resolve, Tapped, SetAndSave, Loaded, Committed, Publish, Unread;
    if act.Tap? {
      TapLeavesCloud(s, act.id, act.parses, act.io);
    } else if act.LoadRead? {
      LoadLeavesCloud(s, act.g, act.parses);
    } else if act.FireCommit? || act.Repaint? {
      ScreenLeavesCloud(s, act);
    } else if act.SaveProgress? || act.SaveStale? || act.LoadFails? || act.CompareFails? {
      StorageLeavesCloud(s, act);
    }
  }

  lemma TapLeavesCloud(s: App, id: nat, parses: bool, io: Io)
    ensures Tapped(s, id, parses, io).cloud == s.cloud
  {
    hide Resume;
  }

  lemma LoadLeavesCloud(s: App, g: nat, parses: bool)
    ensures Loaded(s, g, parses).cloud == s.cloud
  {
  }

  lemma ScreenLeavesCloud(s: App, act: Action)
    requires Enabled(s, act) && (act.FireCommit? || act.Repaint?)
    ensures Next(s, act).cloud == s.cloud
  {
  }

  lemma StorageLeavesCloud(s: App, act: Action)
    requires Enabled(s, act) && (act.SaveProgress? || act.SaveStale? || act.LoadFails? || act.CompareFails?)
    ensures Next(s, act).cloud == s.cloud
  {
  }
}
