/** What the hazards of the save protocol lead to: without one no record is replaced, and after one ordinary
    steps can replace it. */
module SaveHazards {
  import opened Basics
  import opened SaveProtocol
  import opened SaveSafety

  // ---- what a hazard makes possible ----

  /** A run of ordinary steps, none of them a hazard. */
  ghost predicate Reaches(s: App, acts: seq<Action>, t: App)
    decreases |acts|
  {
    if acts == [] then s == t
    else Enabled(s, acts[0]) && !Hazard(s, acts[0]) && Reaches(Next(s, acts[0]), acts[1..], t)
  }

  /** Ordinary steps alone can lead to a cloud record and then replace it by another character's. */
  ghost predicate CanOverwrite(s: App) {
    exists acts, t, acts', t' :: Reaches(s, acts, t) && Reaches(t, acts', t') && Replaced(t, t')
  }

  /** Ordinary steps keep one character in line, and keep the owner of a record. */
  lemma {:induction false} ReachesSingle(s: App, acts: seq<Action>, t: App)
    requires Single(s) && Reaches(s, acts, t)
    ensures Single(t)
    ensures s.cloud.Some? ==> t.cloud.Some? && t.cloud.value.who == s.cloud.value.who
    decreases |acts|
  {
    hide Single, Conflict, Smuggles, Next;
    if acts != [] {
      OwnerStep(s, acts[0]);
      ReachesSingle(Next(s, acts[0]), acts[1..], t);
    }
  }

  lemma {:induction false} ReachesSafe(s: App, acts: seq<Action>, t: App)
    requires Safe(s) && Reaches(s, acts, t)
    ensures Safe(t)
    decreases |acts|
  {
    hide Safe, Hazard, Next;
    if acts != [] {
      SafeStepIffNoHazard(s, acts[0]);
      ReachesSafe(Next(s, acts[0]), acts[1..], t);
    }
  }

  /** While one character is in line, ordinary steps never replace a record. */
  lemma SingleCannotOverwrite(s: App)
    requires Single(s)
    ensures !CanOverwrite(s)
  {
    forall acts, t, acts', t' | Reaches(s, acts, t) && Reaches(t, acts', t')
      ensures !Replaced(t, t')
    {
      ReachesSingle(s, acts, t);
      ReachesSingle(t, acts', t');
    }
  }

  /** From a safe state an overwrite needs a hazard. */
  lemma SafeCannotOverwrite(s: App)
    requires Safe(s)
    ensures !CanOverwrite(s)
  {
    SingleCannotOverwrite(s);
  }

  lemma OverwriteLater(s: App, act: Action)
    requires Enabled(s, act) && !Hazard(s, act) && CanOverwrite(Next(s, act))
    ensures CanOverwrite(s)
  {
    var acts, t, acts', t' :| Reaches(Next(s, act), acts, t) && Reaches(t, acts', t') && Replaced(t, t');
    assert ([act] + acts)[1..] == acts;
    assert Reaches(s, [act] + acts, t);
  }

  /** A queued write of another character with a newer timestamp overwrites on delivery. */
  lemma QueuedOverwrites(s: App, w: Save)
    requires s.cloud.Some? && w in s.queue && w.savedAt > s.cloud.value.savedAt && w.who != s.cloud.value.who
    ensures CanOverwrite(s)
  {
    var t := Next(s, Deliver(w));
    assert Reaches(s, [], s) && Reaches(t, [], t);
    assert [Deliver(w)][1..] == [];
    assert Reaches(s, [Deliver(w)], t);
  }

  /** The save that outbids the current cloud record. */
  function Outbid(s: App): (io: Io)
    requires s.cloud.Some?
  {
    Io(true, 1, Some(s.cloud.value.savedAt + 1))
  }

  lemma UnvettedOverwrites(s: App)
    requires s.cloud.Some? && s.player.Some? && !s.provisional && s.player.value != s.cloud.value.who
    ensures CanOverwrite(s)
  {
    var act := SaveProgress(Outbid(s));
    QueuedOverwrites(Next(s, act), Save(s.player.value, s.cloud.value.savedAt + 1));
    OverwriteLater(s, act);
  }

  lemma FreshAbove(ids: set<nat>, lo: nat) returns (id: nat)
    ensures lo <= id && id !in ids
    decreases |ids|
  {
    if lo in ids {
      id := FreshAbove(ids - {lo}, lo + 1);
    } else {
      id := lo;
    }
  }

  lemma FreshId(m: map<nat, Check>) returns (id: nat)
    ensures id !in m
  {
    id := FreshAbove(m.Keys, 0);
  }

  /** A live effect of the current generation, with a provisional character, promotes it. */
  lemma DecidingEffectOverwrites(s: App, id: nat)
    requires s.cloud.Some? && id in s.checks && s.checks[id] == Check(Deciding(s.cloud.value), Some(s.gen), [])
    requires s.cloud.value.savedAt <= LocalSavedAt(s)
    requires s.player.Some? && s.provisional && s.player.value != s.cloud.value.who
    ensures CanOverwrite(s)
  {
    var act := Compare(id, Outbid(s));
    ResolveConfirmedForm(s, id, true, Outbid(s));
    QueuedOverwrites(Next(s, act), Save(s.player.value, s.cloud.value.savedAt + 1));
    OverwriteLater(s, act);
  }

  /** The reconcile call need not end by adopting the record. */
  predicate FindsNothingNewer(s: App, stage: Stage) {
    stage.Reading? || (stage.Deciding? && stage.rec.savedAt <= LocalSavedAt(s))
  }

  /** A live selection awaiting such a call creates a character over the record. */
  lemma DecidingWaiterOverwrites(s: App, id: nat)
    requires s.cloud.Some? && id in s.checks && s.checks[id].stage.Deciding?
    requires FindsNothingNewer(s, s.checks[id].stage)
    requires LiveWaiter(s, s.checks[id].waiters) && s.player.None? && s.cloud.value.who < s.nextChar
    ensures CanOverwrite(s)
  {
    var act := Compare(id, Outbid(s));
    ResolveConfirmedForm(s, id, true, Outbid(s));
    QueuedOverwrites(Next(s, act), Save(s.nextChar, s.cloud.value.savedAt + 1));
    OverwriteLater(s, act);
  }

  /** A provisional character beside a confirmed snapshot of any age: a load from whose snapshot no player
      can be built clears the provisional mark and keeps the character. */
  lemma FreedOverwrites(s: App)
    requires s.cloud.Some? && Confirmed(s.local)
    requires s.player.Some? && s.provisional && s.player.value != s.cloud.value.who
    ensures CanOverwrite(s)
  {
    var s1 := Next(s, StartLoad);
    var unparsed := LoadRead(s1.gen, false);
    UnvettedOverwrites(Next(s1, unparsed));
    OverwriteLater(s1, unparsed);
    OverwriteLater(s, StartLoad);
  }

  const UNSTORED := Io(false, 1, None)

  /** Also when the provisional character is the record's own, once another one ever existed: a late save of
      that one goes first. */
  lemma ProvisionalOverwrites(s: App)
    requires s.cloud.Some? && Confirmed(s.local) && s.player.Some? && s.provisional && 1 < s.nextChar
    ensures CanOverwrite(s)
  {
    if s.player.value != s.cloud.value.who {
      FreedOverwrites(s);
    } else {
      var late := SaveStale(if s.player.value == 0 then 1 else 0, UNSTORED);
      FreedOverwrites(Next(s, late));
      OverwriteLater(s, late);
    }
  }

  ghost predicate LiveSleeper(s: App) {
    exists w :: w in s.sleeping && w.gen == s.gen
  }

  /** What an unreadable cloud makes of the selections that await it, when local writes fail too. */
  lemma {:induction false} ResumeAllStalls(s: App, ws: seq<Waiter>)
    ensures var r := ResumeAll(s, ws, Unavailable, true, UNSTORED);
            && r.local == s.local
            && (s.player.Some? ==> r.player == s.player && r.provisional == s.provisional)
            && (r.player.None? ==> r.nextChar == s.nextChar && (LiveSleeper(s) ==> LiveSleeper(r)))
            && (s.player.None? && LiveWaiter(s, ws) ==>
                  (r.player == Some(s.nextChar) && r.provisional) || (r.player.None? && LiveSleeper(r)))
            && (!LiveWaiter(s, ws) ==> r == s)
    decreases |ws|
  {
    if ws != [] {
      var t := Resume(s, ws[0], Unavailable, true, UNSTORED);
      ResumeAllStalls(t, ws[1..]);
      LiveWaiterSplits(s, ws);
      ResumeStalls(s, ws[0]);
      assert LiveWaiter(t, ws[1..]) == LiveWaiter(s, ws[1..]);
      hide LiveWaiter, Resume, LiveSleeper;
    }
  }

  lemma ResumeStalls(s: App, w: Waiter)
    ensures var t := Resume(s, w, Unavailable, true, UNSTORED);
            && t.local == s.local && (w.gen != s.gen ==> t == s)
            && (s.player.Some? ==> t.player == s.player && t.provisional == s.provisional)
            && (t.player.None? ==> t.nextChar == s.nextChar && (LiveSleeper(s) ==> LiveSleeper(t)))
            && (s.player.None? && w.gen == s.gen ==>
                  (t.player == Some(s.nextChar) && t.provisional) || (t.player.None? && LiveSleeper(t)))
  {
    var t := Resume(s, w, Unavailable, true, UNSTORED);
    if LiveSleeper(s) {
      var v :| v in s.sleeping && v.gen == s.gen;
      assert v in t.sleeping;
    }
    if w.gen == s.gen && 0 < w.retries {
      assert Waiter(w.gen, w.retries - 1) in t.sleeping;
    }
  }

  /** A selection beside a record and a confirmed snapshot. */
  predicate Choosing(s: App) {
    s.cloud.Some? && s.cloud.value.who < s.nextChar && Confirmed(s.local) && s.player.None?
  }

  /** A live selection asleep between retries ends up with a provisional character when the cloud stays
      unreadable and the local write fails. */
  lemma {:induction false} SleeperOverwrites(s: App, w: Waiter)
    requires Choosing(s) && w in s.sleeping && w.gen == s.gen
    ensures CanOverwrite(s)
    decreases w.retries
  {
    hide CanOverwrite, Resolve, Tapped, Loaded, SetAndSave, Committed;
    var id := FreshId(s.checks);
    var wake, fails := Wake(w, id), CloudAnswers(id, false, UNSTORED);
    var t := Next(s, wake);
    assert Choosing(t) && t.gen == s.gen && t.checks[id] == Check(Reading, None, [w]);
    RetryFails(t, id, w);
    var u := Next(t, fails);
    hide Next, Create;
    if w.retries == 0 {
      FreedOverwrites(u);
    } else {
      SleeperOverwrites(u, Waiter(w.gen, w.retries - 1));
    }
    OverwriteLater(t, fails);
    OverwriteLater(s, wake);
  }

  lemma RetryFails(s: App, id: nat, w: Waiter)
    requires Choosing(s) && id in s.checks && s.checks[id] == Check(Reading, None, [w]) && w.gen == s.gen
    ensures var u := Next(s, CloudAnswers(id, false, UNSTORED));
            && u.cloud == s.cloud && u.local == s.local && u.gen == s.gen
            && if w.retries == 0 then u.player == Some(s.nextChar) && u.provisional
               else Choosing(u) && Waiter(w.gen, w.retries - 1) in u.sleeping
  {
    var t := Finished(s, id, Unavailable);
    var u := Resume(t, w, Unavailable, true, UNSTORED);
    assert [w][1..] == [];
    assert ResumeAll(u, [], Unavailable, true, UNSTORED) == u;
    assert ResumeAll(t, [w], Unavailable, true, UNSTORED) == u;
    assert Next(s, CloudAnswers(id, false, UNSTORED)) == u;
  }

  lemma ReadingWaiterOverwrites(s: App, id: nat)
    requires Choosing(s) && id in s.checks && s.checks[id].stage.Reading? && LiveWaiter(s, s.checks[id].waiters)
    ensures CanOverwrite(s)
  {
    var fails := CloudAnswers(id, false, UNSTORED);
    var t, u := Finished(s, id, Unavailable), Next(s, fails);
    assert u == ResumeAll(t, s.checks[id].waiters, Unavailable, true, UNSTORED);
    assert LiveWaiter(t, s.checks[id].waiters);
    ResumeAllStalls(t, s.checks[id].waiters);
    hide Next;
    if u.player.Some? {
      FreedOverwrites(u);
    } else {
      var w :| w in u.sleeping && w.gen == u.gen;
      SleeperOverwrites(u, w);
    }
    OverwriteLater(s, fails);
  }

  lemma WaiterOverwrites(s: App, id: nat)
    requires Choosing(s) && id in s.checks && FindsNothingNewer(s, s.checks[id].stage)
    requires LiveWaiter(s, s.checks[id].waiters)
    ensures CanOverwrite(s)
  {
    if s.checks[id].stage.Reading? {
      ReadingWaiterOverwrites(s, id);
    } else {
      DecidingWaiterOverwrites(s, id);
    }
  }

  /** A provisional character has been published in a generation not reconciled yet: the effect finds the
      snapshot as new as the record and promotes the character. */
  lemma DueEffectOverwrites(s: App)
    requires s.cloud.Some? && s.cloud.value.savedAt <= LocalSavedAt(s)
    requires s.player.Some? && s.provisional && s.player.value != s.cloud.value.who
    requires s.view.due && s.shown.Some? && s.reconciled != Some(s.gen)
    ensures CanOverwrite(s)
  {
    var id := FreshId(s.checks);
    var s1 := Next(s, EffectStarts(id));
    var answer := CloudAnswers(id, true, Outbid(s));
    DecidingEffectOverwrites(Next(s1, answer), id);
    OverwriteLater(s1, answer);
    OverwriteLater(s, EffectStarts(id));
  }

  /** A reload is about to publish the provisional character it read before the snapshot was replaced. */
  lemma ReloadOverwrites(s: App)
    requires s.cloud.Some? && s.cloud.value.savedAt <= LocalSavedAt(s)
    requires s.player.Some? && s.provisional && s.player.value != s.cloud.value.who
    requires s.commit == Some(ShowLoaded(s.gen)) && s.view.unseen && s.reconciled != Some(s.gen)
    ensures CanOverwrite(s)
  {
    DueEffectOverwrites(Next(s, FireCommit));
    OverwriteLater(s, FireCommit);
  }

  /** The next tap on the selection screen starts a reconcile call, or joins one, that has not settled on
      adopting the record. */
  predicate TapAsksCloud(s: App) {
    match s.check
    case NoCheck => true
    case Pending(p) => p in s.checks && FindsNothingNewer(s, s.checks[p].stage)
    case Done(o) => o.Unavailable?
  }

  /** A selection of the live session can still end without adopting the record. */
  ghost predicate AsksAgain(s: App) {
    s.player.None? &&
    (|| (exists id :: id in s.checks && FindsNothingNewer(s, s.checks[id].stage) && LiveWaiter(s, s.checks[id].waiters))
     || LiveSleeper(s)
     || (s.commit == Some(ShowSelection(s.gen)) && s.check == NoCheck)
     || (s.selecting && (TapAsksCloud(s) || s.view.due)))
  }

  lemma TapOverwrites(s: App)
    requires Choosing(s) && s.selecting && TapAsksCloud(s)
    ensures CanOverwrite(s)
  {
    var id := FreshId(s.checks);
    var tap := Tap(id, true, UNSTORED);
    var t := Next(s, tap);
    var w := Waiter(s.gen, ARCHETYPE_CLOUD_RETRIES);
    match s.check {
      case NoCheck =>
        assert t.checks[id].waiters[0].gen == t.gen;
        WaiterOverwrites(t, id);
      case Pending(p) =>
        assert t.checks[p].waiters[|s.checks[p].waiters|] == w;
        WaiterOverwrites(t, p);
      case Done(o) =>
        SleeperOverwrites(t, Waiter(s.gen, ARCHETYPE_CLOUD_RETRIES - 1));
    }
    OverwriteLater(s, tap);
  }

  /** A due effect, of this load or of the next, replaces the settled call by a new one, which the next tap
      joins. */
  lemma DueTapOverwrites(s: App)
    requires Choosing(s) && s.selecting && s.view.due
    ensures CanOverwrite(s)
  {
    var id := FreshId(s.checks);
    if s.reconciled == Some(s.gen) {
      var t := Next(s, StartLoad);
      TapOverwrites(Next(t, EffectStarts(id)));
      OverwriteLater(t, EffectStarts(id));
      OverwriteLater(s, StartLoad);
    } else {
      TapOverwrites(Next(s, EffectStarts(id)));
      OverwriteLater(s, EffectStarts(id));
    }
  }

  lemma OfferedOverwrites(s: App)
    requires Choosing(s) && AsksAgain(s)
    ensures CanOverwrite(s)
  {
    if id :| id in s.checks && FindsNothingNewer(s, s.checks[id].stage) && LiveWaiter(s, s.checks[id].waiters) {
      WaiterOverwrites(s, id);
    } else if w :| w in s.sleeping && w.gen == s.gen {
      SleeperOverwrites(s, w);
    } else if s.selecting {
      if s.view.due {
        DueTapOverwrites(s);
      } else {
        TapOverwrites(s);
      }
    } else {
      TapOverwrites(Next(s, FireCommit));
      OverwriteLater(s, FireCommit);
    }
  }

  // ---- a lost snapshot before the first write arrives ----

  /** A selection whose reconcile call finds no record creates a character, and the earlier write of
      another one is delivered just before it. */
  lemma CreateBehindQueueOverwrites(s: App, id: nat, w: Save)
    requires s.cloud.None? && w in s.queue && w.who < s.nextChar && s.player.None?
    requires id in s.checks && s.checks[id] == Check(Reading, None, [Waiter(s.gen, ARCHETYPE_CLOUD_RETRIES)])
    ensures CanOverwrite(s)
  {
    var answer := CloudAnswers(id, true, Io(true, 1, Some(w.savedAt + 1)));
    assert s.checks[id].waiters[0].gen == s.gen;
    ResolveConfirmedForm(s, id, true, answer.io);
    var s1 := Next(s, answer);
    assert s1 == Create(Finished(s, id, NoNewerCloud), true, answer.io);
    var mine := Save(s.nextChar, w.savedAt + 1);
    assert s1.queue == s.queue + multiset{mine} && s1.cloud.None?;
    QueuedBehind(s1, w, mine);
    OverwriteLater(s, answer);
  }

  lemma QueuedBehind(s: App, w: Save, mine: Save)
    requires s.cloud.None? && w in s.queue && mine in s.queue && w.who != mine.who && w.savedAt < mine.savedAt
    ensures CanOverwrite(s)
  {
    QueuedOverwrites(Next(s, Deliver(w)), mine);
    OverwriteLater(s, Deliver(w));
  }

  /** The selection is offered while the first write of another character is still under way. */
  lemma OfferedBehindQueueOverwrites(s: App, w: Save)
    requires s.cloud.None? && w in s.queue && w.who < s.nextChar
    requires s.player.None? && s.check == NoCheck && s.commit == Some(ShowSelection(s.gen))
    ensures CanOverwrite(s)
  {
    var s1 := Next(s, FireCommit);
    var id := FreshId(s1.checks);
    var tap := Tap(id, true, Io(true, 1, None));
    CreateBehindQueueOverwrites(Next(s1, tap), id, w);
    OverwriteLater(s1, tap);
    OverwriteLater(s, FireCommit);
  }

  /** After a restart nothing on the device tells that a first write is still under way. */
  lemma QueuedLossOverwrites(s: App, w: Save)
    requires s.cloud.None? && s.local.None? && w in s.queue && w.who < s.nextChar
    ensures CanOverwrite(s)
  {
    var s0 := Next(s, Kill);
    var s1 := Next(s0, StartLoad);
    var s2 := Next(s1, LoadRead(1, true));
    OfferedBehindQueueOverwrites(s2, w);
    OverwriteLater(s1, LoadRead(1, true));
    OverwriteLater(s0, StartLoad);
    OverwriteLater(s, Kill);
  }

  /** A character is in charge while the first write of another one is still under way. */
  lemma UnvettedBehindQueueOverwrites(s: App, w: Save)
    requires s.cloud.None? && w in s.queue && s.player.Some? && !s.provisional && s.player.value != w.who
    ensures CanOverwrite(s)
  {
    UnvettedOverwrites(Next(s, Deliver(w)));
    OverwriteLater(s, Deliver(w));
  }

  // ---- what each hazard leads to ----

  /** A stale save exposes a record, and a queued first write too. */
  lemma StaleExposes(s: App, a: Character, c: Character, io: Io)
    requires Core(s, a) && Enabled(s, SaveStale(c, io)) && !s.provisional && (s.cloud.Some? || s.queue != multiset{})
    ensures CanOverwrite(Next(s, SaveStale(c, io)))
  {
    var t := Next(s, SaveStale(c, io));
    if s.cloud.Some? {
      UnvettedOverwrites(t);
    } else {
      var w :| w in s.queue;
      assert w.who == a && w in t.queue;
      UnvettedBehindQueueOverwrites(t, w);
    }
  }

  /** So does every load that frees a provisional character or offers the selection, whatever the age of the
      snapshot. */
  lemma LoadExposes(s: App, a: Character, act: Action)
    requires Inv(s, a) && Enabled(s, act) && (act.LoadRead? || act.LoadMissed?) && Hazard(s, act)
    requires s.cloud.Some? || s.queue != multiset{}
    ensures CanOverwrite(Next(s, act))
  {
    var t := Next(s, act);
    if s.cloud.None? {
      var w :| w in s.queue;
      assert s.player.None? && s.check == NoCheck;
      OfferedBehindQueueOverwrites(t, w);
    } else if s.player.Some? {
      UnvettedOverwrites(t);
    } else {
      assert s.check == NoCheck;
      OfferedOverwrites(t);
    }
  }

  /** What is left when a reconcile call persists the record and nobody takes it over. */
  function Persisted(s: App, id: nat): (t: App)
    requires id in s.checks && !s.checks[id].stage.Reading?
  {
    var rec := s.checks[id].stage.rec;
    Finished(s.(local := Some(rec)), id, Adopted(rec.who))
  }

  lemma LostAdoptionForm(s: App, act: Action)
    requires Enabled(s, act) && act.Persist? && Hazard(s, act)
    ensures act.stored && Next(s, act) == Persisted(s, act.id)
  {
    var rec := s.checks[act.id].stage.rec;
    ResolveAdoptedForm(s.(local := Some(rec)), act.id, rec.who, act.parses, act.io);
  }

  /** So does a lost adoption beside a provisional character, or beside a selection that need not adopt. */
  lemma PersistExposes(s: App, a: Character, act: Action)
    requires Core(s, a) && Enabled(s, act) && act.Persist? && Hazard(s, act)
    requires s.player.None? ==> AsksAgain(Next(s, act))
    ensures CanOverwrite(Next(s, act))
  {
    LostAdoptionForm(s, act);
    var t := Persisted(s, act.id);
    assert s.cloud.Some? && Confirmed(t.local);
    hide Next;
    if s.player.Some? {
      ProvisionalOverwrites(t);
    } else {
      OfferedOverwrites(t);
    }
  }

  /** When a hazard makes an overwrite possible. Without a record: whenever a write is under way. With one:
      always, unless the record was persisted beside a selection that can only end by adopting it. */
  ghost predicate Exposes(s: App, act: Action)
    requires Enabled(s, act)
  {
    if s.cloud.None? then s.queue != multiset{}
    else act.Persist? && s.player.None? ==> AsksAgain(Next(s, act))
  }

  /** From any safe state such a hazard opens the way to replacing a record by ordinary steps alone. */
  lemma HazardCanOverwrite(s: App, act: Action)
    requires Safe(s) && Enabled(s, act) && Hazard(s, act) && Exposes(s, act)
    ensures CanOverwrite(Next(s, act))
  {
    var a :| Inv(s, a);
    match act
    case SaveStale(c, io) => StaleExposes(s, a, c, io);
    case LoadRead(g, parses) => LoadExposes(s, a, act);
    case LoadMissed(g) => LoadExposes(s, a, act);
    case LoadFails(g, cleared) =>
      var w :| w in s.queue;
      QueuedLossOverwrites(Next(s, act), w);
    case Persist(_, _, _, _) => PersistExposes(s, a, act);
  }
}
