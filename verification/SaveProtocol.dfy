/** The local-first save and cloud reconcile protocol of one account on one device, as a transition
    system. Every await is a step boundary: a storage call, a cloud answer, a timer or a tap happens
    in one step together with the continuations that run right after it. */
module SaveProtocol {
  import opened Basics

  /** Identity of a character; all saves of one character carry the same one. */
  type Character = nat

  /** A persisted record. savedAt 0 marks a provisional character. */
  datatype Save = Save(who: Character, savedAt: nat)

  datatype Outcome = Adopted(who: Character) | NoNewerCloud | Unavailable

  /** A reconcile call: awaiting the cloud read, the local read, the clearing of a snapshot that could not
      be read, or the local write of the cloud record. */
  datatype Stage = Reading | Deciding(rec: Save) | Missed(rec: Save) | Writing(rec: Save)

  /** An initializePlayer call: awaiting the local read, or the clearing of a snapshot that could not be read. */
  datatype Load = Load(gen: nat, lost: bool)

  /** An archetype selection awaiting a reconcile, with the retries it has left. */
  datatype Waiter = Waiter(gen: nat, retries: nat)

  datatype Check = Check(stage: Stage, effectGen: Option<nat>, waiters: seq<Waiter>)

  /** The cloudCheckRef promise. */
  datatype CheckRef = NoCheck | Pending(id: nat) | Done(outcome: Outcome)

  /** The deferred commit waiting for the app to be active. */
  datatype Commit = ShowSelection(gen: nat) | ShowLoaded(gen: nat) | ShowCreated

  /** What storage, clock and cloud client do in one save. */
  datatype Io = Io(stored: bool, at: nat, issued: Option<nat>) {
    predicate Valid() { 0 < at && (issued.Some? ==> 0 < issued.value) }
  }

  /** What the renders see: the live player object is not published yet; a changed player or selection flag
      has been rendered and its effect has not run; the last generation whose load finished; and the
      generations of the selections awaiting the save of the character they created. */
  datatype View = View(unseen: bool, due: bool, loaded: Option<nat>, arming: multiset<nat>)

  datatype App = App(
    // durable state: the cloud record, its queued writes, the local snapshot
    cloud: Option<Save>, queue: multiset<Save>, local: Option<Save>,
    // refs of the hook
    player: Option<Character>, provisional: bool, gen: nat, reconciled: Option<nat>, check: CheckRef,
    // calls in flight
    loads: set<Load>, checks: map<nat, Check>, sleeping: multiset<Waiter>,
    // the screen
    shown: Option<Character>, selecting: bool, commit: Option<Commit>, view: View,
    // history: the next fresh character, and the characters cleared for the cloud
    nextChar: Character, vetted: set<Character>)

  const ARCHETYPE_CLOUD_RETRIES: nat := 2

  datatype Action =
    | StartLoad
    | ClearPlayer
    | LoadRead(g: nat, parses: bool)
    | LoadFails(g: nat, cleared: bool)
    | LoadMissed(g: nat)
    | FireCommit
    | Repaint
    | EffectStarts(id: nat)
    | EffectReturns
    | Tap(id: nat, parses: bool, io: Io)
    | CloudAnswers(id: nat, readable: bool, io: Io)
    | CompareFails(id: nat, cleared: bool)
    | Compare(id: nat, io: Io)
    | Persist(id: nat, stored: bool, parses: bool, io: Io)
    | Wake(w: Waiter, id: nat)
    | Arm(g: nat)
    | SaveProgress(io: Io)
    | SaveStale(c: Character, io: Io)
    | Deliver(write: Save)
    | Drop(write: Save)
    | Kill
    | Reinstall

  // ---- the pieces of the hook ----

  /** savePlayerData: the local write, then, if it succeeded, the cloud write. */
  function SaveConfirmed(s: App, c: Character, io: Io): (s': App) {
    if !io.stored then s
    else s.(local := Some(Save(c, io.at)),
            queue := if io.issued.Some? then s.queue + multiset{Save(c, io.issued.value)} else s.queue)
  }

  /** writeLocalPlayerSnapshot(_, 0): local only. */
  function SaveProvisional(s: App, c: Character, io: Io): (s': App) {
    if io.stored then s.(local := Some(Save(c, 0))) else s
  }

  /** setPlayer with the live player object, and the selection flag cleared. */
  function Publish(s: App): (s': App) {
    s.(shown := s.player, selecting := false,
       view := s.view.(unseen := false, due := s.view.due || s.view.unseen || s.selecting))
  }

  /** setPlayerAndSave, with a new player object. */
  function SetAndSave(s: App, c: Character, io: Io): (s': App) {
    var t := s.(player := Some(c), shown := Some(c), view := s.view.(unseen := false, due := true));
    if s.provisional then SaveProvisional(t, c, io) else SaveConfirmed(t, c, io)
  }

  function Adopt(s: App, c: Character): (s': App) {
    s.(player := Some(c), provisional := false, shown := Some(c), selecting := false, vetted := s.vetted + {c},
       view := s.view.(unseen := false, due := true))
  }

  /** The continuation of the reconcile effect. */
  function EffectThen(s: App, effectGen: Option<nat>, o: Outcome, parses: bool, io: Io): (s': App) {
    if effectGen != Some(s.gen) then s
    else match o
      case Adopted(c) => if parses then Adopt(s, c) else s
      case NoNewerCloud =>
        if s.provisional && s.player.Some?
        then SaveConfirmed(s.(provisional := false, vetted := s.vetted + {s.player.value}), s.player.value, io)
        else s
      case Unavailable => s
  }

  /** Creating the chosen archetype. */
  function Create(s: App, confirmed: bool, io: Io): (s': App) {
    var c := s.nextChar;
    var t := s.(player := Some(c), nextChar := c + 1, provisional := !confirmed,
                view := s.view.(unseen := true, arming := s.view.arming + multiset{s.gen}),
                vetted := if confirmed then s.vetted + {c} else s.vetted);
    if confirmed then SaveConfirmed(t, c, io) else SaveProvisional(t, c, io)
  }

  /** The continuation of one archetype selection. */
  function Resume(s: App, w: Waiter, o: Outcome, parses: bool, io: Io): (s': App)
    ensures s'.cloud == s.cloud && s'.gen == s.gen
  {
    if w.gen != s.gen then s
    else if o.Unavailable? && 0 < w.retries then s.(sleeping := s.sleeping + multiset{Waiter(w.gen, w.retries - 1)})
    else if o.Adopted? && s.player.None? then (if parses then Adopt(s, o.who) else s)
    else if s.player.Some? then s
    else Create(s, o.NoNewerCloud?, io)
  }

  function ResumeAll(s: App, ws: seq<Waiter>, o: Outcome, parses: bool, io: Io): (s': App)
    ensures s'.cloud == s.cloud && s'.gen == s.gen
    decreases |ws|
  {
    if ws == [] then s else ResumeAll(Resume(s, ws[0], o, parses, io), ws[1..], o, parses, io)
  }

  /** A reconcile call finishes: its promise resolves and its continuations run in order. */
  function Resolve(s: App, id: nat, o: Outcome, parses: bool, io: Io): (s': App)
    requires id in s.checks
    ensures s'.cloud == s.cloud && s'.gen == s.gen
  {
    var c := s.checks[id];
    var t := s.(checks := s.checks - {id}, check := if s.check == Pending(id) then Done(o) else s.check);
    ResumeAll(EffectThen(t, c.effectGen, o, parses, io), c.waiters, o, parses, io)
  }

  function LocalSavedAt(s: App): (t: nat) {
    if s.local.Some? then s.local.value.savedAt else 0
  }

  /** initializePlayer when its local read reports no snapshot. */
  function LoadedNone(s: App, g: nat): (s': App) {
    s.(provisional := false, commit := Some(ShowSelection(g)), view := s.view.(loaded := Some(g)))
  }

  /** initializePlayer after a local read that did not fail. */
  function Loaded(s: App, g: nat, parses: bool): (s': App) {
    var t := s.(loads := s.loads - {Load(g, false)});
    if g != s.gen then t
    else if s.local.None? then LoadedNone(t, g)
    else
      var rec := s.local.value;
      var u := t.(provisional := rec.savedAt == 0, view := s.view.(loaded := Some(g)));
      if !parses then u.(commit := Some(ShowSelection(g)))
      else u.(player := Some(rec.who), commit := Some(ShowLoaded(g)), view := u.view.(unseen := true),
              vetted := if rec.savedAt == 0 then u.vetted else u.vetted + {rec.who})
  }

  /** A local read that throws or finds invalid data: the snapshot is cleared, unless that fails too. */
  function Unread(s: App, cleared: bool): (s': App) {
    if cleared then s.(local := None) else s
  }

  function Committed(s: App, c: Commit): (s': App) {
    var t := s.(commit := None);
    match c
    case ShowSelection(g) =>
      if g == s.gen then t.(selecting := true, view := s.view.(due := s.view.due || !s.selecting)) else t
    case ShowLoaded(g) => if g == s.gen && s.player.Some? then Publish(t) else t
    case ShowCreated => if s.player.Some? then Publish(t) else t
  }

  /** handleArchetypeSelected up to its first await. */
  function Tapped(s: App, id: nat, parses: bool, io: Io): (s': App) {
    var w := Waiter(s.gen, ARCHETYPE_CLOUD_RETRIES);
    match s.check
    case NoCheck =>
      s.(reconciled := Some(s.gen), check := Pending(id), checks := s.checks[id := Check(Reading, None, [w])])
    case Pending(p) =>
      if p in s.checks
      then s.(checks := s.checks[p := s.checks[p].(waiters := s.checks[p].waiters + [w])])
      else s
    case Done(o) => Resume(s, w, o, parses, io)
  }

  /** The server's rule: an update must carry a strictly greater timestamp. */
  function Delivered(cloud: Option<Save>, w: Save): (r: Option<Save>) {
    if cloud.None? || w.savedAt > cloud.value.savedAt then Some(w) else cloud
  }

  /** Memory after a process start. */
  function Relaunched(s: App): (s': App) {
    s.(player := None, provisional := false, gen := 0, reconciled := None, check := NoCheck, loads := {},
       checks := map[], sleeping := multiset{}, shown := None, selecting := false, commit := None,
       view := View(false, false, None, multiset{}))
  }

  // ---- the transition system ----

  predicate Enabled(s: App, a: Action) {
    match a
    case StartLoad => true
    case ClearPlayer => true
    case LoadRead(g, _) => Load(g, false) in s.loads
    case LoadFails(g, _) => Load(g, false) in s.loads
    case LoadMissed(g) => Load(g, true) in s.loads
    case FireCommit => s.commit.Some?
    case Repaint => true
    case EffectStarts(id) =>
      s.view.due && (s.shown.Some? || s.selecting) && s.reconciled != Some(s.gen) && id !in s.checks
    case EffectReturns => s.view.due && ((s.shown.None? && !s.selecting) || s.reconciled == Some(s.gen))
    case Tap(id, _, io) => s.selecting && id !in s.checks && io.Valid()
    case CloudAnswers(id, _, io) => id in s.checks && s.checks[id].stage.Reading? && io.Valid()
    case CompareFails(id, _) => id in s.checks && s.checks[id].stage.Deciding?
    case Compare(id, io) => id in s.checks && (s.checks[id].stage.Deciding? || s.checks[id].stage.Missed?) && io.Valid()
    case Persist(id, _, _, io) => id in s.checks && s.checks[id].stage.Writing? && io.Valid()
    case Wake(w, id) => w in s.sleeping && id !in s.checks
    case Arm(g) => g in s.view.arming
    case SaveProgress(io) => s.player.Some? && io.Valid()
    case SaveStale(c, io) => s.player.Some? && s.player != Some(c) && c < s.nextChar && io.Valid()
    case Deliver(w) => w in s.queue
    case Drop(w) => w in s.queue
    case Kill => true
    case Reinstall => true
  }

  function Next(s: App, a: Action): (s': App)
    requires Enabled(s, a)
  {
    match a
    case StartLoad => s.(gen := s.gen + 1, loads := s.loads + {Load(s.gen + 1, false)})
    case ClearPlayer =>
      s.(gen := s.gen + 1, commit := None, player := None, check := NoCheck, provisional := false,
         shown := None, selecting := false, view := s.view.(unseen := false, due := false))
    case LoadRead(g, parses) => Loaded(s, g, parses)
    case LoadFails(g, cleared) => Unread(s.(loads := s.loads - {Load(g, false)} + {Load(g, true)}), cleared)
    case LoadMissed(g) =>
      var t := s.(loads := s.loads - {Load(g, true)});
      if g != s.gen then t else LoadedNone(t, g)
    case FireCommit => Committed(s, s.commit.value)
    case Repaint => if s.player.Some? then Publish(s) else s
    case EffectStarts(id) =>
      s.(reconciled := Some(s.gen), check := Pending(id), checks := s.checks[id := Check(Reading, Some(s.gen), [])],
         view := s.view.(due := false))
    case EffectReturns => s.(view := s.view.(due := false))
    case Tap(id, parses, io) => Tapped(s, id, parses, io)
    case CloudAnswers(id, readable, io) =>
      if !readable then Resolve(s, id, Unavailable, true, io)
      else if s.cloud.None? then Resolve(s, id, NoNewerCloud, true, io)
      else s.(checks := s.checks[id := s.checks[id].(stage := Deciding(s.cloud.value))])
    case CompareFails(id, cleared) =>
      Unread(s.(checks := s.checks[id := s.checks[id].(stage := Missed(s.checks[id].stage.rec))]), cleared)
    case Compare(id, io) =>
      var rec := s.checks[id].stage.rec;
      var localSavedAt := if s.checks[id].stage.Missed? then 0 else LocalSavedAt(s);
      if rec.savedAt > localSavedAt then s.(checks := s.checks[id := s.checks[id].(stage := Writing(rec))])
      else Resolve(s, id, NoNewerCloud, true, io)
    case Persist(id, stored, parses, io) =>
      var rec := s.checks[id].stage.rec;
      Resolve(if stored then s.(local := Some(rec)) else s, id, Adopted(rec.who), parses, io)
    case Wake(w, id) =>
      var t := s.(sleeping := s.sleeping - multiset{w});
      if w.gen != s.gen then t else t.(checks := t.checks[id := Check(Reading, None, [w])])
    case Arm(g) => s.(view := s.view.(arming := s.view.arming - multiset{g}), commit := Some(ShowCreated))
    case SaveProgress(io) => SetAndSave(s, s.player.value, io)
    case SaveStale(c, io) => SetAndSave(s, c, io)
    case Deliver(w) => s.(queue := s.queue - multiset{w}, cloud := Delivered(s.cloud, w))
    case Drop(w) => s.(queue := s.queue - multiset{w})
    case Kill => Relaunched(s)
    case Reinstall => Relaunched(s.(local := None, queue := multiset{}))
  }

  /** A first launch: nothing local, any cloud record with a positive timestamp. */
  predicate Launch(s: App) {
    && s == Relaunched(s) && s.local.None? && s.queue == multiset{}
    && (s.cloud.Some? ==> 0 < s.cloud.value.savedAt && s.cloud.value.who < s.nextChar)
    && s.vetted == if s.cloud.Some? then {s.cloud.value.who} else {}
  }

  // ---- the hazards ----

  predicate LiveWaiter(s: App, ws: seq<Waiter>) {
    exists i :: 0 <= i < |ws| && ws[i].gen == s.gen
  }

  /** No selection screen is up or due for the live load. */
  predicate Idle(s: App) {
    !s.selecting && s.commit != Some(ShowSelection(s.gen))
  }

  /** The live session takes over the character that a reconcile call has just persisted. */
  ghost predicate TakesOver(s: App, c: Check, who: Character, parses: bool) {
    || (parses && (c.effectGen == Some(s.gen) || (LiveWaiter(s, c.waiters) && s.player.None?)))
    || (s.player == Some(who) && !s.provisional)
    || (s.player.None? && Idle(s))
  }

  /** Ending a load without a snapshot would free a provisional character beside another one's record, or
      offer a selection over a confirmed snapshot. */
  predicate EmptyLoadConflict(s: App) {
    if s.player.Some? then s.provisional && s.cloud.Some? && s.cloud.value.who != s.player.value
    else Confirmed(s.local)
  }

  /** The steps that put a second character in line for the cloud record, or lose the only trace of the one
      whose first write is still under way. */
  ghost predicate Conflict(s: App, a: Action)
    requires Enabled(s, a)
  {
    match a
    // a reconcile call persists the cloud record, but the live session does not take it over
    case Persist(id, stored, parses, _) =>
      stored && !TakesOver(s, s.checks[id], s.checks[id].stage.rec.who, parses)
    // a load finds no snapshot, or cannot build a player from a confirmed one
    case LoadRead(g, parses) =>
      g == s.gen && if s.local.None? then EmptyLoadConflict(s) else Confirmed(s.local) && !parses && s.player.None?
    // a failed read clears the snapshot before any write of the character reached the cloud
    case LoadFails(_, cleared) => cleared && s.queue != multiset{} && s.cloud.None?
    // a load whose read failed goes on as if there were no snapshot
    case LoadMissed(g) => g == s.gen && EmptyLoadConflict(s)
    // a save built from one character lands after another one went live
    case SaveStale(_, io) =>
      !s.provisional && (s.cloud.Some? || s.queue != multiset{} || (Confirmed(s.local) && !io.stored))
    case _ => false
  }

  /** The live character is provisional and was never cleared for the cloud. */
  predicate Unproven(s: App) {
    s.player.Some? && s.provisional && s.player.value !in s.vetted
  }

  /** The steps that free a character for the cloud that was never cleared for it. */
  predicate Smuggles(s: App, a: Action) {
    match a
    case LoadRead(g, _) => g == s.gen && s.local.None? && Unproven(s)
    case LoadMissed(g) => g == s.gen && Unproven(s)
    case SaveStale(c, _) => !s.provisional && c !in s.vetted
    case _ => false
  }

  ghost predicate Hazard(s: App, a: Action)
    requires Enabled(s, a)
  {
    Conflict(s, a) || Smuggles(s, a)
  }

  // ---- the invariant ----

  predicate Confirmed(o: Option<Save>) {
    o.Some? && 0 < o.value.savedAt
  }

  /** Everything that can reach the cloud belongs to character a. */
  ghost predicate Agrees(s: App, a: Character) {
    && (s.cloud.Some? ==> s.cloud.value.who == a)
    && (forall w :: w in s.queue ==> w.who == a)
    && (Confirmed(s.local) ==> s.local.value.who == a)
    && (s.player.Some? && !s.provisional ==> s.player.value == a)
    && (forall id :: id in s.checks && !s.checks[id].stage.Reading? ==>
          s.cloud.Some? && s.checks[id].stage.rec.who == a && 0 < s.checks[id].stage.rec.savedAt)
    && (s.check.Done? && s.check.outcome.Adopted? ==> s.cloud.Some? && s.check.outcome.who == a)
  }

  /** No confirmed save exists anywhere. */
  ghost predicate Unclaimed(s: App) {
    s.cloud.None? && s.queue == multiset{} && !Confirmed(s.local)
  }

  /** A confirmed snapshot is the live character, or nothing is live yet. */
  ghost predicate Settled(s: App) {
    Confirmed(s.local) ==>
      || (s.player == Some(s.local.value.who) && !s.provisional)
      || (s.player.None? && Idle(s))
  }

  ghost predicate Ordered(s: App) {
    && (s.cloud.Some? ==> 0 < s.cloud.value.savedAt && s.cloud.value.who < s.nextChar)
    && (forall w :: w in s.queue ==> 0 < w.savedAt && w.who < s.nextChar)
    && (s.local.Some? ==> s.local.value.who < s.nextChar)
    && (s.player.Some? ==> s.player.value < s.nextChar)
  }

  /** Beside a record, a provisional character is not the first one. */
  predicate Latecomer(s: App) {
    s.cloud.Some? && ((s.local.Some? && s.local.value.savedAt == 0) || (s.player.Some? && s.provisional)) ==>
      1 < s.nextChar
  }

  /** Tokens captured by calls in flight are never ahead of the current generation. */
  ghost predicate Captured(s: App) {
    && (forall id, i :: id in s.checks && 0 <= i < |s.checks[id].waiters| ==> s.checks[id].waiters[i].gen <= s.gen)
    && (forall w :: w in s.sleeping ==> w.gen <= s.gen)
    && (s.commit.Some? && s.commit.value.ShowSelection? ==> s.commit.value.gen <= s.gen)
    && (s.reconciled.Some? ==> s.reconciled.value <= s.gen)
  }

  /** Without a live character, reconcile calls are awaited only while the selection screen is up. */
  ghost predicate Attended(s: App) {
    s.player.None? && !s.selecting ==>
      && s.check == NoCheck
      && (forall id :: id in s.checks ==> !LiveWaiter(s, s.checks[id].waiters))
      && (forall w :: w in s.sleeping ==> w.gen != s.gen)
  }

  /** One character is in line for the cloud record. */
  ghost predicate Core(s: App, a: Character) {
    && Attended(s)
    && Captured(s) && Agrees(s, a) && Ordered(s) && Settled(s) && Latecomer(s)
    && (s.queue != multiset{} && s.cloud.None? ==> Confirmed(s.local))
    && (s.player.None? ==> s.shown.None?)
    && (s.check.Pending? ==> s.check.id in s.checks)
    && (s.player.None? && s.check == Done(NoNewerCloud) ==> Unclaimed(s))
  }

  /** Only characters cleared for the cloud are in line. */
  ghost predicate Vetted(s: App) {
    && (s.cloud.Some? ==> s.cloud.value.who in s.vetted)
    && (forall w :: w in s.queue ==> w.who in s.vetted)
    && (s.player.Some? && !s.provisional ==> s.player.value in s.vetted)
    && (forall c :: c in s.vetted ==> c < s.nextChar)
  }

  ghost predicate Inv(s: App, a: Character) {
    Core(s, a) && Vetted(s)
  }

  ghost predicate Single(s: App) {
    exists a :: Core(s, a)
  }

  ghost predicate Safe(s: App) {
    exists a :: Inv(s, a)
  }
}
