/** Account deletion: suspend writes, drain, erase the cloud record, delete the auth account, wipe
    local data, reopen. Writes already in flight, and the erase request itself, reach the server at
    any later time. */
module AccountDeletion {

  datatype Phase =
    | Idle
    | Draining        // awaiting the pending writes, or the drain's timeout
    | Erasing         // awaiting the erase request
    | DeletingAuth    // awaiting the auth deletion
    | Wiping          // the account is gone; local data goes
    | Reopening       // awaiting a fresh anonymous session
    | Aborted         // a failure before the auth deletion; the session goes on
    | Deleted

  /** The erase request: not sent, on its way, or applied by the server. */
  datatype Erase = NotSent | Sent | Applied

  datatype Account = Account(
    phase: Phase,
    suspended: bool,        // new cloud writes are refused
    awaited: set<nat>,      // the writes the drain waits for
    inFlight: set<nat>,     // writes issued and not settled
    issued: nat,
    erase: Erase,           // this deletion's erase request
    lateErases: nat,        // requests of aborted deletions still on their way
    doc: bool,              // the cloud record exists
    auth: bool,             // the auth account exists
    wiped: bool)

  datatype Event =
    | SaveIssued
    | WriteLands(id: nat)
    | WriteRejected(id: nat)
    | DeletePressed
    | DrainDone
    | DrainTimesOut
    | EraseApplies
    | LateEraseApplies
    | EraseSucceeds
    | EraseFails
    | AuthDeleted
    | AuthFails
    | LocalWiped(first: bool, retry: bool)
    | Reopened(signedIn: bool, reloaded: bool)

  predicate Busy(p: Phase) {
    p.Draining? || p.Erasing? || p.DeletingAuth? || p.Wiping? || p.Reopening?
  }

  predicate Enabled(s: Account, e: Event) {
    match e
    case SaveIssued => true
    case WriteLands(id) => id in s.inFlight
    case WriteRejected(id) => id in s.inFlight
    case DeletePressed => s.phase.Idle? || s.phase.Aborted?
    case DrainDone => s.phase.Draining? && s.awaited !! s.inFlight
    case DrainTimesOut => s.phase.Draining?
    case EraseApplies => s.erase.Sent?
    case LateEraseApplies => 0 < s.lateErases
    case EraseSucceeds => s.phase.Erasing? && s.erase.Applied?
    case EraseFails => s.phase.Erasing?
    case AuthDeleted => s.phase.DeletingAuth?
    case AuthFails => s.phase.DeletingAuth?
    case LocalWiped(_, _) => s.phase.Wiping?
    case Reopened(_, _) => s.phase.Reopening?
  }

  function Next(s: Account, e: Event): (s': Account)
    requires Enabled(s, e)
  {
    match e
    case SaveIssued =>
      if s.suspended || !s.auth then s
      else s.(inFlight := s.inFlight + {s.issued}, issued := s.issued + 1)
    // the rules let only the owner write: after the auth deletion a late write is refused
    case WriteLands(id) => s.(inFlight := s.inFlight - {id}, doc := s.doc || s.auth)
    case WriteRejected(id) => s.(inFlight := s.inFlight - {id})
    case DeletePressed => s.(phase := Draining, suspended := true, awaited := s.inFlight)
    case DrainDone => s.(phase := Erasing, erase := Sent)
    case DrainTimesOut => s.(phase := Erasing, erase := Sent)
    case EraseApplies => s.(erase := Applied, doc := false)
    case LateEraseApplies => s.(lateErases := s.lateErases - 1, doc := s.doc && !s.auth)
    case EraseSucceeds => s.(phase := DeletingAuth)
    // the request may still be on its way when its timeout fires
    case EraseFails =>
      s.(phase := Aborted, suspended := false, erase := NotSent,
         lateErases := if s.erase.Sent? then s.lateErases + 1 else s.lateErases)
    case AuthDeleted => s.(phase := Wiping, auth := false)
    case AuthFails => s.(phase := Aborted, suspended := false, erase := NotSent)
    case LocalWiped(first, retry) => s.(phase := Reopening, wiped := first || retry)
    // both the normal path and the catch path resume writes
    case Reopened(signedIn, reloaded) => s.(phase := Deleted, suspended := false)
  }

  predicate Start(s: Account) {
    s.phase.Idle? && !s.suspended && s.inFlight == {} && s.issued == 0 && s.erase.NotSent? && s.lateErases == 0
    && s.auth && !s.wiped
  }

  ghost predicate IsRun(states: seq<Account>, events: seq<Event>) {
    && |states| == |events| + 1
    && forall i :: 0 <= i < |events| ==> Enabled(states[i], events[i]) && states[i + 1] == Next(states[i], events[i])
  }

  /** Writes are suspended exactly during a deletion, so every exit path has resumed them; the auth
      account is gone only after the erase request was applied; local data is wiped only after that. */
  ghost predicate Inv(s: Account) {
    && (s.suspended <==> Busy(s.phase))
    && (forall id :: id in s.inFlight ==> id < s.issued)
    && (s.erase.Sent? ==> s.phase.Erasing?)
    && (s.phase.Draining? || s.phase.Idle? || s.phase.Aborted? ==> s.erase.NotSent?)
    && (s.phase.DeletingAuth? ==> s.erase.Applied?)
    && (!s.auth <==> s.phase.Wiping? || s.phase.Reopening? || s.phase.Deleted?)
    && (!s.auth ==> s.erase.Applied?)
    && (s.wiped ==> !s.auth)
  }

  lemma StepKeepsInv(s: Account, e: Event)
    requires Inv(s) && Enabled(s, e)
    ensures Inv(Next(s, e))
  {
  }

  lemma {:induction false} RunKeepsInv(states: seq<Account>, events: seq<Event>, i: nat)
    requires IsRun(states, events) && Start(states[0]) && i < |states|
    ensures Inv(states[i])
  {
    if i > 0 {
      RunKeepsInv(states, events, i - 1);
      StepKeepsInv(states[i - 1], events[i - 1]);
    }
  }

  // ---- no late write after a complete drain ----

  /** Stretch of a run that stays inside one deletion. */
  ghost predicate WithinDeletion(states: seq<Account>, i: nat, j: nat)
    requires i <= j < |states|
  {
    forall k :: i <= k <= j ==> Busy(states[k].phase)
  }

  /** During a deletion the writes in flight only become fewer. */
  lemma {:induction false} InFlightShrinks(states: seq<Account>, events: seq<Event>, i: nat, j: nat)
    requires IsRun(states, events) && i <= j < |states| && Inv(states[i]) && WithinDeletion(states, i, j)
    ensures Inv(states[j]) && states[j].inFlight <= states[i].inFlight
    decreases j - i
  {
    if i < j {
      InFlightShrinks(states, events, i, j - 1);
      StepKeepsInv(states[j - 1], events[j - 1]);
    }
  }

  lemma ErasedStep(s: Account, e: Event)
    requires Inv(s) && Enabled(s, e) && Busy(s.phase)
    requires s.inFlight == {} && s.erase.Applied? && !s.doc && Busy(Next(s, e).phase)
    ensures Next(s, e).inFlight == {} && Next(s, e).erase.Applied? && !Next(s, e).doc
  {
  }

  /** Without a write in flight, an erased record stays erased until writes resume. */
  lemma {:induction false} ErasedStaysErased(states: seq<Account>, events: seq<Event>, i: nat, j: nat)
    requires IsRun(states, events) && i <= j < |states| && Inv(states[i]) && WithinDeletion(states, i, j)
    requires states[i].inFlight == {} && states[i].erase.Applied? && !states[i].doc
    ensures !states[j].doc && states[j].inFlight == {} && states[j].erase.Applied?
    decreases j - i
  {
    hide Inv, Next, Busy;
    if i < j {
      ErasedStaysErased(states, events, i, j - 1);
      InFlightShrinks(states, events, i, j - 1);
      var k := j - 1;
      assert Enabled(states[k], events[k]) && states[k + 1] == Next(states[k], events[k]);
      assert Busy(states[k].phase) && Busy(states[k + 1].phase);
      ErasedStep(states[k], events[k]);
    }
  }

  /** A drain that ends without its timeout leaves no write in flight: from then on, once the erase
      request is applied, no client write can bring the record back before writes resume. */
  lemma CompleteDrainErases(states: seq<Account>, events: seq<Event>, p: nat, d: nat, e: nat, j: nat)
    requires IsRun(states, events) && Start(states[0])
    requires p < d < e < j < |states| && WithinDeletion(states, p + 1, j)
    requires events[p].DeletePressed? && events[d].DrainDone? && events[e].EraseApplies?
    ensures states[d + 1].inFlight == {} && !states[j].doc
  {
    RunKeepsInv(states, events, p + 1);
    RunKeepsInv(states, events, e);
    AwaitedKept(states, events, p + 1, d);
    InFlightShrinks(states, events, p + 1, d);
    InFlightShrinks(states, events, d + 1, e + 1);
    RunKeepsInv(states, events, e + 1);
    ErasedStaysErased(states, events, e + 1, j);
  }

  lemma AwaitedStep(s: Account, e: Event)
    requires Enabled(s, e) && Busy(s.phase)
    ensures Next(s, e).awaited == s.awaited
  {
  }

  lemma {:induction false} AwaitedKept(states: seq<Account>, events: seq<Event>, i: nat, j: nat)
    requires IsRun(states, events) && i <= j < |states|
    requires WithinDeletion(states, i, j)
    ensures states[j].awaited == states[i].awaited
    decreases j - i
  {
    hide Next, Busy, Enabled;
    if i < j {
      AwaitedKept(states, events, i, j - 1);
      var k := j - 1;
      assert Enabled(states[k], events[k]) && states[k + 1] == Next(states[k], events[k]) && Busy(states[k].phase);
      AwaitedStep(states[k], events[k]);
    }
  }

  // ---- and exactly when one can ----

  ghost predicate Reaches(s: Account, events: seq<Event>, t: Account)
    decreases |events|
  {
    if events == [] then s == t
    else Enabled(s, events[0]) && Reaches(Next(s, events[0]), events[1..], t)
  }

  lemma {:induction false} CleanNeverOrphans(s: Account, events: seq<Event>, t: Account)
    requires Inv(s) && (s.phase.Erasing? || s.phase.DeletingAuth? || !s.auth) && s.erase.Applied?
    requires s.inFlight == {} && !s.doc && Reaches(s, events, t)
    requires StraightThrough(events)
    ensures !t.doc
    decreases |events|
  {
    if events != [] {
      StepKeepsInv(s, events[0]);
      CleanNeverOrphans(Next(s, events[0]), events[1..], t);
    }
  }

  /** When the erase request has been applied, this deletion can still leave the record behind
      exactly when a write is in flight at that moment. */
  lemma OrphanIffInFlight(s: Account)
    requires Inv(s) && s.phase.Erasing? && s.erase.Applied? && !s.doc
    ensures (exists events, t :: Reaches(s, events, t) && t.phase.Deleted? && t.doc && StraightThrough(events))
            <==> s.inFlight != {}
  {
    if id :| id in s.inFlight {
      var s1 := Next(s, WriteLands(id));
      var events := [WriteLands(id), EraseSucceeds, AuthDeleted, LocalWiped(true, true), Reopened(true, true)];
      var t := s1.(phase := Deleted, auth := false, wiped := true, suspended := false);
      StraightRun(s, id, events, t);
      assert StraightThrough(events);
    } else {
      forall events, t | Reaches(s, events, t) && StraightThrough(events)
        ensures !t.doc
      {
        CleanNeverOrphans(s, events, t);
      }
    }
  }

  /** The deletion is not aborted on the way. */
  ghost predicate StraightThrough(events: seq<Event>) {
    forall i :: 0 <= i < |events| ==> !events[i].EraseFails? && !events[i].AuthFails?
  }

  lemma StraightRun(s: Account, id: nat, events: seq<Event>, t: Account)
    requires s.phase.Erasing? && s.erase.Applied? && s.auth && id in s.inFlight
    requires events == [WriteLands(id), EraseSucceeds, AuthDeleted, LocalWiped(true, true), Reopened(true, true)]
    requires t == Next(s, WriteLands(id)).(phase := Deleted, auth := false, wiped := true, suspended := false)
    ensures Reaches(s, events, t) && t.doc
  {
    var s1 := Next(s, WriteLands(id));
    var s2 := Next(s1, EraseSucceeds);
    var s3 := Next(s2, AuthDeleted);
    var s4 := Next(s3, LocalWiped(true, true));
    assert Next(s4, Reopened(true, true)) == t;
    assert Reaches(t, [], t);
    assert Reaches(s4, [Reopened(true, true)], t);
    assert Reaches(s3, [LocalWiped(true, true), Reopened(true, true)], t);
    assert Reaches(s2, [AuthDeleted, LocalWiped(true, true), Reopened(true, true)], t);
    assert Reaches(s1, [EraseSucceeds, AuthDeleted, LocalWiped(true, true), Reopened(true, true)], t);
    assert events[1..] == [EraseSucceeds, AuthDeleted, LocalWiped(true, true), Reopened(true, true)];
  }

  /** An erase request that outlives its timeout is applied after the session went on, and removes a
      record that was saved and acknowledged in between. */
  lemma LateEraseDeletesNewerSave(s: Account)
    requires Inv(s) && s.phase.Erasing? && s.erase.Sent? && s.inFlight == {}
    ensures var s1 := Next(s, EraseFails);
            var s2 := Next(s1, SaveIssued);
            && Enabled(s2, WriteLands(s.issued))
            && var s3 := Next(s2, WriteLands(s.issued));
               && s3.phase.Aborted? && s3.doc && s3.inFlight == {}
               && Enabled(s3, LateEraseApplies) && !Next(s3, LateEraseApplies).doc
  {
  }

  /** No deletion is started again. */
  ghost predicate NoNewDeletion(events: seq<Event>) {
    forall i :: 0 <= i < |events| ==> !events[i].DeletePressed?
  }

  lemma {:induction false} RecordStays(s: Account, events: seq<Event>, t: Account)
    requires Inv(s) && s.phase.Aborted? && s.doc && s.lateErases == 0
    requires Reaches(s, events, t) && NoNewDeletion(events)
    ensures t.doc
    decreases |events|
  {
    if events != [] {
      assert !events[0].DeletePressed?;
      StepKeepsInv(s, events[0]);
      RecordStays(Next(s, events[0]), events[1..], t);
    }
  }

  /** After an aborted deletion the record can still be lost, without a new deletion, exactly when an erase
      request that outlived its timeout is on its way. */
  lemma RecordLostIffLateErase(s: Account)
    requires Inv(s) && s.phase.Aborted? && s.doc
    ensures (exists events, t :: Reaches(s, events, t) && NoNewDeletion(events) && !t.doc) <==> s.lateErases > 0
  {
    if s.lateErases > 0 {
      var t := Next(s, LateEraseApplies);
      assert Reaches(t, [], t);
      assert [LateEraseApplies][1..] == [];
      assert Reaches(s, [LateEraseApplies], t) && NoNewDeletion([LateEraseApplies]);
    } else {
      forall events, t | Reaches(s, events, t) && NoNewDeletion(events)
        ensures t.doc
      {
        RecordStays(s, events, t);
      }
    }
  }
}
