/** The walk-summary log: appends and drains queued on one promise chain over asynchronous storage. */
module WalkLog {

  const MAX_ENTRIES: nat := 100

  /** A display record of one passively resolved encounter. */
  datatype Entry = Entry(creatureName: string, won: bool, xpGained: nat, timestamp: nat)

  /** One issued call. */
  datatype Job = Append(entry: Entry) | Drain

  /** A job together with whether its storage read and its storage write succeed. */
  datatype Turn = Turn(job: Job, readOk: bool, writeOk: bool)

  /** A call that has ended, with what it returned. */
  datatype Finished = Finished(turn: Turn, result: seq<Entry>)

  /** A promise a call waits for: already resolved, or the settling of an earlier call, caught so that a
      failure of that call does not matter. */
  datatype Promise = Resolved | Settling(id: nat)

  /** Where a call stands: its turn has not come or it has not read storage yet, it has read and is about
      to write, or its own promise has settled, fulfilled or rejected. */
  datatype Progress = Waiting | HasRead(existing: seq<Entry>, ok: bool) | Done(end: Finished, fulfilled: bool)

  datatype Call = Call(job: Job, prev: Promise, progress: Progress)

  /** The stored log (empty when the key is absent), the module's chain variable, and all calls issued. */
  datatype Log = Log(store: seq<Entry>, chain: Promise, calls: seq<Call>)

  /** New calls are issued while storage calls of any call complete; each storage call is one step. Clearing
      the local player data removes the log without waiting for the chain. */
  datatype Event = Issue(job: Job) | Read(id: nat, ok: bool) | Write(id: nat, ok: bool) | Clear

  /** The last MAX_ENTRIES of a log. */
  function Trim(s: seq<Entry>): (r: seq<Entry>)
    ensures |r| == if |s| <= MAX_ENTRIES then |s| else MAX_ENTRIES
    ensures r == s[|s| - |r|..]
  {
    if |s| <= MAX_ENTRIES then s else s[|s| - MAX_ENTRIES..]
  }

  predicate HasSettled(s: Log, p: Promise) {
    p.Resolved? || (p.id < |s.calls| && s.calls[p.id].progress.Done?)
  }

  predicate Enabled(s: Log, e: Event) {
    match e
    case Issue(_) => true
    case Read(id, _) => id < |s.calls| && s.calls[id].progress.Waiting? && HasSettled(s, s.calls[id].prev)
    case Write(id, _) => id < |s.calls| && s.calls[id].progress.HasRead?
    case Clear => true
  }

  function Moved(s: Log, id: nat, p: Progress): (s': Log)
    requires id < |s.calls|
  {
    s.(calls := s.calls[id := s.calls[id].(progress := p)])
  }

  function Next(s: Log, e: Event): (s': Log)
    requires Enabled(s, e)
  {
    match e
    // the call waits for the chain as it is, and the chain goes on behind the call
    case Issue(job) => s.(calls := s.calls + [Call(job, s.chain, Waiting)], chain := Settling(|s.calls|))
    // a failed load reads as empty; an empty drain ends without a second storage call
    case Read(id, ok) =>
      var existing := if ok then s.store else [];
      if s.calls[id].job.Drain? && existing == []
      then Moved(s, id, Done(Finished(Turn(Drain, ok, true), []), true))
      else Moved(s, id, HasRead(existing, ok))
    case Clear => s.(store := [])
    case Write(id, ok) =>
      var c := s.calls[id];
      var turn := Turn(c.job, c.progress.ok, ok);
      match c.job
      case Append(x) =>
        Moved(s, id, Done(Finished(turn, []), ok)).(store := if ok then Trim(c.progress.existing + [x]) else s.store)
      case Drain =>
        // a failed removal returns nothing
        var end := Finished(turn, if ok then c.progress.existing else []);
        Moved(s, id, Done(end, ok)).(store := if ok then [] else s.store)
  }

  // ---- one at a time ----

  /** What one call does when nothing else runs: the new log and its result. */
  function Alone(store: seq<Entry>, t: Turn): (r: (seq<Entry>, seq<Entry>)) {
    var existing := if t.readOk then store else [];
    match t.job
    case Append(x) => (if t.writeOk then Trim(existing + [x]) else store, [])
    case Drain => if existing != [] && t.writeOk then ([], existing) else (store, [])
  }

  /** The log after running the turns strictly one after another. */
  function SerialStore(turns: seq<Turn>): (r: seq<Entry>) {
    if turns == [] then [] else Alone(SerialStore(turns[..|turns| - 1]), turns[|turns| - 1]).0
  }

  /** The finished calls behave as if they had run strictly one after another. */
  ghost predicate SerialResults(finished: seq<Finished>) {
    forall k :: 0 <= k < |finished| ==>
      finished[k].result == Alone(SerialStore(Turns(finished)[..k]), finished[k].turn).1
  }

  function Turns(finished: seq<Finished>): (r: seq<Turn>)
    ensures |r| == |finished| && forall i :: 0 <= i < |r| ==> r[i] == finished[i].turn
  {
    seq(|finished|, i requires 0 <= i < |finished| => finished[i].turn)
  }

  /** The jobs issued by a run of events, in issue order. */
  function Issued(events: seq<Event>): (r: seq<Job>) {
    if events == [] then []
    else Issued(events[..|events| - 1]) + if events[|events| - 1].Issue? then [events[|events| - 1].job] else []
  }

  function JobsIn(calls: seq<Call>): (r: seq<Job>)
    ensures |r| == |calls| && forall i :: 0 <= i < |r| ==> r[i] == calls[i].job
  {
    seq(|calls|, i requires 0 <= i < |calls| => calls[i].job)
  }

  ghost predicate IsRun(states: seq<Log>, events: seq<Event>) {
    && |states| == |events| + 1
    && states[0] == Log([], Resolved, [])
    && forall i :: 0 <= i < |events| ==> Enabled(states[i], events[i]) && states[i + 1] == Next(states[i], events[i])
  }

  // ---- the links keep the calls apart ----

  /** Each call waits for the one issued before it, and the chain for the last. */
  ghost predicate Linked(s: Log) {
    && s.chain == (if s.calls == [] then Resolved else Settling(|s.calls| - 1))
    && forall i :: 0 <= i < |s.calls| ==> s.calls[i].prev == if i == 0 then Resolved else Settling(i - 1)
  }

  /** The first n calls have ended, the next one may be at work, and none after it has begun. */
  ghost predicate InOrder(s: Log, n: nat) {
    && n <= |s.calls|
    && (forall i :: 0 <= i < n ==> s.calls[i].progress.Done? && s.calls[i].progress.end.turn.job == s.calls[i].job)
    && (n < |s.calls| ==> !s.calls[n].progress.Done?)
    && (forall i :: n < i < |s.calls| ==> s.calls[i].progress.Waiting?)
  }

  /** Linked calls take turns: only the first call that has not ended can take a step. */
  lemma LinksTakeTurns(s: Log, e: Event, n: nat)
    requires Linked(s) && InOrder(s, n) && Enabled(s, e) && (e.Read? || e.Write?)
    ensures n < |s.calls| && e.id == n
  {
  }

  /** The links are what it takes: two appends waiting for the same settled promise can lose an entry. */
  lemma UnlinkedLoses(s: Log, x: Entry, y: Entry)
    requires s.calls == [Call(Append(x), Resolved, Waiting), Call(Append(y), Resolved, Waiting)]
    requires |s.store| + 2 <= MAX_ENTRIES && !Linked(s)
    ensures var s1 := Next(s, Read(0, true));
            && Enabled(s1, Read(1, true)) && Enabled(Next(s1, Read(1, true)), Write(0, true))
            && var s3 := Next(Next(s1, Read(1, true)), Write(0, true));
               && Enabled(s3, Write(1, true)) && Next(s3, Write(1, true)).store == s.store + [y]
  {
  }

  lemma StepKeepsOrder(s: Log, e: Event, n: nat) returns (m: nat)
    requires Linked(s) && InOrder(s, n) && Enabled(s, e)
    ensures Linked(Next(s, e)) && InOrder(Next(s, e), m)
  {
    m := n;
    if e.Read? || e.Write? {
      LinksTakeTurns(s, e, n);
      if Next(s, e).calls[n].progress.Done? { m := n + 1; }
    }
  }

  lemma {:induction false} RunInOrder(states: seq<Log>, events: seq<Event>) returns (n: nat)
    requires IsRun(states, events)
    ensures Linked(states[|events|]) && InOrder(states[|events|], n)
    decreases |events|
  {
    if events == [] {
      n := 0;
    } else {
      var k := |events| - 1;
      var m := RunInOrder(states[..k + 1], events[..k]);
      hide Linked, InOrder, Next;
      n := StepKeepsOrder(states[k], events[k], m);
    }
  }

  /** Over every run no two calls are ever between their read and their write. */
  lemma OneAtATime(states: seq<Log>, events: seq<Event>, i: nat, j: nat)
    requires IsRun(states, events)
    requires i < |states[|events|].calls| && states[|events|].calls[i].progress.HasRead?
    requires j < |states[|events|].calls| && states[|events|].calls[j].progress.HasRead?
    ensures i == j
  {
    var n := RunInOrder(states, events);
  }

  // ---- and so in issue order ----

  /** What the calls m .. n - 1, all ended, did. */
  function History(calls: seq<Call>, m: nat, n: nat): (r: seq<Finished>)
    requires m <= n <= |calls| && forall i :: m <= i < n ==> calls[i].progress.Done?
    ensures |r| == n - m && forall i :: 0 <= i < n - m ==> r[i] == calls[m + i].progress.end
  {
    seq(n - m, i requires 0 <= i < n - m => calls[m + i].progress.end)
  }

  /** The state agrees with having run the calls ended since the last clear, which are those from m on, one
      at a time in issue order. */
  ghost predicate Serial(s: Log, m: nat, n: nat) {
    && Linked(s) && InOrder(s, n) && m <= n
    && s.store == SerialStore(Turns(History(s.calls, m, n)))
    && SerialResults(History(s.calls, m, n))
    && (n < |s.calls| && s.calls[n].progress.HasRead? ==> ReadBack(s, s.calls[n]))
  }

  /** What a call at work has read is still what is stored, and a drain at work has something to remove. */
  ghost predicate ReadBack(s: Log, c: Call)
    requires c.progress.HasRead?
  {
    && c.progress.existing == (if c.progress.ok then s.store else [])
    && (c.job.Drain? ==> c.progress.existing != [])
  }

  /** No call at work holds entries it has read. */
  ghost predicate NothingHeld(s: Log) {
    forall i :: 0 <= i < |s.calls| && s.calls[i].progress.HasRead? ==> s.calls[i].progress.existing == []
  }

  lemma FinishOne(finished: seq<Finished>, f: Finished)
    requires SerialResults(finished)
    requires f.result == Alone(SerialStore(Turns(finished)), f.turn).1
    ensures Turns(finished + [f]) == Turns(finished) + [f.turn]
    ensures SerialStore(Turns(finished + [f])) == Alone(SerialStore(Turns(finished)), f.turn).0
    ensures SerialResults(finished + [f])
  {
    var all := finished + [f];
    assert Turns(all) == Turns(finished) + [f.turn];
    assert Turns(all)[..|finished|] == Turns(finished);
    forall k | 0 <= k < |all|
      ensures all[k].result == Alone(SerialStore(Turns(all)[..k]), all[k].turn).1
    {
      assert k < |finished| ==> Turns(all)[..k] == Turns(finished)[..k];
    }
  }

  /** A call ends exactly as if it had run alone. */
  lemma EndIsAlone(s: Log, e: Event, n: nat) returns (f: Finished)
    requires n < |s.calls| && Enabled(s, e) && (e.Read? || e.Write?) && e.id == n && Next(s, e).calls[n].progress.Done?
    requires e.Write? ==> ReadBack(s, s.calls[n])
    ensures f == Next(s, e).calls[n].progress.end && f.turn.job == s.calls[n].job
    ensures (Next(s, e).store, f.result) == Alone(s.store, f.turn)
    ensures Next(s, e).calls == s.calls[n := s.calls[n].(progress := Next(s, e).calls[n].progress)]
    ensures Next(s, e).chain == s.chain
  {
    f := Next(s, e).calls[n].progress.end;
  }

  lemma OneMoreEnded(s: Log, t: Log, m: nat, n: nat, p: Progress)
    requires Linked(s) && InOrder(s, n) && m <= n < |s.calls| && p.Done? && p.end.turn.job == s.calls[n].job
    requires t.chain == s.chain && t.calls == s.calls[n := s.calls[n].(progress := p)]
    ensures Linked(t) && InOrder(t, n + 1) && History(t.calls, m, n + 1) == History(s.calls, m, n) + [p.end]
    ensures n + 1 < |t.calls| ==> t.calls[n + 1].progress.Waiting?
  {
  }

  lemma StepEndsOne(s: Log, e: Event, m: nat, n: nat)
    requires Serial(s, m, n) && n < |s.calls| && Enabled(s, e) && (e.Read? || e.Write?) && e.id == n
    requires Next(s, e).calls[n].progress.Done?
    ensures Serial(Next(s, e), m, n + 1)
  {
    var f := EndIsAlone(s, e, n);
    var t := Next(s, e);
    hide Next, Alone, SerialStore, SerialResults, Linked, Turns;
    OneMoreEnded(s, t, m, n, t.calls[n].progress);
    FinishOne(History(s.calls, m, n), f);
  }

  lemma ReadKeepsSerial(s: Log, ok: bool, m: nat, n: nat)
    requires Serial(s, m, n) && n < |s.calls| && Enabled(s, Read(n, ok))
    requires !Next(s, Read(n, ok)).calls[n].progress.Done?
    ensures Serial(Next(s, Read(n, ok)), m, n)
  {
    hide SerialStore, SerialResults, Turns;
    var t := Next(s, Read(n, ok));
    assert History(t.calls, m, n) == History(s.calls, m, n);
  }

  lemma IssueKeepsSerial(s: Log, job: Job, m: nat, n: nat)
    requires Serial(s, m, n)
    ensures Serial(Next(s, Issue(job)), m, n)
  {
    hide SerialStore, SerialResults, Turns;
    var t := Next(s, Issue(job));
    assert History(t.calls, m, n) == History(s.calls, m, n);
  }

  lemma ClearKeepsSerial(s: Log, m: nat, n: nat)
    requires Serial(s, m, n) && NothingHeld(s)
    ensures Serial(Next(s, Clear), n, n)
  {
    var t := Next(s, Clear);
    assert History(t.calls, n, n) == [];
    assert Turns([]) == [];
  }

  lemma StepIssues(s: Log, e: Event)
    requires Enabled(s, e)
    ensures JobsIn(Next(s, e).calls) == JobsIn(s.calls) + if e.Issue? then [e.job] else []
  {
  }

  lemma CallKeepsSerial(s: Log, e: Event, m: nat, n: nat) returns (n': nat)
    requires Serial(s, m, n) && n < |s.calls| && Enabled(s, e) && (e.Read? || e.Write?) && e.id == n
    ensures Serial(Next(s, e), m, n')
  {
    hide Serial;
    n' := n;
    if Next(s, e).calls[n].progress.Done? {
      StepEndsOne(s, e, m, n);
      n' := n + 1;
    } else {
      ReadKeepsSerial(s, e.ok, m, n);
    }
  }

  lemma StepKeepsSerial(s: Log, e: Event, m: nat, n: nat) returns (m': nat, n': nat)
    requires Serial(s, m, n) && Enabled(s, e) && (e.Clear? ==> NothingHeld(s))
    ensures Serial(Next(s, e), m', n') && (!e.Clear? ==> m' == m)
  {
    assert Linked(s) && InOrder(s, n);
    hide Serial, Linked, InOrder, NothingHeld, Next;
    m', n' := m, n;
    if e.Issue? {
      IssueKeepsSerial(s, e.job, m, n);
    } else if e.Clear? {
      ClearKeepsSerial(s, m, n);
      m' := n;
    } else {
      LinksTakeTurns(s, e, n);
      n' := CallKeepsSerial(s, e, m, n);
    }
  }

  /** Any interleaving of concurrent appends and drains, whatever storage does, has the outcome, in storage
      and in every result, of running them one at a time in the order they were issued: all of them, or,
      when the log is cleared while no call holds entries it has read, those ended since. */
  lemma {:induction false} InterleavingIsSerial(states: seq<Log>, events: seq<Event>) returns (m: nat, n: nat)
    requires IsRun(states, events)
    requires forall i :: 0 <= i < |events| && events[i].Clear? ==> NothingHeld(states[i])
    ensures Serial(states[|events|], m, n) && JobsIn(states[|events|].calls) == Issued(events)
    ensures (forall i :: 0 <= i < |events| ==> !events[i].Clear?) ==> m == 0
    decreases |events|
  {
    if events == [] {
      m, n := 0, 0;
    } else {
      var k := |events| - 1;
      m, n := InterleavingIsSerial(states[..k + 1], events[..k]);
      hide Serial, Next, NothingHeld;
      m, n := StepKeepsSerial(states[k], events[k], m, n);
      StepIssues(states[k], events[k]);
    }
  }

  // ---- what a clear leaves behind ----

  ghost predicate Reaches(s: Log, events: seq<Event>, t: Log)
    decreases |events|
  {
    if events == [] then s == t else Enabled(s, events[0]) && Reaches(Next(s, events[0]), events[1..], t)
  }

  /** The calls not ended yet append none of the given entries. */
  ghost predicate OthersAppend(calls: seq<Call>, was: seq<Entry>) {
    forall i :: 0 <= i < |calls| && !calls[i].progress.Done? && calls[i].job.Append? ==> calls[i].job.entry !in was
  }

  ghost predicate OthersIssued(events: seq<Event>, was: seq<Entry>) {
    forall i :: 0 <= i < |events| && events[i].Issue? && events[i].job.Append? ==> events[i].job.entry !in was
  }

  /** Call i has ended after s, handing out the entry. */
  ghost predicate HandsOut(s: Log, t: Log, i: int, e: Entry) {
    && 0 <= i < |t.calls| && t.calls[i].progress.Done? && (i < |s.calls| ==> !s.calls[i].progress.Done?)
    && e in t.calls[i].progress.end.result
  }

  /** An entry of `was` is stored again, or handed out by a call that had not ended in s. */
  ghost predicate Resurfaces(s: Log, was: seq<Entry>, t: Log) {
    exists e :: e in was && (e in t.store || exists i :: HandsOut(s, t, i, e))
  }

  /** No entry of `was` is stored, held by a call at work, or about to be appended. */
  ghost predicate Gone(s: Log, was: seq<Entry>) {
    && (forall e :: e in was ==> e !in s.store)
    && (forall i :: 0 <= i < |s.calls| && s.calls[i].progress.HasRead? ==>
          forall e :: e in was ==> e !in s.calls[i].progress.existing)
    && OthersAppend(s.calls, was)
  }

  /** A call that ends hands out nothing of `was`. */
  ghost predicate EndsClean(s: Log, t: Log, was: seq<Entry>) {
    && |s.calls| <= |t.calls|
    && (forall i :: 0 <= i < |s.calls| && s.calls[i].progress.Done? ==> t.calls[i] == s.calls[i])
    && (forall i, e :: e in was ==> !HandsOut(s, t, i, e))
  }

  lemma StepStaysGone(s: Log, e: Event, was: seq<Entry>)
    requires Gone(s, was) && Enabled(s, e) && OthersIssued([e], was)
    ensures Gone(Next(s, e), was) && EndsClean(s, Next(s, e), was)
  {
    assert [e][0] == e;
  }

  lemma {:induction false} StaysGone(s: Log, events: seq<Event>, t: Log, was: seq<Entry>)
    requires Gone(s, was) && Reaches(s, events, t) && OthersIssued(events, was)
    ensures Gone(t, was) && EndsClean(s, t, was)
    decreases |events|
  {
    if events != [] {
      var s1 := Next(s, events[0]);
      assert OthersIssued([events[0]], was) by { assert [events[0]][0] == events[0]; }
      StepStaysGone(s, events[0], was);
      assert OthersIssued(events[1..], was) by {
        assert forall i :: 0 <= i < |events[1..]| ==> events[1..][i] == events[i + 1];
      }
      hide Gone, Next;
      StaysGone(s1, events[1..], t, was);
      EndsCleanTwice(s, s1, t, was);
    }
  }

  lemma EndsCleanTwice(s: Log, s1: Log, t: Log, was: seq<Entry>)
    requires EndsClean(s, s1, was) && EndsClean(s1, t, was)
    ensures EndsClean(s, t, was)
  {
    forall i, e | e in was
      ensures !HandsOut(s, t, i, e)
    {
      assert !HandsOut(s, s1, i, e) && !HandsOut(s1, t, i, e);
    }
  }

  /** After a clear, entries of the old log can come back, in storage or in the hands of a drain, exactly
      when a call at work has read them. */
  lemma ClearedReturnIff(s: Log, m: nat, n: nat)
    requires Serial(s, m, n) && OthersAppend(s.calls, s.store)
    ensures (exists events, t ::
               Reaches(Next(s, Clear), events, t) && OthersIssued(events, s.store) && Resurfaces(s, s.store, t))
            <==> !NothingHeld(s)
  {
    var c := Next(s, Clear);
    if NothingHeld(s) {
      assert Gone(c, s.store);
      forall events, t | Reaches(c, events, t) && OthersIssued(events, s.store)
        ensures !Resurfaces(s, s.store, t)
      {
        StaysGone(c, events, t, s.store);
        assert forall i, e :: HandsOut(s, t, i, e) == HandsOut(c, t, i, e);
      }
    } else {
      HeldReturns(s, m, n);
    }
  }

  lemma WriteReturns(s: Log, n: nat)
    requires n < |s.calls| && s.calls[n].progress.HasRead? && s.calls[n].progress.existing == s.store != []
    ensures Resurfaces(s, s.store, Next(Next(s, Clear), Write(n, true)))
  {
    var t, e := Next(Next(s, Clear), Write(n, true)), s.store[|s.store| - 1];
    if s.calls[n].job.Append? {
      assert t.store == Trim(s.store + [s.calls[n].job.entry]);
      assert t.store[|t.store| - 2] == e;
      assert e in s.store && e in t.store;
    } else {
      assert t.calls[n].progress.end.result == s.store;
      assert e in s.store && HandsOut(s, t, n, e);
    }
  }

  lemma HeldReturns(s: Log, m: nat, n: nat)
    requires Serial(s, m, n) && !NothingHeld(s)
    ensures exists events, t ::
              Reaches(Next(s, Clear), events, t) && OthersIssued(events, s.store) && Resurfaces(s, s.store, t)
  {
    var i :| 0 <= i < |s.calls| && s.calls[i].progress.HasRead? && s.calls[i].progress.existing != [];
    assert i == n && s.calls[n].progress.existing == s.store;
    hide Serial, NothingHeld, Resurfaces;
    WriteReturns(s, n);
    var events := [Write(n, true)];
    var t := Next(Next(s, Clear), events[0]);
    assert events[1..] == [] && Reaches(t, [], t);
    assert Reaches(Next(s, Clear), events, t) && OthersIssued(events, s.store);
  }

  // ---- what the serial runs mean while storage works ----

  ghost predicate StorageWorks(turns: seq<Turn>) {
    forall i :: 0 <= i < |turns| ==> turns[i].readOk && turns[i].writeOk
  }

  /** Entries appended since the last drain, in order. */
  function SinceDrain(turns: seq<Turn>): (r: seq<Entry>) {
    if turns == [] then []
    else match turns[|turns| - 1].job
      case Append(x) => SinceDrain(turns[..|turns| - 1]) + [x]
      case Drain => []
  }

  /** Everything the turns append, in order. */
  function Appended(turns: seq<Turn>): (r: seq<Entry>) {
    if turns == [] then []
    else match turns[|turns| - 1].job
      case Append(x) => Appended(turns[..|turns| - 1]) + [x]
      case Drain => Appended(turns[..|turns| - 1])
  }

  /** Everything the drains returned, in order. */
  function Drained(finished: seq<Finished>): (r: seq<Entry>) {
    if finished == [] then [] else Drained(finished[..|finished| - 1]) + finished[|finished| - 1].result
  }

  lemma TrimAgain(s: seq<Entry>, x: Entry)
    ensures Trim(Trim(s) + [x]) == Trim(s + [x])
  {
  }

  /** The stored log is the last MAX_ENTRIES entries appended since the last drain. */
  lemma {:induction false} StoreIsTrimmedTail(turns: seq<Turn>)
    requires StorageWorks(turns)
    ensures SerialStore(turns) == Trim(SinceDrain(turns))
  {
    if turns != [] {
      var prev := turns[..|turns| - 1];
      StoreIsTrimmedTail(prev);
      if turns[|turns| - 1].job.Append? {
        TrimAgain(SinceDrain(prev), turns[|turns| - 1].job.entry);
      }
    }
  }

  /** Every drain returns exactly the last MAX_ENTRIES entries appended since the drain before it. */
  lemma DrainReturnsTrimmedTail(finished: seq<Finished>, k: nat)
    requires SerialResults(finished) && StorageWorks(Turns(finished))
    requires k < |finished| && finished[k].turn.job.Drain?
    ensures finished[k].result == Trim(SinceDrain(Turns(finished)[..k]))
  {
    StoreIsTrimmedTail(Turns(finished)[..k]);
  }

  /** No stretch between drains exceeds the cap. */
  ghost predicate BelowCap(turns: seq<Turn>) {
    forall k :: 0 <= k <= |turns| ==> |SinceDrain(turns[..k])| <= MAX_ENTRIES
  }

  /** Below the cap nothing is lost, repeated or reordered: the drained entries followed by the
      stored ones are all the appended entries in append order. */
  lemma {:induction false} NothingLostBelowCap(finished: seq<Finished>)
    requires SerialResults(finished) && StorageWorks(Turns(finished)) && BelowCap(Turns(finished))
    ensures Drained(finished) + SerialStore(Turns(finished)) == Appended(Turns(finished))
  {
    if finished != [] {
      var n := |finished| - 1;
      var prev, turns := finished[..n], Turns(finished);
      assert Turns(prev) == turns[..n];
      PrefixResults(finished, n);
      PrefixBelowCap(finished, n);
      NothingLostBelowCap(prev);
      StoreIsTrimmedTail(turns[..n]);
      assert turns[..n][..n] == turns[..n];
      assert |SinceDrain(turns[..n])| <= MAX_ENTRIES;
      assert turns[..n + 1] == turns;
      assert |SinceDrain(turns)| <= MAX_ENTRIES;
      StoreIsTrimmedTail(turns);
      StepConserves(finished, n);
    }
  }

  lemma TurnsPrefix(finished: seq<Finished>, n: nat, k: nat)
    requires k <= n <= |finished|
    ensures Turns(finished[..n])[..k] == Turns(finished)[..k]
  {
  }

  lemma PrefixResults(finished: seq<Finished>, n: nat)
    requires SerialResults(finished) && n <= |finished|
    ensures SerialResults(finished[..n])
  {
    hide SerialStore, Alone;
    forall k | 0 <= k < n
      ensures finished[k].result == Alone(SerialStore(Turns(finished[..n])[..k]), finished[k].turn).1
    {
      TurnsPrefix(finished, n, k);
    }
  }

  lemma PrefixBelowCap(finished: seq<Finished>, n: nat)
    requires BelowCap(Turns(finished)) && n <= |finished|
    ensures BelowCap(Turns(finished[..n]))
  {
    hide SinceDrain;
    forall k | 0 <= k <= n
      ensures |SinceDrain(Turns(finished[..n])[..k])| <= MAX_ENTRIES
    {
      TurnsPrefix(finished, n, k);
    }
  }

  lemma {:induction false} StepConserves(finished: seq<Finished>, n: nat)
    requires |finished| == n + 1 && SerialResults(finished) && StorageWorks(Turns(finished))
    requires SerialStore(Turns(finished)[..n]) == SinceDrain(Turns(finished)[..n])
    requires Drained(finished[..n]) + SinceDrain(Turns(finished)[..n]) == Appended(Turns(finished)[..n])
    ensures Drained(finished) + SinceDrain(Turns(finished)) == Appended(Turns(finished))
  {
    var f, turns := finished[n], Turns(finished);
    assert f.turn == turns[n] && f.turn.readOk && f.turn.writeOk;
    assert f.result == Alone(SerialStore(turns[..n]), f.turn).1;
    var drained, since := Drained(finished[..n]), SinceDrain(turns[..n]);
    assert f.result == if f.turn.job.Drain? then since else [];
    assert Drained(finished) == drained + f.result;
    match f.turn.job
    case Append(x) =>
      Regroup(drained, since, x);
      assert SinceDrain(turns) == since + [x] && Appended(turns) == Appended(turns[..n]) + [x];
    case Drain =>
      assert SinceDrain(turns) == [] && Appended(turns) == Appended(turns[..n]);
  }

  lemma Regroup(a: seq<Entry>, b: seq<Entry>, x: Entry)
    ensures (a + []) + (b + [x]) == (a + b) + [x]
  {
  }

  // ---- storage faults, and putting a drained log back ----

  /** A failed read makes the append overwrite the log: of an append whose write succeeds, the earlier
      entries survive exactly when its read succeeded or there were none. */
  lemma AppendKeepsLogIff(store: seq<Entry>, x: Entry, readOk: bool)
    ensures Alone(store, Turn(Append(x), readOk, true)).0 == Trim(store + [x]) <==> readOk || store == []
  {
  }

  /** The entries that storage faults leave of the turns, before trimming: a failed write loses its entry, a
      failed read under a successful write loses all earlier ones, and a drain empties the log only when
      both of its storage calls succeed. */
  function Survivors(turns: seq<Turn>): (r: seq<Entry>) {
    if turns == [] then []
    else
      var prev, t := Survivors(turns[..|turns| - 1]), turns[|turns| - 1];
      match t.job
      case Append(x) => if !t.writeOk then prev else if t.readOk then prev + [x] else [x]
      case Drain => if t.readOk && t.writeOk then [] else prev
  }

  /** Whatever storage does, the stored log is the last MAX_ENTRIES of the survivors. */
  lemma {:induction false} StoreIsTrimmedSurvivors(turns: seq<Turn>)
    ensures SerialStore(turns) == Trim(Survivors(turns))
  {
    if turns != [] {
      var prev, t := turns[..|turns| - 1], turns[|turns| - 1];
      StoreIsTrimmedSurvivors(prev);
      if t.job.Append? {
        TrimAgain(Survivors(prev), t.job.entry);
      }
    }
  }

  const DRAIN := Turn(Drain, true, true)

  lemma {:induction false} SurvivorsSinceDrain(turns: seq<Turn>, later: seq<Turn>)
    ensures Survivors(turns + [DRAIN] + later) == Survivors(later)
    decreases |later|
  {
    var all := turns + [DRAIN] + later;
    if later == [] {
      assert all == turns + [DRAIN];
      assert all[..|all| - 1] == turns;
    } else {
      SurvivorsSinceDrain(turns, later[..|later| - 1]);
      assert all[..|all| - 1] == turns + [DRAIN] + later[..|later| - 1];
    }
  }

  ghost predicate AllAppends(turns: seq<Turn>) {
    forall i :: 0 <= i < |turns| ==> turns[i].job.Append?
  }

  function EntriesOf(turns: seq<Turn>): (r: seq<Entry>)
    requires AllAppends(turns)
    ensures |r| == |turns| && forall i :: 0 <= i < |r| ==> r[i] == turns[i].job.entry
  {
    seq(|turns|, i requires 0 <= i < |turns| => turns[i].job.entry)
  }

  /** Every write succeeds, and every read but that of the first append, which has nothing to lose. */
  ghost predicate NoLoss(turns: seq<Turn>) {
    forall i :: 0 <= i < |turns| ==> turns[i].writeOk && (i > 0 ==> turns[i].readOk)
  }

  lemma {:induction false} SurvivorsBounded(turns: seq<Turn>)
    requires AllAppends(turns)
    ensures |Survivors(turns)| <= |turns|
    ensures |Survivors(turns)| == |turns| <==> NoLoss(turns)
    ensures NoLoss(turns) ==> Survivors(turns) == EntriesOf(turns)
  {
    if turns != [] {
      var prev := turns[..|turns| - 1];
      SurvivorsBounded(prev);
      assert NoLoss(turns) ==> NoLoss(prev);
    }
  }

  /** A drained log is put back entry by entry, between other appends, when a blocker shows up late: `back`
      is all that is appended after the drain. Nothing is lost before trimming exactly when every write
      succeeds and every read but the first; then exactly the first entries beyond the cap go, and below
      the cap none does. */
  lemma PutBackDropsExactly(turns: seq<Turn>, back: seq<Turn>)
    requires AllAppends(back)
    ensures var store := SerialStore(turns + [DRAIN] + back);
            && store == Trim(Survivors(back))
            && (|Survivors(back)| == |back| <==> NoLoss(back))
            && (NoLoss(back) ==> store == Trim(EntriesOf(back)))
            && (NoLoss(back) && |back| <= MAX_ENTRIES ==> store == EntriesOf(back))
  {
    StoreIsTrimmedSurvivors(turns + [DRAIN] + back);
    SurvivorsSinceDrain(turns, back);
    SurvivorsBounded(back);
  }

  /** How many entries are put back before anything else is appended. */
  function PutBackFirst(at: seq<nat>): (n: nat)
    ensures n <= |at| && (forall i :: 0 <= i < n ==> at[i] == i) && (n < |at| ==> at[n] != n)
  {
    if at == [] then 0
    else
      var n := PutBackFirst(at[..|at| - 1]);
      if n == |at| - 1 && at[n] == n then n + 1 else n
  }

  lemma {:induction false} PlacesGrow(at: seq<nat>, i: nat)
    requires (forall i, j :: 0 <= i < j < |at| ==> at[i] < at[j]) && i < |at|
    ensures at[i] >= i
  {
    if i > 0 { PlacesGrow(at, i - 1); }
  }

  /** The place right after the first stretch put back holds another entry. */
  lemma OtherAfterPutBack(at: seq<nat>)
    requires forall i, j :: 0 <= i < j < |at| ==> at[i] < at[j]
    ensures PutBackFirst(at) !in at
  {
    var n := PutBackFirst(at);
    forall i | 0 <= i < |at| ensures at[i] != n {
      if i >= n { PlacesGrow(at, n); }
    }
  }

  /** Of a put-back beyond the cap only drained entries are trimmed exactly when the entries put back
      before anything else is appended cover everything that has to go. */
  lemma OnlyDrainedTrimmedIff(merged: seq<Entry>, at: seq<nat>)
    requires forall i :: 0 <= i < |at| ==> at[i] < |merged|
    requires forall i, j :: 0 <= i < j < |at| ==> at[i] < at[j]
    ensures var gone := |merged| - |Trim(merged)|;
            (forall k :: 0 <= k < gone ==> k in at) <==> gone <= PutBackFirst(at)
  {
    OtherAfterPutBack(at);
    var gone, n := |merged| - |Trim(merged)|, PutBackFirst(at);
    if gone <= n {
      forall k | 0 <= k < gone ensures k in at { assert at[k] == k; }
    }
  }

  predicate Before(at: seq<nat>, i: nat, j: nat) { if (i in at) == (j in at) then i < j else i in at }

  /** Drained entries are older than the ones recorded meanwhile, and each kind is in order of time. */
  ghost predicate Aged(merged: seq<Entry>, at: seq<nat>) {
    forall i, j :: 0 <= i < |merged| && 0 <= j < |merged| && Before(at, i, j) ==>
                     merged[i].timestamp < merged[j].timestamp
  }

  /** The promise that only the oldest entries are trimmed holds of a put-back exactly when what has to go
      was put back before anything else was appended, or all of the drained entries go. */
  lemma OnlyOldestTrimmedIff(merged: seq<Entry>, at: seq<nat>)
    requires forall i :: 0 <= i < |at| ==> at[i] < |merged|
    requires forall i, j :: 0 <= i < j < |at| ==> at[i] < at[j]
    requires Aged(merged, at)
    ensures var gone := |merged| - |Trim(merged)|;
            (forall i, j :: 0 <= i < gone <= j < |merged| ==> merged[i].timestamp < merged[j].timestamp) <==>
            gone <= PutBackFirst(at) || forall i :: 0 <= i < |at| ==> at[i] < gone
  {
    OtherAfterPutBack(at);
    var gone, n := |merged| - |Trim(merged)|, PutBackFirst(at);
    if forall i :: 0 <= i < |at| ==> at[i] < gone {
      forall i, j | 0 <= i < gone <= j < |merged| ensures merged[i].timestamp < merged[j].timestamp {
        assert Before(at, i, j);
      }
    } else if gone <= n {
      forall i, j | 0 <= i < gone <= j < |merged| ensures merged[i].timestamp < merged[j].timestamp {
        assert at[i] == i;
        assert Before(at, i, j);
      }
    } else if i :| 0 <= i < |at| && gone <= at[i] {
      assert at[i] in at && Before(at, at[i], n);
      assert merged[at[i]].timestamp < merged[n].timestamp;
    }
  }

  /** Trimming is by place in the log, not by time: a fight recorded between the drain of a full log
      and its being put back is the one that is trimmed, although it is the newest. */
  lemma NewestIsTrimmed(turns: seq<Turn>, back: seq<Turn>, newest: Entry)
    requires AllAppends(back) && NoLoss(back) && |back| == MAX_ENTRIES + 1 && back[0].job.entry == newest
    requires forall i :: 0 < i < |back| ==> back[i].job.entry.timestamp < newest.timestamp
    ensures SerialStore(turns + [DRAIN] + back) == EntriesOf(back)[1..]
  {
    PutBackDropsExactly(turns, back);
  }
}
