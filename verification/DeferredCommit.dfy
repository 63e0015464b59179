/** A commit deferred until the app is active: a state listener and a zero-delay timer race to run it,
    and the caller may cancel it. */
module DeferredCommit {

  /** Armed timer and listener, the shared guard, and how often the commit has run. */
  datatype Deferral = Deferral(fired: bool, timer: bool, listening: bool, commits: nat)

  datatype Event =
    | StateChanges(active: bool)
    | TimerFires(active: bool)   // with the app state read at that moment
    | Cancel

  const ARMED := Deferral(false, true, true, 0)

  function Next(s: Deferral, e: Event): (r: Deferral) {
    match e
    case StateChanges(active) =>
      if s.listening && active && !s.fired then Deferral(true, false, false, s.commits + 1) else s
    case TimerFires(active) =>
      if !s.timer then s
      else if !s.fired && active then Deferral(true, false, false, s.commits + 1)
      else s.(timer := false)
    case Cancel => if s.fired then s else Deferral(true, false, false, s.commits)
  }

  function Run(s: Deferral, events: seq<Event>): (r: Deferral)
    decreases |events|
  {
    if events == [] then s else Run(Next(s, events[0]), events[1..])
  }

  class Commit {
    var fired: bool
    var timer: bool
    var listening: bool
    var commits: nat

    function State(): (r: Deferral)
      reads this
    {
      Deferral(fired, timer, listening, commits)
    }

    constructor ()
      ensures State() == ARMED
    {
      fired, timer, listening, commits := false, true, true, 0;
    }

    method OnStateChange(active: bool)
      modifies this
      ensures State() == Next(old(State()), StateChanges(active))
    {
      if listening && active && !fired {
        fired := true;
        timer, listening := false, false;
        commits := commits + 1;
      }
    }

    method OnTimer(active: bool)
      modifies this
      ensures State() == Next(old(State()), TimerFires(active))
    {
      if timer {
        timer := false;
        if !fired && active {
          fired, listening := true, false;
          commits := commits + 1;
        }
      }
    }

    method CancelCommit()
      modifies this
      ensures State() == Next(old(State()), Cancel)
    {
      if !fired {
        fired := true;
        timer, listening := false, false;
      }
    }
  }

  /** Whether the first thing that settles the commit is the app being active rather than a cancel. */
  predicate ActiveFirst(events: seq<Event>, timer: bool) {
    events != [] &&
    match events[0]
    case StateChanges(active) => active || ActiveFirst(events[1..], timer)
    case TimerFires(active) => (timer && active) || ActiveFirst(events[1..], false)
    case Cancel => false
  }

  /** Once settled, nothing happens any more. */
  lemma {:induction false} SettledStays(s: Deferral, events: seq<Event>)
    requires s.fired && !s.timer && !s.listening
    ensures Run(s, events) == s
  {
    if events != [] {
      SettledStays(Next(s, events[0]), events[1..]);
    }
  }

  lemma {:induction false} RunsFrom(s: Deferral, events: seq<Event>)
    requires !s.fired && s.listening
    ensures var t := Run(s, events);
            && t.commits == s.commits + (if ActiveFirst(events, s.timer) then 1 else 0)
            && (t.fired ==> !t.timer && !t.listening)
    decreases |events|
  {
    if events != [] {
      var t := Next(s, events[0]);
      if t.fired {
        SettledStays(t, events[1..]);
      } else {
        RunsFrom(t, events[1..]);
      }
    }
  }

  /** Over any events the commit runs exactly once if the app is seen active before a cancel, and never
      otherwise; once it has run or is cancelled, neither timer nor listener is left behind. */
  lemma CommitsOnceIff(events: seq<Event>)
    ensures Run(ARMED, events).commits == if ActiveFirst(events, true) then 1 else 0
    ensures Run(ARMED, events).fired ==> !Run(ARMED, events).timer && !Run(ARMED, events).listening
  {
    RunsFrom(ARMED, events);
  }

  /** In particular nothing that happens after a cancel makes it run. */
  lemma CancelIsFinal(events: seq<Event>, after: seq<Event>)
    ensures Run(ARMED, events + [Cancel] + after).commits == Run(ARMED, events).commits
  {
    RunsFrom(ARMED, events);
    RunAppend(ARMED, events, [Cancel] + after);
    assert events + [Cancel] + after == events + ([Cancel] + after);
    var t := Run(ARMED, events);
    assert ([Cancel] + after)[1..] == after;
    SettledStays(Next(t, Cancel), after);
  }

  lemma {:induction false} RunAppend(s: Deferral, a: seq<Event>, b: seq<Event>)
    ensures Run(s, a + b) == Run(Run(s, a), b)
    decreases |a|
  {
    if a == [] {
      assert a + b == b;
    } else {
      assert (a + b)[1..] == a[1..] + b;
      RunAppend(Next(s, a[0]), a[1..], b);
    }
  }
}
