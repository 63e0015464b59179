/** The cloud write client: strictly increasing timestamps, the chain of pending writes, and the
    server rule that accepts only newer records. */
module CloudSync {
  import opened Basics

  /** One issued write of a player record. */
  datatype Write = Write(data: nat, timestamp: int)

  /** The pendingWrite promise: each save chains its own write behind all earlier ones. */
  datatype Promise = Resolved | Then(prev: Promise, id: nat)

  /** The promise has resolved once every write on its chain has settled. */
  predicate HasResolved(p: Promise, inFlight: set<nat>) {
    p.Resolved? || (HasResolved(p.prev, inFlight) && p.id !in inFlight)
  }

  ghost predicate Chains(p: Promise, n: nat)
    decreases p
  {
    if n == 0 then p.Resolved? else p.Then? && p.id == n - 1 && Chains(p.prev, n - 1)
  }

  /** A drain that sees the promise resolved has seen every write issued so far settle. */
  lemma {:induction false} ResolvedMeansAllSettled(p: Promise, n: nat, inFlight: set<nat>)
    requires Chains(p, n)
    ensures HasResolved(p, inFlight) <==> forall id: nat :: id < n ==> id !in inFlight
    decreases n
  {
    if n > 0 {
      ResolvedMeansAllSettled(p.prev, n - 1, inFlight);
    }
  }

  ghost predicate Increasing(ws: seq<Write>) {
    forall i, j :: 0 <= i < j < |ws| ==> ws[i].timestamp < ws[j].timestamp
  }

  /** The client service of one session. */
  class CloudSyncService {
    var lastSyncTimestamp: int
    var writesSuspended: bool
    var pendingWrite: Promise
    var pendingWriteCount: int
    // identities of the writes: how many were issued, and which have not settled
    var writes: nat
    var inFlight: set<nat>
    ghost var issued: seq<Write>

    ghost predicate Valid()
      reads this
    {
      && Increasing(issued) && writes == |issued|
      && (issued != [] ==> issued[|issued| - 1].timestamp == lastSyncTimestamp)
      && (issued == [] ==> lastSyncTimestamp == 0)
      && Chains(pendingWrite, |issued|)
      && (forall id :: id in inFlight ==> id < |issued|)
      && pendingWriteCount == |inFlight|
    }

    constructor ()
      ensures Valid() && issued == [] && !writesSuspended && inFlight == {}
    {
      lastSyncTimestamp := 0;
      writesSuspended := false;
      pendingWrite := Resolved;
      pendingWriteCount := 0;
      writes := 0;
      inFlight := {};
      issued := [];
    }

    method SuspendWrites()
      requires Valid()
      modifies this`writesSuspended
      ensures Valid() && writesSuspended
    {
      writesSuspended := true;
    }

    method ResumeWrites()
      requires Valid()
      modifies this`writesSuspended
      ensures Valid() && !writesSuspended
    {
      writesSuspended := false;
    }

    /** Issue a write, unless suspended or signed out. */
    method SavePlayerData(data: nat, lastSavedAt: int, signedIn: bool) returns (w: Option<Write>)
      requires Valid()
      modifies this`lastSyncTimestamp, this`pendingWrite, this`pendingWriteCount, this`writes, this`inFlight,
               this`issued
      ensures Valid()
      ensures w.None? <==> old(writesSuspended) || !signedIn
      ensures w.None? ==>
                && issued == old(issued) && inFlight == old(inFlight)
                && lastSyncTimestamp == old(lastSyncTimestamp)
      ensures w.Some? ==> issued == old(issued) + [w.value] && inFlight == old(inFlight) + {old(|issued|)}
      ensures w.Some? ==> w.value.data == data && lastSavedAt <= w.value.timestamp
      ensures w.Some? ==> forall v :: v in old(issued) ==> v.timestamp < w.value.timestamp
    {
      if writesSuspended || !signedIn {
        return None;
      }
      var syncTimestamp := Max(lastSavedAt, lastSyncTimestamp + 1);
      lastSyncTimestamp := syncTimestamp;
      pendingWriteCount := pendingWriteCount + 1;
      w := Some(Write(data, syncTimestamp));
      inFlight := inFlight + {writes};
      pendingWrite := Then(pendingWrite, writes);
      writes := writes + 1;
      issued := issued + [w.value];
    }

    /** A write in flight settles, acknowledged or rejected. */
    method Settle(id: nat)
      requires Valid() && id in inFlight
      modifies this`inFlight, this`pendingWriteCount
      ensures Valid() && inFlight == old(inFlight) - {id}
    {
      inFlight := inFlight - {id};
      pendingWriteCount := Max(0, pendingWriteCount - 1);
    }

    /** Whether a drain that waits for the pending write would return now without its timeout. */
    method Drained() returns (done: bool)
      requires Valid()
      ensures done <==> inFlight == {}
    {
      done := HasResolved(pendingWrite, inFlight);
      ResolvedMeansAllSettled(pendingWrite, |issued|, inFlight);
    }
  }

  // ---- the server ----

  /** The update rule of the rules file: create freely, update only with a strictly greater timestamp. */
  function Deliver(record: Option<Write>, w: Write): (r: Option<Write>) {
    if record.None? || w.timestamp > record.value.timestamp then Some(w) else record
  }

  function DeliverAll(record: Option<Write>, ws: seq<Write>): (r: Option<Write>) {
    if ws == [] then record else Deliver(DeliverAll(record, ws[..|ws| - 1]), ws[|ws| - 1])
  }

  /** Whatever the delivery order, the record left is the newest of what was there and what arrived. */
  lemma {:induction false} NewestSurvives(record: Option<Write>, ws: seq<Write>)
    ensures DeliverAll(record, ws).None? <==> record.None? && ws == []
    ensures DeliverAll(record, ws).Some? ==> DeliverAll(record, ws) == record || DeliverAll(record, ws).value in ws
    ensures forall w :: w in ws ==> w.timestamp <= DeliverAll(record, ws).value.timestamp
    ensures record.Some? ==> record.value.timestamp <= DeliverAll(record, ws).value.timestamp
  {
    if ws != [] {
      var prev := ws[..|ws| - 1];
      NewestSurvives(record, prev);
      assert ws == prev + [ws[|ws| - 1]];
    }
  }

  /** Every order of delivering all writes of a session ends with the last issued one, provided it is
      newer than the record that was there. */
  lemma LastIssuedWins(record: Option<Write>, issued: seq<Write>, delivered: seq<Write>)
    requires Increasing(issued) && issued != [] && multiset(delivered) == multiset(issued)
    requires record.Some? ==> record.value.timestamp < issued[|issued| - 1].timestamp
    ensures DeliverAll(record, delivered) == Some(issued[|issued| - 1])
  {
    var last := issued[|issued| - 1];
    assert last in multiset(delivered);
    assert last in delivered;
    NewestSurvives(record, delivered);
    var final := DeliverAll(record, delivered);
    assert final.Some?;
    if final != record || record.None? {
      assert final.value in multiset(issued);
      assert final.value in issued;
    }
  }

  /** The proviso is exact: when the record there is as new as the last issued write, it stays. */
  lemma LastIssuedWinsIff(record: Option<Write>, issued: seq<Write>, delivered: seq<Write>)
    requires Increasing(issued) && issued != [] && multiset(delivered) == multiset(issued)
    requires record != Some(issued[|issued| - 1])
    ensures DeliverAll(record, delivered) == Some(issued[|issued| - 1])
            <==> (record.None? || record.value.timestamp < issued[|issued| - 1].timestamp)
  {
    var last := issued[|issued| - 1];
    if record.None? || record.value.timestamp < last.timestamp {
      LastIssuedWins(record, issued, delivered);
    } else {
      forall w | w in delivered
        ensures w.timestamp <= last.timestamp
      {
        assert w in multiset(delivered);
        assert w in issued;
      }
      OlderNeverReplaces(record.value, delivered, last.timestamp);
    }
  }

  lemma {:induction false} OlderNeverReplaces(record: Write, ws: seq<Write>, bound: int)
    requires bound <= record.timestamp
    requires forall w :: w in ws ==> w.timestamp <= bound
    ensures DeliverAll(Some(record), ws) == Some(record)
  {
    if ws != [] {
      OlderNeverReplaces(record, ws[..|ws| - 1], bound);
      assert ws[|ws| - 1] in ws;
    }
  }
}
