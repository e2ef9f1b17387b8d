/** Properties of the audit-trail model that relate several calls: dense id
    allocation over a history of writes, append-only storage, the write-then-read
    round trip, and the scenarios of the contract's unit tests.
 */
module AuditTrailProperties {
  import opened AuditTrail

  /** Applies a history of writes in order, collecting each call's result. */
  function Replay(log: Log, ws: seq<WriteRequest>): (out: (Log, seq<Result<nat>>))
    ensures |out.1| == |ws|
    ensures out.0.admin == log.admin
    decreases |ws|
  {
    if ws == [] then (log, [])
    else
      var (next, r) := Append(log, ws[0]);
      var (last, rs) := Replay(next, ws[1..]);
      (last, [r] + rs)
  }

  /** The ids returned by the successful calls, in call order. */
  function OkIds(rs: seq<Result<nat>>): (ids: seq<nat>)
    ensures |ids| <= |rs|
  {
    if rs == [] then []
    else if rs[0].Ok? then [rs[0].value] + OkIds(rs[1..])
    else OkIds(rs[1..])
  }

  /** The consecutive integers lo, lo+1, ..., hi-1. */
  function Range(lo: nat, hi: nat): (s: seq<nat>)
    requires lo <= hi
    ensures |s| == hi - lo
    ensures forall i :: 0 <= i < |s| ==> s[i] == lo + i
    decreases hi - lo
  {
    if lo == hi then [] else [lo] + Range(lo + 1, hi)
  }

  /** The ids handed out by a history of writes are the next counter values, in
      order, with no gap and no repeat; the counter advances by exactly the
      number of successful writes. */
  lemma {:induction false} ReplayAllocatesDenseIds(log: Log, ws: seq<WriteRequest>)
    ensures Replay(log, ws).0.counter == log.counter + |OkIds(Replay(log, ws).1)|
    ensures OkIds(Replay(log, ws).1) == Range(log.counter, Replay(log, ws).0.counter)
    decreases |ws|
  {
    if ws != [] {
      var (next, r) := Append(log, ws[0]);
      var (last, rs) := Replay(next, ws[1..]);
      ReplayAllocatesDenseIds(next, ws[1..]);
      assert Replay(log, ws).1 == [r] + rs;
      assert ([r] + rs)[1..] == rs;
      if r.Ok? {
        assert OkIds([r] + rs) == [log.counter] + OkIds(rs);
        assert Range(log.counter, last.counter) == [log.counter] + Range(next.counter, last.counter);
      } else {
        assert OkIds([r] + rs) == OkIds(rs);
      }
    }
  }

  /** After a reset the successful writes receive ids 0, 1, 2, ... in call order. */
  lemma IdsFromResetStartAtZero(admin: Principal, ws: seq<WriteRequest>)
    ensures forall i :: 0 <= i < |OkIds(Replay(Log(admin, map[], 0), ws).1)| ==>
              OkIds(Replay(Log(admin, map[], 0), ws).1)[i] == i
  {
    ReplayAllocatesDenseIds(Log(admin, map[], 0), ws);
  }

  /** A history of writes keeps the log dense and never changes or removes an
      entry that was already stored. */
  lemma {:induction false} ReplayIsAppendOnly(log: Log, ws: seq<WriteRequest>)
    requires Dense(log.events, log.counter)
    ensures Dense(Replay(log, ws).0.events, Replay(log, ws).0.counter)
    ensures forall k :: k in log.events ==>
              k in Replay(log, ws).0.events && Replay(log, ws).0.events[k] == log.events[k]
    decreases |ws|
  {
    if ws != [] {
      var (next, r) := Append(log, ws[0]);
      ReplayIsAppendOnly(next, ws[1..]);
    }
  }

  /** Every event stored by a history of writes is returned verbatim to the
      administrator at the id its write returned, whatever was written after it. */
  lemma {:induction false} ReplayRoundTrip(log: Log, ws: seq<WriteRequest>, j: nat)
    requires Dense(log.events, log.counter)
    requires j < |ws|
    requires Replay(log, ws).1[j].Ok?
    ensures ValidEventType(ws[j].eventType)
    ensures Read(Replay(log, ws).0, Some(log.admin), Replay(log, ws).1[j].value) == Ok(EventOf(ws[j]))
    decreases |ws|
  {
    var (next, r) := Append(log, ws[0]);
    var (last, rs) := Replay(next, ws[1..]);
    assert Replay(log, ws).1 == [r] + rs;
    if j == 0 {
      ReplayIsAppendOnly(next, ws[1..]);
    } else {
      assert ws[1..][j - 1] == ws[j];
      ReplayRoundTrip(next, ws[1..], j - 1);
    }
  }

  /** Helper: a set of naturals that is exactly 0 .. n-1 has n elements. */
  lemma {:induction false} PrefixSetSize(keys: set<nat>, n: nat)
    requires forall k: nat :: k in keys <==> k < n
    ensures |keys| == n
    decreases n
  {
    if n > 0 {
      var smaller := keys - {n - 1};
      PrefixSetSize(smaller, n - 1);
    } else {
      assert keys == {};
    }
  }

  /** On a dense log the counter equals the number of stored events. */
  lemma CounterCountsEvents(log: Log)
    requires Dense(log.events, log.counter)
    ensures |log.events| == log.counter
  {
    PrefixSetSize(log.events.Keys, log.counter);
  }

  /** A refused write reveals nothing about its input: for a caller that may not
      write, every request returns the same outcome. */
  lemma UnauthorizedWriteIgnoresInput(log: Log, w1: WriteRequest, w2: WriteRequest)
    requires w1.env == w2.env
    requires !MayWrite(log.admin, w1.env)
    ensures Append(log, w1) == Append(log, w2) == (log, Err(ERR_UNAUTHORIZED))
  {
  }

  /** A read by a non-administrator reveals nothing about the store. */
  lemma NonAdminReadIgnoresStore(log1: Log, log2: Log, caller: Option<Principal>, id1: int, id2: int)
    requires log1.admin == log2.admin
    requires !IsAdmin(log1.admin, caller)
    ensures Read(log1, caller, id1) == Read(log2, caller, id2) == Err(ERR_UNAUTHORIZED)
  {
  }

  /** A successful write followed by an administrator read of the returned id
      yields the written event. */
  lemma WriteThenRead(log: Log, w: WriteRequest)
    requires Dense(log.events, log.counter)
    requires Append(log, w).1.Ok?
    ensures ValidEventType(w.eventType)
    ensures Read(Append(log, w).0, Some(log.admin), Append(log, w).1.value) == Ok(EventOf(w))
  {
  }

  const AdminId: Principal := "admin-principal"
  const ProviderId: Principal := "provider-principal"
  const BlockTime: int := 1617984000

  /** An allow-listed contract logs an event: id 0, stored as given. */
  method ScenarioLogFromAuthorizedContract() returns (r: Result<nat>, stored: Event)
    ensures r == Ok(0)
    ensures stored == Event("REGISTER_PATIENT", "PATIENT123", ProviderId, BlockTime, None)
  {
    var contract := new AuditTrailContract(AdminId);
    r := contract.LogEvent(None, Some(".patient-identity"), BlockTime,
                           Some("REGISTER_PATIENT"), "PATIENT123", ProviderId);
    assert 0 in contract.events;
    stored := contract.events[0];
  }

  /** An allow-listed contract logs an event with details: id 0, details kept. */
  method ScenarioLogWithDetails() returns (r: Result<nat>, stored: Event)
    ensures r == Ok(0)
    ensures stored.eventType == "GRANT_ACCESS"
    ensures stored.details == Some("Access granted for annual checkup")
  {
    var contract := new AuditTrailContract(AdminId);
    r := contract.LogEventWithDetails(None, Some(".record-access"), BlockTime,
                                      Some("GRANT_ACCESS"), "PATIENT123", ProviderId,
                                      "Access granted for annual checkup");
    assert 0 in contract.events;
    stored := contract.events[0];
  }

  /** A contract outside the allow-list is refused and nothing is stored. */
  method ScenarioLogFromUnauthorizedContract() returns (r: Result<nat>, stored: bool)
    ensures r == Err(ERR_UNAUTHORIZED)
    ensures !stored
  {
    var contract := new AuditTrailContract(AdminId);
    r := contract.LogEvent(None, Some(".unauthorized-contract"), BlockTime,
                           Some("UNAUTHORIZED_EVENT"), "PATIENT123", ProviderId);
    stored := 0 in contract.events;
  }

  /** The administrator reads back an event logged by an allow-listed contract. */
  method ScenarioAdminReads() returns (r: Result<Event>)
    ensures r.Ok? && r.value.eventType == "REGISTER_PATIENT" && r.value.resourceId == "PATIENT123"
  {
    var contract := new AuditTrailContract(AdminId);
    var _ := contract.LogEvent(None, Some(".patient-identity"), BlockTime,
                               Some("REGISTER_PATIENT"), "PATIENT123", ProviderId);
    r := contract.GetAuditEvent(Some(AdminId), 0);
  }

  /** A non-administrator cannot read an event that exists. */
  method ScenarioNonAdminCannotRead() returns (r: Result<Event>)
    ensures r == Err(ERR_UNAUTHORIZED)
  {
    var contract := new AuditTrailContract(AdminId);
    var _ := contract.LogEvent(Some(AdminId), Some(".patient-identity"), BlockTime,
                               Some("REGISTER_PATIENT"), "PATIENT123", ProviderId);
    r := contract.GetAuditEvent(Some(ProviderId), 0);
  }
}
