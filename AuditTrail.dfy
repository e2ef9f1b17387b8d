/** A model of the audit-trail contract: an append-only log of events keyed by a
    dense counter, written by three allow-listed contracts or the administrator
    and read by the administrator only.

    The ambient blockchain context (transaction caller, contract caller, block
    time) is passed explicitly to every operation.
 */
module AuditTrail {

  type Principal = string

  datatype Option<T> = None | Some(value: T)

  /** An operation either succeeds with a value or fails with a numeric error code. */
  datatype Result<T> = Ok(value: T) | Err(code: nat)

  const ERR_UNAUTHORIZED: nat := 1
  const ERR_NOT_FOUND: nat := 3
  const ERR_INVALID_INPUT: nat := 4

  /** The contracts allowed to append events. */
  const AuthorizedContracts: set<Principal> :=
    {".patient-identity", ".provider-verification", ".record-access"}

  /** One stored audit event; `details` is absent for events written by `logEvent`. */
  datatype Event = Event(
    eventType: string,
    resourceId: string,
    actor: Principal,
    timestamp: int,
    details: Option<string>)

  /** What the host supplies to a call: the transaction caller, the calling
      contract and the current block time. Either identity may be unset. */
  datatype Env = Env(caller: Option<Principal>, contractCaller: Option<Principal>, blockTime: int)

  /** The arguments of one write: `details` is None for `logEvent` and
      Some(d) for `logEventWithDetails(..., d)`. An absent `eventType` is None. */
  datatype WriteRequest = WriteRequest(
    env: Env,
    eventType: Option<string>,
    resourceId: string,
    actor: Principal,
    details: Option<string>)

  /** The contract's state as a value. */
  datatype Log = Log(admin: Principal, events: map<nat, Event>, counter: nat)

  /** The transaction caller is the administrator. */
  predicate IsAdmin(admin: Principal, caller: Option<Principal>)
    ensures IsAdmin(admin, caller) <==> caller.Some? && caller.value == admin
  {
    caller == Some(admin)
  }

  /** The calling contract is one of the three trusted collaborators. */
  predicate IsAuthorizedContract(contractCaller: Option<Principal>)
    ensures IsAuthorizedContract(contractCaller) <==>
              contractCaller.Some? && contractCaller.value in AuthorizedContracts
  {
    contractCaller == Some(".patient-identity") ||
    contractCaller == Some(".provider-verification") ||
    contractCaller == Some(".record-access")
  }

  /** A write is allowed to an allow-listed contract or to the administrator. */
  predicate MayWrite(admin: Principal, env: Env)
  {
    IsAuthorizedContract(env.contractCaller) || IsAdmin(admin, env.caller)
  }

  /** An event type that is present and non-empty. */
  predicate ValidEventType(eventType: Option<string>)
  {
    eventType.Some? && |eventType.value| != 0
  }

  /** The keys of the event map are exactly 0 .. counter-1. */
  ghost predicate Dense(events: map<nat, Event>, counter: nat)
  {
    forall k: nat :: k in events <==> k < counter
  }

  /** The event a successful write stores. */
  function EventOf(w: WriteRequest): (e: Event)
    requires ValidEventType(w.eventType)
  {
    Event(w.eventType.value, w.resourceId, w.actor, w.env.blockTime, w.details)
  }

  /** The effect of `logEvent` / `logEventWithDetails`: the new state and the result. */
  function Append(log: Log, w: WriteRequest): (out: (Log, Result<nat>))
    ensures out.0.admin == log.admin
    // authorization is checked before the input is looked at
    ensures !MayWrite(log.admin, w.env) ==> out == (log, Err(ERR_UNAUTHORIZED))
    ensures MayWrite(log.admin, w.env) && !ValidEventType(w.eventType) ==>
              out == (log, Err(ERR_INVALID_INPUT))
    // a failed write changes nothing
    ensures out.1.Err? ==> out.0 == log
    ensures out.1.Ok? <==> MayWrite(log.admin, w.env) && ValidEventType(w.eventType)
    // a successful write returns the old counter, bumps it by one and stores the event there
    ensures out.1.Ok? ==>
              out.1.value == log.counter &&
              out.0.counter == log.counter + 1 &&
              log.counter in out.0.events &&
              out.0.events[log.counter] == EventOf(w)
    // ... and no other entry changes
    ensures out.1.Ok? ==>
              out.0.events.Keys == log.events.Keys + {log.counter} &&
              forall k :: k in log.events && k != log.counter ==> out.0.events[k] == log.events[k]
    // on a dense log the new key is fresh and density is preserved
    ensures Dense(log.events, log.counter) ==>
              Dense(out.0.events, out.0.counter) &&
              (out.1.Ok? ==> out.1.value !in log.events) &&
              forall k :: k in log.events ==> k in out.0.events && out.0.events[k] == log.events[k]
  {
    if !IsAuthorizedContract(w.env.contractCaller) && !IsAdmin(log.admin, w.env.caller) then
      (log, Err(ERR_UNAUTHORIZED))
    else if w.eventType.None? || |w.eventType.value| == 0 then
      (log, Err(ERR_INVALID_INPUT))
    else
      var eventId := log.counter;
      (Log(log.admin, log.events[eventId := EventOf(w)], log.counter + 1), Ok(eventId))
  }

  /** The effect of `getAuditEvent`: administrator-only lookup. */
  function Read(log: Log, caller: Option<Principal>, eventId: int): (r: Result<Event>)
    // a non-administrator learns nothing, whether or not the id exists
    ensures !IsAdmin(log.admin, caller) <==> r == Err(ERR_UNAUTHORIZED)
    ensures r == Err(ERR_NOT_FOUND) <==>
              IsAdmin(log.admin, caller) && !(0 <= eventId && eventId as nat in log.events)
    ensures r.Ok? <==> IsAdmin(log.admin, caller) && 0 <= eventId && eventId as nat in log.events
    ensures r.Ok? ==> r.value == log.events[eventId as nat]
  {
    if !IsAdmin(log.admin, caller) then
      Err(ERR_UNAUTHORIZED)
    else if !(0 <= eventId && eventId as nat in log.events) then
      Err(ERR_NOT_FOUND)
    else
      Ok(log.events[eventId as nat])
  }

  /** The mock contract object, its fields updated in place by the write methods. */
  class AuditTrailContract {
    var admin: Principal
    var events: map<nat, Event>
    var counter: nat

    ghost predicate Valid()
      reads this
    {
      Dense(events, counter)
    }

    /** The current state as a value. */
    function State(): (s: Log)
      reads this
    {
      Log(admin, events, counter)
    }

    /** A fresh contract: no events, counter 0. */
    constructor (admin: Principal)
      ensures Valid()
      ensures this.admin == admin && events == map[] && counter == 0
    {
      this.admin := admin;
      events := map[];
      counter := 0;
    }

    /** `logEvent(eventType, resourceId, actor)`: stores an event without details. */
    method LogEvent(caller: Option<Principal>, contractCaller: Option<Principal>, blockTime: int,
                    eventType: Option<string>, resourceId: string, actor: Principal)
      returns (r: Result<nat>)
      requires Valid()
      modifies this
      ensures Valid()
      ensures (State(), r) ==
              Append(old(State()),
                     WriteRequest(Env(caller, contractCaller, blockTime), eventType, resourceId, actor, None))
      ensures admin == old(admin)
      ensures !IsAuthorizedContract(contractCaller) && !IsAdmin(admin, caller) ==>
                r == Err(ERR_UNAUTHORIZED) && events == old(events) && counter == old(counter)
      ensures MayWrite(admin, Env(caller, contractCaller, blockTime)) && !ValidEventType(eventType) ==>
                r == Err(ERR_INVALID_INPUT) && events == old(events) && counter == old(counter)
      ensures r.Ok? ==>
                r.value == old(counter) && counter == old(counter) + 1 &&
                events == old(events)[old(counter) :=
                                        Event(eventType.value, resourceId, actor, blockTime, None)]
    {
      if !IsAuthorizedContract(contractCaller) && !IsAdmin(admin, caller) {
        return Err(ERR_UNAUTHORIZED);
      }
      if eventType.None? || |eventType.value| == 0 {
        return Err(ERR_INVALID_INPUT);
      }
      var currentTime := blockTime;
      var eventId := counter;
      counter := counter + 1;
      events := events[eventId := Event(eventType.value, resourceId, actor, currentTime, None)];
      return Ok(eventId);
    }

    /** `logEventWithDetails(eventType, resourceId, actor, details)`: as LogEvent,
        but the stored event carries the given details. */
    method LogEventWithDetails(caller: Option<Principal>, contractCaller: Option<Principal>, blockTime: int,
                               eventType: Option<string>, resourceId: string, actor: Principal,
                               details: string)
      returns (r: Result<nat>)
      requires Valid()
      modifies this
      ensures Valid()
      ensures (State(), r) ==
              Append(old(State()),
                     WriteRequest(Env(caller, contractCaller, blockTime), eventType, resourceId, actor, Some(details)))
      ensures admin == old(admin)
      ensures !IsAuthorizedContract(contractCaller) && !IsAdmin(admin, caller) ==>
                r == Err(ERR_UNAUTHORIZED) && events == old(events) && counter == old(counter)
      ensures MayWrite(admin, Env(caller, contractCaller, blockTime)) && !ValidEventType(eventType) ==>
                r == Err(ERR_INVALID_INPUT) && events == old(events) && counter == old(counter)
      ensures r.Ok? ==>
                r.value == old(counter) && counter == old(counter) + 1 &&
                events == old(events)[old(counter) :=
                                        Event(eventType.value, resourceId, actor, blockTime, Some(details))]
    {
      if !IsAuthorizedContract(contractCaller) && !IsAdmin(admin, caller) {
        return Err(ERR_UNAUTHORIZED);
      }
      if eventType.None? || |eventType.value| == 0 {
        return Err(ERR_INVALID_INPUT);
      }
      var currentTime := blockTime;
      var eventId := counter;
      counter := counter + 1;
      events := events[eventId := Event(eventType.value, resourceId, actor, currentTime, Some(details))];
      return Ok(eventId);
    }

    /** `getAuditEvent(eventId)`: the stored event, for the administrator only. */
    method GetAuditEvent(caller: Option<Principal>, eventId: int) returns (r: Result<Event>)
      requires Valid()
      ensures r == Read(State(), caller, eventId)
      ensures !IsAdmin(admin, caller) ==> r == Err(ERR_UNAUTHORIZED)
      ensures IsAdmin(admin, caller) && !(0 <= eventId < counter) ==> r == Err(ERR_NOT_FOUND)
      ensures IsAdmin(admin, caller) && 0 <= eventId < counter ==> r == Ok(events[eventId as nat])
    {
      if !IsAdmin(admin, caller) {
        return Err(ERR_UNAUTHORIZED);
      }
      if !(0 <= eventId && eventId as nat in events) {
        return Err(ERR_NOT_FOUND);
      }
      return Ok(events[eventId as nat]);
    }
  }
}
