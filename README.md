# Audit trail — a Dafny model

This project models the audit-trail contract of the Secure Electronic Health
Record Exchange repository, as defined by the mock object `mockAuditTrail` in
`tests/audit-trail.test.ts`. The contract is an append-only event log:

- `isAdmin` compares the transaction caller with the configured administrator;
- `isAuthorizedContract` checks the calling contract against the allow-list
  `.patient-identity`, `.provider-verification`, `.record-access`;
- `logEvent` and `logEventWithDetails` append an event (type, resource id,
  actor, block time, optional details) under the next value of a counter,
  after checking authorization (error 1) and then a non-empty event type
  (error 4); they differ only in the stored `details`;
- `getAuditEvent` returns a stored event to the administrator only, with
  error 1 for anyone else and error 3 for an id that was never written.

`AuditTrail.dfy` holds the data model, the contract's state as a value (`Log`)
with pure step functions `Append` and `Read`, and the class
`AuditTrailContract` whose fields `admin`, `events` and `counter` are updated
in place by its methods. Its invariant `Valid()` says the keys of `events` are
exactly `0 .. counter-1`. Each method is proved to leave the class in the
state, and return the result, that `Append` or `Read` gives for the old state.
`AuditTrailProperties.dfy` proves properties over whole histories of writes
(`Replay`) and restates the unit-test scenarios as verified methods.

The host environment is made explicit: the transaction caller
(`mockBlockchain.caller`), the calling contract
(`mockBlockchain.contractCaller`) and the block time are parameters of every
operation. The two identities are distinct, as in the code. Both are
`Option<Principal>`, because the tests leave `caller` undefined and
`contractCaller` null. An absent `eventType` is `None`.

The allow-list check and the administrator check read two different
identities: `contractCaller` for the allow-list and `caller` for the
administrator. A write passes when either check holds.

## Model

| member | source | states |
|---|---|---|
| `AuditTrail.IsAdmin` | tests/audit-trail.test.ts:21-23 | true exactly when a transaction caller is present and equals the administrator; an unset caller is never the administrator |
| `AuditTrail.IsAuthorizedContract` | tests/audit-trail.test.ts:25-32 | true exactly when the calling contract is present and belongs to the three-name allow-list |
| `AuditTrail.Append` | tests/audit-trail.test.ts:34-94 | a caller that is neither allow-listed nor administrator gets error 1 with the state unchanged, before the input is inspected; an authorized write with an absent or empty event type gets error 4 with the state unchanged; a successful write returns the old counter, increments it by one, stores the event with the block time at that key and leaves every other entry alone; on a dense log the new key is fresh and density is preserved |
| `AuditTrail.Read` | tests/audit-trail.test.ts:96-110 | a non-administrator gets error 1 whatever the id; the administrator gets error 3 exactly when the id is not stored, and otherwise the stored event unchanged |
| `AuditTrail.AuditTrailContract.constructor` | tests/audit-trail.test.ts:16-19 | a new contract has the given administrator, no events and counter 0 (the state `beforeEach` resets to at lines 114-120) |
| `AuditTrail.AuditTrailContract.LogEvent` | tests/audit-trail.test.ts:34-63 | keeps the density invariant; new state and result are those of `Append` with no details; error 1 or 4 leave map and counter unchanged; success returns the old counter, increments it, and stores the event with `details` absent at the old counter |
| `AuditTrail.AuditTrailContract.LogEventWithDetails` | tests/audit-trail.test.ts:65-94 | as `LogEvent`, but the stored event's `details` is the given text |
| `AuditTrail.AuditTrailContract.GetAuditEvent` | tests/audit-trail.test.ts:96-110 | changes nothing; returns what `Read` gives: error 1 for a non-administrator, error 3 for an id outside `0 .. counter-1`, otherwise the stored event |
| `AuditTrailProperties.Replay` | tests/audit-trail.test.ts:34-94 | a history of writes returns one result per call and never changes the administrator |
| `AuditTrailProperties.ReplayAllocatesDenseIds` | tests/audit-trail.test.ts:48-51 | over any history, the ids of the successful writes are exactly the consecutive counter values in call order, and the counter grows by the number of successful writes |
| `AuditTrailProperties.IdsFromResetStartAtZero` | tests/audit-trail.test.ts:114-139 | from a freshly reset contract the successful writes receive ids 0, 1, 2, ... |
| `AuditTrailProperties.ReplayIsAppendOnly` | tests/audit-trail.test.ts:48-60 | a history of writes keeps the keys exactly `0 .. counter-1` and never changes or removes an entry already stored |
| `AuditTrailProperties.ReplayRoundTrip` | tests/audit-trail.test.ts:54-60 | every event a history stores is returned verbatim to the administrator at the id its write returned, whatever writes came after |
| `AuditTrailProperties.CounterCountsEvents` | tests/audit-trail.test.ts:18-19 | on a dense log the counter equals the number of stored events |
| `AuditTrailProperties.UnauthorizedWriteIgnoresInput` | tests/audit-trail.test.ts:38-40 | for a caller that may not write, every request gives the same outcome, error 1 with the state unchanged |
| `AuditTrailProperties.NonAdminReadIgnoresStore` | tests/audit-trail.test.ts:100-102 | a non-administrator's read gives error 1 whatever the id and whatever the store holds |
| `AuditTrailProperties.WriteThenRead` | tests/audit-trail.test.ts:105-109 | after a successful write the administrator reads back the written event at the returned id |
| `AuditTrailProperties.ScenarioLogFromAuthorizedContract` | tests/audit-trail.test.ts:122-139 | a write from `.patient-identity` returns id 0 and stores the given type, resource and actor |
| `AuditTrailProperties.ScenarioLogWithDetails` | tests/audit-trail.test.ts:141-158 | a detailed write from `.record-access` returns id 0 and stores the given details |
| `AuditTrailProperties.ScenarioLogFromUnauthorizedContract` | tests/audit-trail.test.ts:160-174 | a write from `.unauthorized-contract` with no transaction caller returns error 1 and stores nothing at id 0 |
| `AuditTrailProperties.ScenarioAdminReads` | tests/audit-trail.test.ts:176-195 | the administrator reads back the event written at id 0 |
| `AuditTrailProperties.ScenarioNonAdminCannotRead` | tests/audit-trail.test.ts:197-214 | the provider principal gets error 1 when reading an existing event |

## Left out

- The vitest harness (`describe`, `it`, `expect`, `beforeEach`): the tests are restated as verified scenario methods, and the reset done by `beforeEach` is the constructor.
- `mockBlockchain` as a mutable global: caller, contract caller and block time are parameters. The scenario for lines 197-214 passes the administrator as transaction caller during its write, because the earlier test at lines 176-195 left `caller` set to the administrator.
- The unused `blockHeight` field and the unused `caller` locals (lines 35, 66, 97).
- The concrete principal strings of the mock: principals are opaque strings, and the scenarios use their own names for the administrator and the provider.
- JavaScript truthiness: an event type is rejected only when absent or empty; other falsy values are not modelled.
- LogEventWithDetails: takes `details` as a string; passing `null` or a non-string value, which the mock would store as is, is not modelled.
- GetAuditEvent: takes the id as an integer; the mock's `Map` would also accept keys of other types, which never match a stored numeric key.
- Aliasing of stored events: the mock's `Map.get` returns the stored object itself, so a caller could mutate it afterwards; the model returns an immutable value.
- Number precision: the counter is an unbounded natural number; JavaScript numbers lose integer precision above 2^53, which the model does not capture.
- Transfer of the administrator role: the source has no operation for it.
- The real on-chain contract, consensus and fees: none of it is present in the repository.
