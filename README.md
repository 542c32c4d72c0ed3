# August door-sense client, modelled in Dafny

This project models the client that a Homebridge plugin uses to talk to the
August lock vendor's HTTP API (`src/august.ts`). It covers three parts:

- **Session manager.** `StartSession` logs in and then probes the identity
  endpoint. After a refused probe it either sends a two-factor code or
  validates the code the caller supplied. A failed validation is followed by
  a fresh code send. One call makes at most four requests, at most one
  validation and at most one code send, and has no retry loop. The session is
  a `Session` object. Its token is updated in place when a validation is
  accepted.
- **Resource client.** It lists houses and locks and reads the door status
  and the serial number of a lock. Each of these makes one request and
  projects the parsed body.
- **Request construction.** Request options always carry both API-key
  headers. The access-token header is present only when there is a session.
  The login, send-code and validate bodies are modelled as JSON values.

The vendor's service is an oracle. `Http.Server` holds a total function
`respond`. Given every earlier exchange and a new request, it returns the
status code, the access-token header and the parsed body (absent when the
body is not JSON). `Server.MakeRequest` keeps the parsed body only on a 200
response, which is what the transport does. It also appends the request and
its response to `log`. Every contract about requests is stated over that log.

The handshake also has a pure reference definition,
`AugustSession.Handshake`. It is split the same way as the methods:
`AfterLogin` covers the probe and `TwoFactor` covers the code step.
`StartSession` is proved to append exactly `Handshake(...).exchanges` to the
log and to return `Handshake(...).result`. The handshake properties are
lemmas about `Handshake`: how many code sends and validations are made, and
which token the session ends with. For proof size, the source's
`augustStartSession` is split at its own steps into three methods:
`StartSession` (login), `ConfirmSession` (probe) and `VerifySession` (the
two-factor branch).

JavaScript semantics are modelled explicitly:

- **Truthiness.** `Json.Truthy` treats undefined, `null`, `false`, `0` and
  `""` as false.
- **Property reads.** `Json.Get` reads a member of an object and gives
  undefined on every other value. For duplicate keys the last one wins, as in
  `JSON.parse`.
- **Property writes.** `Json.Put` models `obj[key] = value`.
- **`Object.keys`.** `Json.Entries` lists an object's members, an array's
  elements under their decimal indices, and a string's characters.
- **TypeErrors.** Reading a property of `undefined` or `null` throws in
  JavaScript. The model returns `Error.NullishProperty` instead.

### Behaviour worth knowing

- **Houses and locks can fail.** A `null` element of the house array or a
  `null` value in the lock listing throws when its fields are read
  (`ProjectHouses`, `ProjectLocks`).
- **Truthy body, not a present body.** The lock listing, the door status and
  the serial number test whether the body is truthy. A body of `0`, `false`,
  `""` or `null` is treated like a missing one. The house listing tests
  `Array.isArray` instead.
- **Login failures.** A 200 login response whose body is absent or `null`
  throws a TypeError (`NullishProperty`), not the invalid-credentials error.
- **Serial number location.** `augustGetSerialNumber` reads a top-level
  `serialNumber`, while the door status reads `info.serialNumber`. The model
  keeps that difference (`SerialNumberIgnoresInfo`).

## Model

| member | source | states |
|---|---|---|
| `Http.Receive` | src/august.ts:112-130 | the response keeps the reply's status and token; it has a payload exactly when the status is 200 and the body parsed, and then it is the parsed body |
| `Http.Server.MakeRequest` | src/august.ts:97-140 | one request is sent and appended to the log with its response, which is the oracle's answer given the earlier log, with the body kept only on 200 |
| `AugustSession.GetRequestOptions` | src/august.ts:77-95 | fixed host and port; both API-key headers carry `apiKey`; the access-token header is present exactly when a session is given and then carries its token; the other headers are the fixed ones |
| `AugustSession.LoginBodyMembers` | src/august.ts:145-151 | the login body has exactly three members: `identifier` is `idType + ":" + identifier`, plus `password` and `installId` |
| `AugustSession.SendCodeBodyMembers` | src/august.ts:173-177 | the send-code body has the single member `value`, the session's identifier |
| `AugustSession.ValidateBodyMembers` | src/august.ts:184-189 | the validate body is `{code, [idType]: identifier}` in that order; when `idType` is "code" the identifier replaces the code |
| `AugustSession.LoginOutcome` | src/august.ts:155-164 | login succeeds exactly when the status is 200 and `userId` is truthy; the session copies apiKey, idType and identifier from the options and takes the response token; failures carry the status, or the TypeError on an absent or null body |
| `AugustSession.Login` | src/august.ts:142-165 | sends exactly the login request, without an access token; the result is `LoginOutcome` of its response, in a fresh session |
| `AugustSession.GetMe` | src/august.ts:167-170 | sends exactly the identity probe, a GET of /users/me carrying the session token |
| `AugustSession.SendCode` | src/august.ts:172-181 | sends exactly one POST to /validation/{idType} with body `{value: identifier}` and the session token |
| `AugustSession.ValidateCode` | src/august.ts:183-193 | sends exactly one POST to /validate/{idType} with the validate body and the session token |
| `AugustSession.VerifySession` | src/august.ts:59-72 | after a refused probe: appends the two-factor exchanges; the session token becomes the validation's token only when the validation returned 200 |
| `AugustSession.ConfirmSession` | src/august.ts:56-72 | appends the probe and, when it is refused, the two-factor exchanges; the session ends as the reference handshake says |
| `AugustSession.StartSession` | src/august.ts:51-75 | the log grows by exactly the reference handshake's exchanges, and the result is its result, in a fresh session |
| `AugustSession.Handshake` | src/august.ts:51-75 | the reference handshake: one to four exchanges, the first being the login request; it succeeds exactly when that login is accepted, and then at least the identity probe follows |
| `AugustSession.AfterLogin` | src/august.ts:56-72 | the steps after an accepted login: one to three exchanges, the first being the identity probe with the session token, and always a session |
| `AugustSession.TwoFactor` | src/august.ts:59-72 | the step after a refused probe: one or two exchanges, always ending with a session |
| `AugustSession.LoginRefusalIsFinal` | src/august.ts:51-53 | a failed start made only the login request and fails with the login's error |
| `AugustSession.AcceptedProbeSkipsTwoFactor` | src/august.ts:56-59 | an accepted probe ends the handshake after two requests: no code sent or validated, and the login token kept |
| `AugustSession.MissingCodeSendsOneCode` | src/august.ts:60-62 | refused probe and no code: three requests, exactly one code send (to the session's identifier), no validation, and the login token kept |
| `AugustSession.SuppliedCodeValidatesOnce` | src/august.ts:63-71 | refused probe and a code: exactly one validation with that code; if it returns 200 there is no code send and the token is the validation's; otherwise exactly one code send and the login token kept |
| `AugustSession.TokenIsLastIssued` | src/august.ts:51-75 | a started session's token is the token of the last accepted login or validation in its exchanges, never the token of a refused exchange |
| `Json.Get` | src/august.ts:155 | a property read `v[key]` gives a value only on an object that has a member `key` holding it, and always gives one when such a member exists |
| `Json.Put` | src/august.ts:187 | after `obj[key] = value`, reading `key` gives `value` and reading every other key gives what it gave before |
| `Json.Entries` | src/august.ts:216-217 | the entries `Object.keys` visits with their values: an object's members, an array's elements under their decimal indices, a string's characters under theirs, nothing for other values |
| `Json.EntryKeysDistinct` | src/august.ts:216 | the keys `Object.keys` lists are distinct whenever the object's own keys are |
| `Json.TruthyIsNotFalsy` | src/august.ts:245 | a value is falsy exactly when it is undefined, `null`, `false`, `0` or `""` |
| `AugustQueries.ProjectHouses` | src/august.ts:200-203 | one house per element, in order, from `HouseID` and `HouseName`; fails exactly when an element is null |
| `AugustQueries.HousesOf` | src/august.ts:199-207 | without a 200 status and an array payload, no houses; otherwise the projection of every element |
| `AugustQueries.ProjectLocks` | src/august.ts:216-225 | one lock per entry, in order, its id the entry's key; fails exactly when an entry's value is null |
| `AugustQueries.LocksOf` | src/august.ts:215-229 | without a 200 status and a truthy payload, no locks; otherwise one lock per key of the payload, in key order, with that key as its id |
| `AugustQueries.LockIdsDistinct` | src/august.ts:216-219 | no two locks of one listing share an id, for object, array and string payloads alike |
| `AugustQueries.DoorStatusOf` | src/august.ts:236-253 | without a 200 status and a truthy payload: unknown with no serial number, never a failure; Closed and Open map to closed and open; Init and an absent or falsy state map to unknown; any other state is the only failure; each status carries `info.serialNumber` |
| `AugustQueries.SerialNumberOf` | src/august.ts:260-264 | the top-level `serialNumber` of a 200 response with a truthy payload, else the empty string |
| `AugustQueries.ClosedWithSerial` | src/august.ts:239-240 | a body with the closed state and `info.serialNumber` "X1" reads as closed with "X1" |
| `AugustQueries.SerialNumberSourcesDiffer` | src/august.ts:260-264 | on a status body with `info.serialNumber` "SN9", the door status carries "SN9" while the serial-number query gives undefined |
| `AugustQueries.SerialNumberIgnoresInfo` | src/august.ts:238-261 | for every 200 status body, replacing its `info` member leaves the serial number query's answer unchanged (the top-level member), while a successful door status reports the new `info.serialNumber` |
| `AugustQueries.GetHouses` | src/august.ts:195-208 | sends exactly the houses GET with the session token; the result is `HousesOf` its response |
| `AugustQueries.GetLocks` | src/august.ts:210-230 | sends exactly the locks GET with the session token; the result is `LocksOf` its response |
| `AugustQueries.GetDoorStatus` | src/august.ts:232-254 | sends exactly the PUT to /remoteoperate/{lockId}/status with the session token; the result is `DoorStatusOf` its response |
| `AugustQueries.GetSerialNumber` | src/august.ts:256-265 | sends the same status PUT; the result is `SerialNumberOf` its response |

## Left out

- Transport: the HTTPS request, the `data` and `end` stream events and `JSON.parse` are replaced by the `Server` oracle. Joining the chunks with `,` is not modelled.
- A connection error is only logged and the promise never settles. A call that hangs forever cannot be expressed here. Every call in the model returns.
- Encoding: `JSON.stringify` and `TextEncoder` are not modelled. A request body is the JSON value before it is encoded.
- Missing token header: a response without the access-token header gives the token `undefined`. The model's token is always a string.
- Missing status: a response without a status code is not modelled. The status is always an integer.
- Numbers are reals. JSON cannot carry NaN or infinities, so truthiness only has to treat zero as falsy.
- Key order: `Object.keys` lists integer-like keys first, in ascending order. The model keeps an object's members in body order.
- Duplicate keys: a body with duplicate keys has one key in `Object.keys`. The model's lock listing would list both, so `LockIdsDistinct` assumes distinct keys, which is what `JSON.parse` produces.
- String characters: JavaScript indexes strings by UTF-16 code unit. The model indexes by character.
- Property reads outside the names this client uses: `Json.Get` gives undefined for every value that is not an object. That is right for the names the client reads, but not for array indices or built-in properties.
- Logging (`log.debug`, `log.info`, `log.error`) has no effect on results and is not modelled.
- `src/platformAccessory.ts` is not part of this model. It holds accessory wiring, timer-driven polling and a status field updated from callbacks.
- `src/settings.ts` is not part of this model. It holds two name constants.
