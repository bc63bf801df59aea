# CBORD GET client core, modelled in Dafny

This project models the sequential core of a small client for the CBORD GET campus
card backend. It covers the following pieces:

- the request body every backend call sends, `{method, params}`, with `sessionId` always defined last;
- the default transaction filter and the two-level object-spread merge applied by `listRecentTransactions`;
- the fixed endpoint, remote method name and parameters of each domain operation;
- the institution login URL;
- the single-key session token store (`sessionToken`) with its get, set and remove methods;
- the validation rule and the submit step of the session-URL form;
- the four-way choice of the command's first screen.

Request bodies are values: JavaScript objects are modelled as their own properties
in insertion order (`Json.Field` sequences); every key the client uses is an
ordinary name, not an array index, so this is also the order of enumeration. `Json.Assign` models how an object literal
defines a property, and `Json.Spread` models `{...target, ...src}`. Two views of the
merge are proved to agree, whatever order the caller writes its keys in:

- `TransactionFilter.MergeExpression` is the merge exactly as the client writes it, with spreads.
- `TransactionFilter.Merge` is a typed, field-by-field merge. `Nullable` is a field typed `T | null`. `Partial` is a property of the argument that is either left out or given, possibly as an explicit `null`.

Four foreign inputs are abstract:

- The session id a body carries is `Json.StoreRead("sessionToken")`. This is the not-yet-awaited read of the storage key, not a resolved token.
- The "six months ago" date is a string parameter.
- The URL parser is a function parameter `parse: string -> ParseOutcome` (throws / no `sessionId` / a value).
- The persistent storage is a class holding a map.

Files: `wrappers.dfy` (Option), `json.dfy` (objects, assignment, spread),
`session_store.dfy`, `envelope.dfy`, `transaction_filter.dfy`, `operations.dfy`,
`auth_url.dfy` (all from `src/cbord.ts`), `session_form.dfy` and `command_screen.dfy`
(from `src/index.tsx`).

Facts about the client that the model keeps:

- `method` always attaches `sessionId`, `authenticateSystem` included (src/cbord.ts:36, :166).
- `newestDate` defaults to `null` (src/cbord.ts:115).
- The store holds one key and no temporary flag (src/cbord.ts:5-8).
- Operations return the raw `{exception, response}` body (src/cbord.ts:27, :74).

## Model

| member | source | states |
|---|---|---|
| `Json.Assign` | src/cbord.ts:36 | defining a property makes the key yield the new value and leaves every other key's value unchanged; an existing key keeps its position, a new key goes last |
| `Json.SpreadLookup` | src/cbord.ts:35 | after `{...target, ...src}` each key of `src` has `src`'s value and every other key has `target`'s value |
| `Json.SpreadKnownKeys` | src/cbord.ts:147-149 | spreading an object whose keys are all in the target leaves the target's key order unchanged |
| `Json.SpreadNewKeys` | src/cbord.ts:35 | spreading an object with distinct keys that are all new appends its properties in order; with an empty target this is a faithful copy |
| `Json.SpreadSelf` | src/cbord.ts:147-150 | spreading an object with distinct keys over itself gives the same object |
| `Json.AssignSame` | src/cbord.ts:150 | defining a property with the value it already has leaves the object unchanged |
| `Envelope.Build` | src/cbord.ts:31-39 | the body's method is the given name; `params.sessionId` is the store read whatever the caller passed; every other key has exactly the caller's value; the keys are the caller's keys followed by `sessionId` when the caller had none; keys stay distinct |
| `Envelope.NoParamsOnlySessionId` | src/cbord.ts:35-36 | with params omitted or nullish, `params` holds `sessionId` alone |
| `Envelope.CallerParamsThenSessionId` | src/cbord.ts:34-37 | caller params without `sessionId` are sent unchanged and in order, followed by `sessionId` |
| `SessionStore.TokenOf` | src/cbord.ts:6 | a read yields a token exactly when the `sessionToken` key is present, and then yields its value |
| `SessionStore.LocalStorage.GetActiveSession` | src/cbord.ts:6 | returns exactly the read `TokenOf` describes: the value stored under `sessionToken`, or absent when the key is missing, so the store lemmas apply to it |
| `SessionStore.LocalStorage.SetActiveSession` | src/cbord.ts:7 | the new storage is the old one with `sessionToken` set to the token, nothing else changed |
| `SessionStore.LocalStorage.ClearActiveSession` | src/cbord.ts:8 | the new storage is the old one without `sessionToken`, nothing else changed |
| `SessionStore.ReadAfterSet` | src/cbord.ts:6-7 | after setting token `t`, a read yields `t` |
| `SessionStore.ReadAfterClear` | src/cbord.ts:6-8 | after clearing, a read yields absent whatever was stored |
| `SessionStore.OtherKeysUntouched` | src/cbord.ts:5-8 | set and clear leave the presence and value of every other key as they were |
| `SessionStore.LastWriteWins` | src/cbord.ts:7-8 | two sets keep only the last token; clear then set equals set |
| `AuthUrl.GetAuthUrl` | src/cbord.ts:10-11 | the URL is `https://get.cbord.com/`, then the short name verbatim, then `/full/login.php?mobileapp=1`, with exactly that length |
| `AuthUrl.GetAuthUrlInjective` | src/cbord.ts:10-11 | different short names give different login URLs |
| `AuthUrl.GetAuthUrlExample` | src/cbord.ts:10-11 | the URL for one concrete short name, spelled out |
| `TransactionFilter.MergeAnyKeyOrder` | src/cbord.ts:147-154 | for any caller object, in any key order, that describes a typed partial filter, the spread expression as written sends exactly the field-by-field merge of the typed filter, in the default key order |
| `TransactionFilter.PartialFilterDescribes` | src/cbord.ts:145 | the caller object written in the defaults' key order describes its typed partial filter: distinct keys, only filter keys, the same values at both levels |
| `TransactionFilter.MergeMatchesSpread` | src/cbord.ts:147-154 | the spread expression as written, for the caller object in the defaults' key order, sends exactly the field-by-field merge of the typed filter |
| `TransactionFilter.CriteriaMatchesSpread` | src/cbord.ts:150-153 | for any caller `queryCriteria` object, in any key order, whose keys are distinct and whose values are the typed partial criteria's, the nested spread yields the field-by-field merge of `queryCriteria`; an omitted `queryCriteria` copies the defaults |
| `TransactionFilter.TopLevelSpread` | src/cbord.ts:147-150 | for any caller object, in any key order, with distinct keys among the two filter keys, the outer spread followed by the `queryCriteria` definition yields `paymentSystemType` (caller's if given, else default) and then the nested object, in the defaults' order |
| `TransactionFilter.DefaultsSpreadOverThemselves` | src/cbord.ts:145-154 | with no argument `params` is the default object itself, and the spread expression then yields the defaults unchanged |
| `TransactionFilter.SuppliedFieldsWin` | src/cbord.ts:149-152 | every field the caller supplies wins, including an explicit null, at both levels |
| `TransactionFilter.OmittedFieldsKeepDefaults` | src/cbord.ts:148-151 | every field the caller leaves out keeps its default; a partial `queryCriteria` leaves `paymentSystemType` and the other criteria at their defaults (a field given as `undefined` is not modelled, see below) |
| `TransactionFilter.NoArgumentGivesDefaults` | src/cbord.ts:111-119 | with no argument the merge yields the defaults: type 0, at most 10, newest null, oldest the six-months-ago date, account null |
| `TransactionFilter.FullArgumentReplacesAll` | src/cbord.ts:147-154 | a filter given in full replaces every default |
| `TransactionFilter.MergeIdempotent` | src/cbord.ts:147-154 | merging the same partial filter again changes nothing |
| `TransactionFilter.OnlyMaxReturnGiven` | src/cbord.ts:147-154 | `{queryCriteria: {maxReturnMostRecent: 5}}` gives type 0, at most 5, newest null, oldest the default date, account null |
| `Operations.ListAccounts` | src/cbord.ts:73-76 | posts `commerce` / `retrieveAccounts` with params `{sessionId}` only |
| `Operations.RetrieveUser` | src/cbord.ts:104-107 | posts `user` / `retrieve` with params `{sessionId}` only |
| `Operations.GetInstitutions` | src/cbord.ts:190-195 | posts `institution` / `retrieveLookupList` with params `{sessionId}` only |
| `Operations.CreateTemporarySession` | src/cbord.ts:162-176 | posts `session` / `authenticateSystem` with `systemCredentials {domain: "", userName: "get_mobile", password: "NOTUSED"}` followed by the store read as `sessionId` |
| `Operations.ListRecentTransactions` | src/cbord.ts:144-160 | posts `commerce` / `retrieveTransactionHistoryWithinDateRange` with the merged filter's properties followed by `sessionId` |
| `Operations.MergedParams` | src/cbord.ts:144-154 | the spread expression, with the caller's argument or the defaults when none is given, is the typed merge as an object, with distinct keys and no `sessionId` |
| `Operations.NoArgumentSendsDefaults` | src/cbord.ts:145-157 | with no argument the params are exactly `paymentSystemType: 0`, `queryCriteria {maxReturnMostRecent: 10, newestDate: null, oldestDate: date, accountId: null}`, `sessionId` |
| `Operations.EverySessionIdIsTheStoreRead` | src/cbord.ts:36 | every operation's body carries the store read as `sessionId`, `authenticateSystem` included, under distinct keys |
| `Operations.MethodNameIdentifiesCall` | src/cbord.ts:73-195 | each of the five remote method names is posted by exactly one operation |
| `Operations.OperationsAreDistinguishable` | src/cbord.ts:73-195 | two operations' requests have the same endpoint and method name exactly when they are the same call, `listRecentTransactions` with any arguments counting as one |
| `SessionForm.ExtractedId` | src/index.tsx:60 | an id passes `!id` exactly when the parameter is present and non-empty, and then it is that value |
| `SessionForm.Validate` | src/index.tsx:56-64 | empty value: "Session URL is required"; parser throws: "Failed to parse session URL"; null or empty id: "Session URL is invalid"; no error exactly when the value is non-empty and a non-empty id is extracted |
| `SessionForm.SessionUrlInput.Submit` | src/index.tsx:66-71 | without an extracted id it fails (the parser's exception, or "Failed to parse session URL") and performs no effect; otherwise it stores the id as non-temporary and then pops |
| `SessionForm.ValidatedValuesSubmit` | src/index.tsx:56-70 | a value the validator accepts always submits; for non-empty values the validator accepts exactly what submit stores |
| `SessionForm.EmptyIdRejected` | src/index.tsx:59-68 | `?sessionId=` with an empty value is rejected by the validator ("invalid") and by submit ("Failed to parse") |
| `CommandScreen.Choose` | src/index.tsx:9-12 | error view exactly when there is an error (showing its message); loading list when no error and loading; institution picker when the session is reported temporary; accounts view otherwise |
| `CommandScreen.ErrorFirst` | src/index.tsx:9 | an error wins over loading and over any result |
| `CommandScreen.AccountsOnlyWithoutTemporarySession` | src/index.tsx:11-12 | the accounts view is shown only when loading has finished and the session is not reported temporary |

## Left out

- HTTP transport (`ky.extend`, the base URL, the header hook, `.post(...).json()`): network I/O through a foreign library. Requests are values and nothing is sent.
- Serialisation of the body: `sessionId` holds the unawaited storage read. The model does not say how JSON serialisation writes that promise.
- Response types and their unwrapping: the client returns the raw `{exception, response}` body, with no error handling to model.
- Session lifecycle (`initSession`, `sessionTokenDoesNotExist`, `sessionTokenIsTemporary`, the two-argument `setActiveSession`): src/index.tsx and src/overview.tsx call these, but they are not part of this model because src/cbord.ts does not define them. Submit's store write is the abstract effect `StoreSession(id, false)`.
- `getSessionIdFromValidatorURL`: it relies on the WHATWG URL parser, a foreign library. Its outcome is the abstract input `parse`.
- `DATE_6_MONTHS_AGO_ISO`: it uses clock and floating-point date arithmetic, so it is a string parameter.
- Numbers are integers. The client's numeric fields are JavaScript doubles, but only small integer constants appear.
- Storage values are strings only. Asynchrony and storage I/O failures of `LocalStorage` are not modelled.
- `SessionForm.Validate`: the field value is a string. An `undefined` value would also give "Session URL is required".
- `null` passed explicitly as the transaction filter is not modelled. The TypeScript type rules it out, and the default applies to a missing or `undefined` argument (`Absent`).
- `TransactionFilter.Merge`: a field given explicitly as `undefined` (`{queryCriteria: {oldestDate: undefined}}`, which `PartialDeep` allows) is not modelled. The spread copies `undefined` over the default and JSON serialisation then drops the key, so the backend receives no such field; `Partial` only has "left out" and "given a value or `null`", and `OmittedFieldsKeepDefaults` is about left-out fields only.
- `Json.Assign`: a new key always goes last. JavaScript enumerates array-index keys such as "0" first, in ascending order; the client uses no such key.
- Rendering, navigation, alerts, opening the browser, toasts and command metadata (src/index.tsx, src/overview.tsx) are UI layers, not modelled.
