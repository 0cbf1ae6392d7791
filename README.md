# Bank account service — Dafny model

A model of the account service of a small Kotlin/Spring CRUD API. The
service keeps `Account` records (an id assigned on first save, a name, a
document number and a phone) in a repository table, and offers `create`,
`getAll`, `getById`, `update` and `delete`.

- `wrappers.dfy` — `Option` (for `java.util.Optional`), `Result` and
  `Outcome` (for a value or the message of the exception thrown instead).
- `account.dfy` — the `Account` record; `id` is `None` until persisted.
- `ids.dfy` — the id generator: any non-empty string no stored record uses.
- `validation.dfy` — `create`'s six fail-fast checks (verdict: `Outcome`) and their exact
  messages, an independent list-of-checks reference, and the lemmas tying
  the two together.
- `service.dfy` — class `AccountServiceImpl`, whose field `store: map<string,
  Account>` is the repository table. `Save` is `repository.save` (merge
  semantics: a record whose id is stored overwrites that entry, any other
  record is inserted under a fresh id); `Create`, `Update` and `Delete`
  change `store` in place; `GetById` and `GetAll` only read it. The class
  invariant `Valid()` says every record is stored under its own id.
- `scenarios.dfy` — the controller tests replayed on a service over an empty table.

`update` runs none of `create`'s checks, so a blank name can be stored
through it (`Scenarios.UpdateSkipsValidationScenario`).

## Model

| member | source | states |
|---|---|---|
| Ids.NewId | src/main/kotlin/com/pedrovieira/bankapi/model/Account.kt:10 | the generated id is non-empty and differs from every id already taken |
| Validation.Validate | src/main/kotlin/com/pedrovieira/bankapi/service/AccountServiceImpl.kt:13-22 | validation passes exactly when name has at least 5, document at least 11 and phone at least 9 characters; a rejection carries one of the six messages |
| Validation.Checks | src/main/kotlin/com/pedrovieira/bankapi/service/AccountServiceImpl.kt:13-22 | the six assertions of `create`, in source order, each with its message |
| Validation.FirstFailureIsFirst | src/main/kotlin/com/pedrovieira/bankapi/service/AccountServiceImpl.kt:13-22 | a fail-fast run of checks passes iff every check holds, and otherwise reports the message of a failing check all of whose predecessors hold |
| Validation.ValidateIsFirstFailure | src/main/kotlin/com/pedrovieira/bankapi/service/AccountServiceImpl.kt:13-22 | the validation chain equals the fail-fast run of the six checks in order |
| Validation.ValidateReportsFirstFailing | src/main/kotlin/com/pedrovieira/bankapi/service/AccountServiceImpl.kt:13-22 | a reported message is that of the first failing check: all earlier checks hold |
| Validation.BlankBeforeShort | src/main/kotlin/com/pedrovieira/bankapi/service/AccountServiceImpl.kt:13-22 | an empty field is reported as blank, never as too short; each too-short message is reported iff earlier fields pass and the field is non-empty but below its minimum |
| Validation.ControllerTestCases | src/test/kotlin/com/pedrovieira/bankapi/AccountControllerTest.kt:104-216 | the exact messages the six validation tests expect, and that the test body passes |
| AccountService.AccountServiceImpl.constructor | src/main/kotlin/com/pedrovieira/bankapi/service/AccountServiceImpl.kt:10 | the service runs over the table its repository already holds, any table whose records are stored under their own ids |
| AccountService.AccountServiceImpl.Save | src/main/kotlin/com/pedrovieira/bankapi/service/AccountServiceImpl.kt:24 | `repository.save`: the saved record keeps the input's fields and gets an id; a stored id is overwritten in place, any other record goes under a non-empty key not previously present; only that key changes |
| AccountService.AccountServiceImpl.Create | src/main/kotlin/com/pedrovieira/bankapi/service/AccountServiceImpl.kt:11-25 | a rejected account yields the first failing check's message and leaves the table unchanged; an accepted new account adds exactly one entry under a fresh, non-empty id with the input's fields, nothing else changes, and getById on the new id returns the created record |
| AccountService.AccountServiceImpl.GetAll | src/main/kotlin/com/pedrovieira/bankapi/service/AccountServiceImpl.kt:27-29 | returns exactly the stored records, each once, as many as the table holds, without changing the table |
| AccountService.AccountServiceImpl.GetById | src/main/kotlin/com/pedrovieira/bankapi/service/AccountServiceImpl.kt:31-33 | present iff the id is stored, then the stored record, whose id is the requested one |
| AccountService.AccountServiceImpl.Update | src/main/kotlin/com/pedrovieira/bankapi/service/AccountServiceImpl.kt:35-47 | unknown id: nothing returned, table unchanged; stored id: the record keeps its id, takes the body's name, document and phone (the body's id is ignored, no validation), replaces only that entry, and is returned |
| AccountService.AccountServiceImpl.Delete | src/main/kotlin/com/pedrovieira/bankapi/service/AccountServiceImpl.kt:49-53 | stored id: removes exactly that key and succeeds; unknown id: fails with "Id not founded" and leaves the table unchanged; afterwards getById reports the id absent |
| Scenarios.FindAllScenario | src/test/kotlin/com/pedrovieira/bankapi/AccountControllerTest.kt:24-36 | after one save the listing has one record, with an id and the saved fields |
| Scenarios.FindByIdScenario | src/test/kotlin/com/pedrovieira/bankapi/AccountControllerTest.kt:38-49 | a saved record is found under its id, equal to what save returned |
| Scenarios.CreateScenario | src/test/kotlin/com/pedrovieira/bankapi/AccountControllerTest.kt:51-68 | creating the test body succeeds with its fields unchanged and an id, and the table is no longer empty |
| Scenarios.CreateRejectedScenario | src/test/kotlin/com/pedrovieira/bankapi/AccountControllerTest.kt:123-140 | a four-character name is refused with the name-length message and nothing is stored |
| Scenarios.UpdateScenario | src/test/kotlin/com/pedrovieira/bankapi/AccountControllerTest.kt:69-89 | updating the name returns the record with the new name and same id, and the table then holds it |
| Scenarios.DeleteScenario | src/test/kotlin/com/pedrovieira/bankapi/AccountControllerTest.kt:91-102 | deleting a saved record succeeds and getById then reports it absent |
| Scenarios.DeleteUnknownScenario | src/main/kotlin/com/pedrovieira/bankapi/service/AccountServiceImpl.kt:49-53 | deleting an id never stored fails with "Id not founded" |
| Scenarios.UpdateSkipsValidationScenario | src/main/kotlin/com/pedrovieira/bankapi/service/AccountServiceImpl.kt:35-47 | update stores a record with a blank name, which create would reject with the blank-name message |

## Left out

- The HTTP controller (routing, 200/201/404 status codes) and the 400 error body built by an exception handler: only the service's results and message strings are modelled.
- JSON (de)serialisation, the database, transactions and concurrent requests: the table is one map updated by one call at a time.
- Ids.NewId: ids are UUIDs in the source; the model only promises a non-empty id that no stored record uses, not the UUID format.
- AccountService.AccountServiceImpl.Save: for a record whose id is set but not stored, JPA's merge behaviour depends on the persistence provider's version; the model inserts it under a fresh id, like a record without id.
- String lengths are counted in Unicode characters; Kotlin counts UTF-16 code units, which differ for characters outside the Basic Multilingual Plane.
- Null strings: Kotlin's non-null `String` fields make `Assert.hasLength`'s null case unreachable, so fields are plain strings.
- The order of `getAll`'s list is unspecified by the repository; the model promises only the contents.
- The statement at `update`'s line 37 computes a value that is discarded; it has no effect and is not modelled.
- The repository interfaces (both copies) are framework extensions with no logic of their own; they are replaced by the `store` map.
