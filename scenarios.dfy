/**
 * The controller tests (src/test/.../AccountControllerTest.kt) replayed
 * against the service model, each on a fresh, empty table. The HTTP layer
 * is not modelled: a 201/200 becomes a successful result, a 404 an absent
 * one.
 */
module Scenarios {
  import opened Wrappers
  import opened AccountModel
  import opened Validation
  import opened AccountService

  /** The request body the tests start from. */
  function Pedro(): Account
  {
    Account(None, "Pedro Vieira", "493.166.368-09", "(11)98822-0443")
  }

  /** A saved account is listed, with an id. */
  method FindAllScenario() returns (all: seq<Account>)
    ensures |all| == 1
    ensures all[0].id.Some? && SameFields(all[0], Pedro())
  {
    var service := new AccountServiceImpl(map[]);
    var saved := service.Save(Pedro());
    all := service.GetAll();
    assert saved in service.store.Values;
  }

  /** A saved account is found under its id, unchanged. */
  method FindByIdScenario() returns (saved: Account, found: Option<Account>)
    ensures saved.id.Some? && SameFields(saved, Pedro())
    ensures found == Some(saved)
  {
    var service := new AccountServiceImpl(map[]);
    saved := service.Save(Pedro());
    found := service.GetById(saved.id.value);
  }

  /** A valid body is created with its fields unchanged, and the table is no longer empty. */
  method CreateScenario() returns (created: Result<Account>, all: seq<Account>)
    ensures created.Success? && created.value.id.Some? && SameFields(created.value, Pedro())
    ensures |all| == 1
  {
    var service := new AccountServiceImpl(map[]);
    created := service.Create(Pedro());
    all := service.GetAll();
  }

  /** An invalid body is refused with the message of its first failing check, and nothing is stored. */
  method CreateRejectedScenario() returns (created: Result<Account>, all: seq<Account>)
    ensures created == Failure("[name] deve ter no mínimo 5 caracteres!")
    ensures all == []
  {
    var service := new AccountServiceImpl(map[]);
    created := service.Create(Pedro().(name := "test"));
    all := service.GetAll();
  }

  /** Updating the name of a saved account returns it renamed, and the table holds the new name. */
  method UpdateScenario() returns (saved: Account, updated: Option<Account>, found: Option<Account>)
    ensures saved.id.Some?
    ensures updated.Some? && updated.value.id == saved.id && updated.value.name == "Update"
    ensures updated.value.document == saved.document && updated.value.phone == saved.phone
    ensures found == updated
  {
    var service := new AccountServiceImpl(map[]);
    saved := service.Save(Pedro());
    updated := service.Update(saved.id.value, saved.(name := "Update"));
    found := service.GetById(saved.id.value);
  }

  /** Deleting a saved account succeeds and the account is no longer found. */
  method DeleteScenario() returns (outcome: Outcome, found: Option<Account>)
    ensures outcome == Pass
    ensures found == None
  {
    var service := new AccountServiceImpl(map[]);
    var saved := service.Save(Pedro());
    outcome := service.Delete(saved.id.value);
    found := service.GetById(saved.id.value);
  }

  /** Deleting an id that was never stored fails with "Id not founded". */
  method DeleteUnknownScenario() returns (outcome: Outcome)
    ensures outcome == Fail("Id not founded")
  {
    var service := new AccountServiceImpl(map[]);
    outcome := service.Delete("missing");
  }

  /**
   * `update` runs none of `create`'s checks: a blank name is stored
   * although `create` would refuse it.
   */
  method UpdateSkipsValidationScenario() returns (updated: Option<Account>, found: Option<Account>)
    ensures updated.Some? && found == updated
    ensures Validate(found.value) == Fail(NameBlank)
  {
    var service := new AccountServiceImpl(map[]);
    var created := service.Create(Pedro());
    updated := service.Update(created.value.id.value, Pedro().(name := ""));
    found := service.GetById(created.value.id.value);
  }
}
