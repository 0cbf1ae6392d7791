/**
 * The account service (service/AccountServiceImpl.kt) over its repository.
 * The repository's table is the map `store` from id to record; `Save` and
 * the removal in `Delete` play the parts of `repository.save` and
 * `repository.delete`.
 */
module AccountService {
  import opened Wrappers
  import opened AccountModel
  import opened Validation
  import Ids

  /** The exception message of `delete` on an unknown id. */
  const IdNotFound: string := "Id not founded"

  /** Every record of `m` carries its key as its id. */
  ghost predicate Keyed(m: map<string, Account>)
  {
    forall k :: k in m ==> m[k].id == Some(k)
  }

  /**
   * `all` lists the records of `m` under the keys `seen`, each once: the
   * partial result of enumerating the table.
   */
  ghost predicate Lists(m: map<string, Account>, all: seq<Account>, seen: set<string>)
  {
    seen <= m.Keys &&
    |all| == |seen| &&
    (forall i :: 0 <= i < |all| ==> all[i].id.Some? && all[i].id.value in seen && m[all[i].id.value] == all[i]) &&
    (forall k :: k in seen ==> m[k] in all) &&
    (forall i, j :: 0 <= i < j < |all| ==> all[i].id != all[j].id)
  }

  /** Appending the record of a key not yet listed extends the enumeration by that key. */
  lemma ListsStep(m: map<string, Account>, all: seq<Account>, seen: set<string>, k: string)
    requires Keyed(m) && Lists(m, all, seen)
    requires k in m && k !in seen
    ensures Lists(m, all + [m[k]], seen + {k})
  {
  }

  /** A complete enumeration lists exactly the table's records, none twice. */
  lemma ListsComplete(m: map<string, Account>, all: seq<Account>)
    requires Keyed(m) && Lists(m, all, m.Keys)
    ensures |all| == |m|
    ensures forall a :: a in all <==> a in m.Values
    ensures forall i, j :: 0 <= i < j < |all| ==> all[i] != all[j]
  {
  }

  class AccountServiceImpl {
    /** The persisted accounts, by id. */
    var store: map<string, Account>

    /** Every persisted record carries the key it is stored under as its id. */
    ghost predicate Valid()
      reads this
    {
      Keyed(store)
    }

    /** A service over the repository's current table. */
    constructor (initial: map<string, Account>)
      requires Keyed(initial)
      ensures Valid()
      ensures store == initial
    {
      store := initial;
    }

    /**
     * `repository.save`: a record whose id is already stored overwrites
     * that entry; any other record (no id, or an id the table does not
     * hold) is inserted under a freshly generated id.
     */
    method Save(a: Account) returns (saved: Account)
      requires Valid()
      modifies this
      ensures Valid()
      ensures SameFields(saved, a) && saved.id.Some?
      ensures store == old(store)[saved.id.value := saved]
      ensures a.id.Some? && a.id.value in old(store) ==> saved == a
      ensures a.id.None? || a.id.value !in old(store) ==> saved.id.value !in old(store) && |saved.id.value| > 0
    {
      if a.id.Some? && a.id.value in store {
        saved := a;
      } else {
        var k := Ids.NewId(store.Keys);
        saved := a.(id := Some(k));
      }
      store := store[saved.id.value := saved];
    }

    /**
     * `create`: runs the validation chain and, only if every check passes,
     * saves the record. A failing check reports its message and leaves the
     * table as it was.
     */
    method Create(a: Account) returns (r: Result<Account>)
      requires Valid()
      modifies this
      ensures Valid()
      ensures Validate(a).Fail? ==> r == Failure(Validate(a).message) && store == old(store)
      ensures Validate(a).Pass? ==>
        r.Success? && SameFields(r.value, a) && r.value.id.Some? &&
        store == old(store)[r.value.id.value := r.value]
      ensures Validate(a).Pass? && (a.id.None? || a.id.value !in old(store)) ==>
        r.value.id.value !in old(store) && |r.value.id.value| > 0 && |store| == |old(store)| + 1
      ensures Validate(a).Pass? && a.id.Some? && a.id.value in old(store) ==> r.value == a
      ensures r.Success? ==> GetById(r.value.id.value) == Some(r.value)
    {
      var verdict := Validate(a);
      if verdict.Fail? {
        return Failure(verdict.message);
      }
      var saved := Save(a);
      r := Success(saved);
    }

    /** `getAll`: every persisted record, each exactly once, in no particular order. */
    method GetAll() returns (all: seq<Account>)
      requires Valid()
      ensures |all| == |store|
      ensures forall a :: a in all <==> a in store.Values
      ensures forall i, j :: 0 <= i < j < |all| ==> all[i] != all[j]
    {
      all := [];
      var rest := store.Keys;
      ghost var seen: set<string> := {};
      while rest != {}
        invariant rest !! seen && rest + seen == store.Keys
        invariant Lists(store, all, seen)
        decreases |rest|
      {
        var k :| k in rest;
        ListsStep(store, all, seen, k);
        all := all + [store[k]];
        rest := rest - {k};
        seen := seen + {k};
      }
      ListsComplete(store, all);
    }

    /** `getById`: the record stored under `id`, or nothing. */
    function GetById(id: string): (r: Option<Account>)
      reads this
      ensures r.Some? <==> id in store
      ensures r.Some? ==> r.value == store[id]
      ensures Valid() && r.Some? ==> r.value.id == Some(id)
    {
      if id in store then Some(store[id]) else None
    }

    /**
     * `update`: for a stored id, replaces the record's name, document and
     * phone with those of `a`, keeps the stored id (whatever `a.id` says),
     * runs no validation, saves and returns the record; for an unknown id,
     * returns nothing and changes nothing.
     */
    method Update(id: string, a: Account) returns (r: Option<Account>)
      requires Valid()
      modifies this
      ensures Valid()
      ensures id !in old(store) ==> r == None && store == old(store)
      ensures id in old(store) ==>
        r.Some? && r.value.id == Some(id) && SameFields(r.value, a) &&
        store == old(store)[id := r.value]
      ensures r.Some? ==> GetById(id) == r
    {
      var found := GetById(id);
      if found.None? {
        return None;
      }
      var accountToUpdate := found.value.(name := a.name, document := a.document, phone := a.phone);
      var saved := Save(accountToUpdate);
      r := Some(saved);
    }

    /**
     * `delete`: removes the record stored under `id`; for an unknown id,
     * fails with "Id not founded" and changes nothing.
     */
    method Delete(id: string) returns (outcome: Outcome)
      requires Valid()
      modifies this
      ensures Valid()
      ensures id in old(store) ==> outcome == Pass && store == old(store) - {id} && |store| == |old(store)| - 1
      ensures id !in old(store) ==> outcome == Fail(IdNotFound) && store == old(store)
      ensures GetById(id) == None
    {
      var found := GetById(id);
      if found.None? {
        return Fail(IdNotFound);
      }
      store := store - {found.value.id.value};
      outcome := Pass;
    }
  }
}
