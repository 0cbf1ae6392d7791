/** The persisted entity (model/Account.kt). */
module AccountModel {
  import opened Wrappers

  /**
   * An account record. `id` is `None` until the record has been persisted;
   * the persistence layer assigns it.
   */
  datatype Account = Account(id: Option<string>, name: string, document: string, phone: string)

  /** The two records carry the same name, document and phone. */
  predicate SameFields(a: Account, b: Account)
  {
    a.name == b.name && a.document == b.document && a.phone == b.phone
  }
}
