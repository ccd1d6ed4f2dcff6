/**
 * The account store as the HTTP layer sees it: the Storage interface, with the rows
 * of the account table as a map from id to account and a fault standing for a
 * database that answers every query with an error.
 */
module Storage {
  import opened Wrappers

  /** One row of the account table. */
  datatype Account = Account(
    id: int,
    firstName: string,
    lastName: string,
    number: int,
    balance: int,
    createdAt: int)

  /** The table, keyed by id, and the error (if any) that every query currently fails with. */
  datatype Store = Store(accounts: map<int, Account>, fault: Option<string>)

  /** database/sql's error when a single-row query finds no row. */
  const ErrNoRows: string := "sql: no rows in result set"

  /** Every row sits under its own id. */
  predicate Consistent(s: Store)
  {
    forall id :: id in s.accounts ==> s.accounts[id].id == id
  }

  /**
   * GetAccountByID: the row stored under id. It fails with the store's fault when the
   * database is failing, and with ErrNoRows when there is no such row.
   */
  function GetAccountByID(s: Store, id: int): (r: Result<Account, string>)
    ensures r.Success? <==> s.fault.None? && id in s.accounts
    ensures r.Success? ==> r.value == s.accounts[id]
    ensures r.Failure? ==> r.error == (if s.fault.Some? then s.fault.value else ErrNoRows)
  {
    if s.fault.Some? then Failure(s.fault.value)
    else if id !in s.accounts then Failure(ErrNoRows)
    else Success(s.accounts[id])
  }

  /**
   * DeleteAccount: afterwards no row has this id and every other row is unchanged.
   * Deleting an id that has no row succeeds; a failing database deletes nothing and
   * returns its error.
   */
  function DeleteAccount(s: Store, id: int): (r: (Store, Option<string>))
    ensures r.1 == s.fault
    ensures r.1.None? ==> r.0 == Store(s.accounts - {id}, s.fault) && id !in r.0.accounts
    ensures r.1.Some? ==> r.0 == s
    ensures Consistent(s) ==> Consistent(r.0)
  {
    if s.fault.Some? then (s, s.fault)
    else (Store(s.accounts - {id}, None), None)
  }
}
