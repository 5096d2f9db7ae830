/** The tables as mutable state; a statement rewrites one of them. */
module Database {
  import opened Basics
  import opened Tables

  /** A method ran as the transaction `txn` of the state `before` prescribes; a failed one is rolled back. */
  ghost predicate Ran<T>(before: Db, txn: Txn<T>, after: Db, r: Result<T, Error>) {
    after == After(before, txn) && r == (if txn.Commit? then Ok(txn.value) else Err(txn.error))
  }

  class Database {
    var rows: Db

    constructor ()
      ensures rows == EMPTY_DB
    {
      rows := EMPTY_DB;
    }
  }
}
