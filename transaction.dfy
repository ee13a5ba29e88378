/** A pooled mysql2 connection as the models use it: `beginTransaction`,
    statements that change the tables, `commit`, `rollback` and `release`.
    The tables are an abstract state `S`; what a statement does to them is
    given by the model that sends it, and whether the server rejects it is an
    input. A rejected statement changes nothing (statement atomicity). */
module Transaction {

  class Connection<S> {
    /** The tables as every other connection sees them. */
    var committed: S
    /** The tables as this connection sees them, its own uncommitted
        changes included. */
    var working: S
    var inTransaction: bool
    /** Taken from the pool and not yet given back. */
    var held: bool

    /** Outside a transaction this connection sees the committed tables. */
    ghost predicate Valid()
      reads this
    {
      !inTransaction ==> working == committed
    }

    /** `db.getConnection()` */
    constructor (tables: S)
      ensures Valid() && committed == working == tables && !inTransaction && held
    {
      committed := tables;
      working := tables;
      inTransaction := false;
      held := true;
    }

    /** `connection.beginTransaction()` */
    method BeginTransaction()
      requires Valid() && held && !inTransaction
      modifies this
      ensures Valid() && held && inTransaction
      ensures committed == working == old(committed)
    {
      inTransaction := true;
    }

    /** `connection.query(...)` inside the transaction: the statement's effect
        on this connection's tables, or nothing when the server rejects it. */
    method Run(effect: S -> S, rejected: bool) returns (ok: bool)
      requires Valid() && held && inTransaction
      modifies this
      ensures Valid() && held && inTransaction && committed == old(committed)
      ensures ok == !rejected
      ensures working == if ok then effect(old(working)) else old(working)
    {
      ok := !rejected;
      if ok {
        working := effect(working);
      }
    }

    /** `connection.commit()`: the changes become everyone's. */
    method Commit()
      requires Valid() && held && inTransaction
      modifies this
      ensures Valid() && held && !inTransaction
      ensures committed == working == old(working)
    {
      committed := working;
      inTransaction := false;
    }

    /** `connection.rollback()`: the changes are dropped. */
    method Rollback()
      requires Valid() && held
      modifies this
      ensures Valid() && held && !inTransaction
      ensures committed == working == old(committed)
    {
      working := committed;
      inTransaction := false;
    }

    /** `connection.release()` */
    method Release()
      requires Valid() && held
      modifies this
      ensures Valid() && !held
      ensures committed == old(committed) && working == old(working) && inTransaction == old(inTransaction)
    {
      held := false;
    }
  }
}
