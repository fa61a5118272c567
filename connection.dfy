/** The database connection a lock builder drives, seen only through the calls
    made on it: every call appends one event to an append-only log. What the
    database does in response is not part of this model. */
module ConnectionLog {

  datatype Event =
    | Begin
    | Execute(text: string)
      /** execute() handed PHP NULL instead of a command */
    | ExecuteNull
    | Commit
    | Rollback

  class Connection {
    var log: seq<Event>

    constructor()
      ensures log == []
    {
      log := [];
    }

    /** begin_transaction() */
    method BeginTransaction()
      modifies this
      ensures log == old(log) + [Begin]
    {
      log := log + [Begin];
    }

    /** execute($command) */
    method Execute(text: string)
      modifies this
      ensures log == old(log) + [Event.Execute(text)]
    {
      log := log + [Event.Execute(text)];
    }

    /** execute(NULL) */
    method ExecuteNull()
      modifies this
      ensures log == old(log) + [Event.ExecuteNull]
    {
      log := log + [Event.ExecuteNull];
    }

    /** commit() */
    method Commit()
      modifies this
      ensures log == old(log) + [Event.Commit]
    {
      log := log + [Event.Commit];
    }

    /** rollback() */
    method Rollback()
      modifies this
      ensures log == old(log) + [Event.Rollback]
    {
      log := log + [Event.Rollback];
    }
  }
}
