/** The SQLite lock builder. SQLite locks the whole database, so add ignores
    the table and keeps a single BEGIN ... TRANSACTION statement in slot 0 of
    its data array; acquire runs that statement; release commits or rolls
    back. */
module SqliteLock {
  import opened Wrappers
  import opened ConnectionLog
  import Text
  import LockCommon

  /** The statement add stores for a mode. */
  function BeginText(mode: string): string {
    "BEGIN " + mode + " TRANSACTION;"
  }

  /** The data array after add($table, $hints): slot 0 overwritten. */
  function Added(data: map<int, string>, hints: Option<seq<string>>): (r: map<int, string>)
    ensures r.Keys == data.Keys + {0}
    ensures forall k :: k in data && k != 0 ==> k in r && r[k] == data[k]
  {
    data[0 := BeginText(LockCommon.ModeOf(hints, LockCommon.SqliteWords))]
  }

  /** The event acquire produces: executing slot 0, or executing NULL when no
      statement was ever added. */
  function AcquireEvent(data: map<int, string>): (e: Event)
    ensures 0 in data ==> e == Execute(data[0])
    ensures 0 !in data ==> e == ExecuteNull
  {
    if 0 in data then Execute(data[0]) else ExecuteNull
  }

  /** Of several adds only the last one's hints matter: it overwrites the slot
      whatever the earlier ones left there. */
  lemma {:induction false} LastAddWins(data: map<int, string>, earlier: seq<Option<seq<string>>>, last: Option<seq<string>>)
    ensures AddAll(data, earlier + [last]) == Added(data, last)
    decreases |earlier|
  {
    if earlier != [] {
      assert (earlier + [last])[1..] == earlier[1..] + [last];
      LastAddWins(Added(data, earlier[0]), earlier[1..], last);
    }
  }

  /** The data array after a sequence of adds, first to last. */
  function AddAll(data: map<int, string>, calls: seq<Option<seq<string>>>): map<int, string>
    decreases |calls|
  {
    if calls == [] then data else AddAll(Added(data, calls[0]), calls[1..])
  }

  /** Starting from an empty array, any non-empty sequence of adds leaves
      exactly one stored statement. */
  lemma OneStatement(calls: seq<Option<seq<string>>>)
    requires calls != []
    ensures AddAll(map[], calls).Keys == {0}
  {
    assert calls == calls[..|calls| - 1] + [calls[|calls| - 1]];
    LastAddWins(map[], calls[..|calls| - 1], calls[|calls| - 1]);
  }

  class Builder {
    /** the connection the builder locks on */
    const connection: Connection
    /** the data array; only slot 0 is ever written */
    var data: map<int, string>

    ghost predicate Valid()
      reads this
    {
      data.Keys <= {0}
    }

    constructor(connection: Connection)
      ensures this.connection == connection
      ensures data == map[] && Valid()
    {
      this.connection := connection;
      data := map[];
    }

    /** add($table, $hints): resolves the mode and overwrites slot 0; the
        table plays no part. */
    method Add(table: string, hints: Option<seq<string>>) returns (self: Builder)
      requires Valid()
      modifies this
      ensures self == this && Valid()
      ensures data == Added(old(data), hints)
      ensures data.Keys == {0} && data[0] == BeginText(LockCommon.ModeOf(hints, LockCommon.SqliteWords))
    {
      var mode := LockCommon.ResolveMode(hints, LockCommon.SqliteWords);
      data := data[0 := "BEGIN " + mode + " TRANSACTION;"];
      self := this;
    }

    /** acquire(): executes slot 0, with no separate begin. */
    method Acquire() returns (self: Builder)
      modifies connection
      ensures self == this
      ensures connection.log == old(connection.log) + [AcquireEvent(data)]
    {
      if 0 in data {
        connection.Execute(data[0]);
      } else {
        connection.ExecuteNull();
      }
      self := this;
    }

    /** release($method): exactly one commit or rollback. */
    method Release(methodName: string) returns (self: Builder)
      modifies connection
      ensures self == this
      ensures connection.log == old(connection.log) + [LockCommon.ReleaseEvent(methodName)]
    {
      LockCommon.Release(connection, methodName);
      self := this;
    }
  }

  /** A lock session: add with the hint 'deferred', then with 'immediate',
      acquire, then release(). The connection sees the one statement of the
      later add and a commit. */
  method DeferredThenImmediateSession() returns (log: seq<Event>)
    ensures log == [Execute(BeginText("IMMEDIATE")), Commit]
  {
    var connection := new Connection();
    var builder := new Builder(connection);
    var _ := builder.Add("users", Some(["deferred"]));
    var _ := builder.Add("roles", Some(["immediate"]));
    ghost var afterAdds := builder.data;
    var _ := builder.Acquire();
    var _ := builder.Release("");
    log := connection.log;
    TwoAdds(afterAdds);
    LockCommon.ReleaseExamples();
  }

  /** Whatever the first add left, the second one's IMMEDIATE statement is
      what slot 0 holds. */
  lemma TwoAdds(data: map<int, string>)
    requires data == Added(Added(map[], Some(["deferred"])), Some(["immediate"]))
    ensures AcquireEvent(data) == Execute(BeginText("IMMEDIATE"))
  {
    ImmediateHint();
  }

  /** Acquiring without any add executes NULL. */
  method AcquireWithoutAdd() returns (log: seq<Event>)
    ensures log == [ExecuteNull]
  {
    var connection := new Connection();
    var builder := new Builder(connection);
    var _ := builder.Acquire();
    log := connection.log;
  }

  lemma ImmediateHint()
    ensures LockCommon.ModeOf(Some(["immediate"]), LockCommon.SqliteWords) == "IMMEDIATE"
  {
    assert Text.Upper("immediate") == "IMMEDIATE";
    assert LockCommon.MatchesWord("immediate", LockCommon.SqliteWords[1]);
  }
}
