/** The DB2 lock builder: add records one LOCK TABLE statement per table, in a
    PHP array keyed by the prepared table name; acquire opens a transaction
    and runs them in the array's order; release commits or rolls back. */
module Db2Lock {
  import opened Wrappers
  import opened ConnectionLog
  import Text
  import LockCommon

  /** One element of the keyed array: the prepared table name and the text of
      its lock command. */
  datatype LockEntry = LockEntry(table: string, command: string)

  /** The keys of the array, in insertion order. */
  function Keys(data: seq<LockEntry>): (keys: seq<string>)
    ensures |keys| == |data|
    ensures forall i :: 0 <= i < |data| ==> keys[i] == data[i].table
  {
    seq(|data|, i requires 0 <= i < |data| => data[i].table)
  }

  /** A PHP array never holds a key twice. */
  predicate DistinctKeys(data: seq<LockEntry>) {
    forall i, j :: 0 <= i < j < |data| ==> data[i].table != data[j].table
  }

  /** The position of `key` in the array, if it is there. */
  function Find(data: seq<LockEntry>, key: string): (r: Option<nat>)
    ensures r.Some? ==> r.value < |data| && data[r.value].table == key
    ensures r.Some? ==> forall j :: 0 <= j < r.value ==> data[j].table != key
    ensures r.None? ==> forall j :: 0 <= j < |data| ==> data[j].table != key
  {
    if data == [] then None
    else if data[0].table == key then Some(0)
    else match Find(data[1..], key)
      case None => None
      case Some(k) => Some(k + 1)
  }

  /** $this->data[$key], or NULL when the key is absent. */
  function Lookup(data: seq<LockEntry>, key: string): Option<string> {
    match Find(data, key)
    case None => None
    case Some(i) => Some(data[i].command)
  }

  /** $this->data[$key] = $command: an existing key keeps its position and gets
      the new command; a new key goes at the end. */
  function Store(data: seq<LockEntry>, key: string, command: string): seq<LockEntry> {
    match Find(data, key)
    case Some(i) => data[i := LockEntry(key, command)]
    case None => data + [LockEntry(key, command)]
  }

  /** The statement add stores for a prepared table name and a mode. */
  function LockText(table: string, mode: string): string {
    "LOCK TABLE " + table + " IN " + (mode + " MODE;")
  }

  /** Storing keeps the keys distinct. */
  lemma StoreDistinct(data: seq<LockEntry>, key: string, command: string)
    requires DistinctKeys(data)
    ensures DistinctKeys(Store(data, key, command))
  {
  }

  /** Storing a key that is present keeps the order of the keys; storing a new
      key appends it. No other entry moves or changes. */
  lemma StoreKeepsOthers(data: seq<LockEntry>, key: string, command: string)
    ensures Find(data, key).Some? ==> Keys(Store(data, key, command)) == Keys(data)
    ensures Find(data, key).None? ==> Keys(Store(data, key, command)) == Keys(data) + [key]
    ensures forall j :: 0 <= j < |data| && data[j].table != key ==> Store(data, key, command)[j] == data[j]
  {
    var r := Store(data, key, command);
    if Find(data, key).None? {
      assert Keys(r) == Keys(data) + [key];
    } else {
      assert Keys(r) == Keys(data);
    }
  }

  /** After storing, the key maps to the new command. */
  lemma StoreThenLookup(data: seq<LockEntry>, key: string, command: string)
    ensures Lookup(Store(data, key, command), key) == Some(command)
  {
    var r := Store(data, key, command);
    match Find(data, key)
    case Some(i) =>
      assert r[i].table == key;
      assert Find(r, key) == Some(i);
    case None =>
      assert r[|data|].table == key;
      assert Find(r, key) == Some(|data|);
  }

  /** Storing under one key leaves the commands of all other keys as they were. */
  lemma StoreLeavesOtherKeys(data: seq<LockEntry>, key: string, command: string, other: string)
    requires other != key
    ensures Lookup(Store(data, key, command), other) == Lookup(data, other)
  {
    var r := Store(data, key, command);
    StoreKeepsOthers(data, key, command);
    assert forall j :: 0 <= j < |data| ==> (r[j].table == other <==> data[j].table == other);
    match Find(data, other)
    case Some(i) =>
      assert r[i] == data[i];
      assert Find(r, other) == Some(i);
    case None =>
      assert forall j :: 0 <= j < |r| ==> r[j].table != other;
      assert Find(r, other) == None;
  }

  /** The events acquire produces for the stored commands, in array order. */
  function Executions(data: seq<LockEntry>): seq<Event> {
    if data == [] then [] else Executions(data[..|data| - 1]) + [Execute(data[|data| - 1].command)]
  }

  /** One Execute per stored command, at the command's own position. */
  lemma {:induction false} ExecutionsPerEntry(data: seq<LockEntry>)
    ensures |Executions(data)| == |data|
    ensures forall i :: 0 <= i < |data| ==> Executions(data)[i] == Execute(data[i].command)
    decreases |data|
  {
    if data != [] {
      ExecutionsPerEntry(data[..|data| - 1]);
    }
  }

  class Builder {
    /** the connection the builder locks on */
    const connection: Connection
    /** the precompiler's prepare_identifier: the quoting of a table name */
    const prepareIdentifier: string -> string
    /** the stored lock statements, keyed by prepared table name */
    var data: seq<LockEntry>

    ghost predicate Valid()
      reads this
    {
      DistinctKeys(data)
    }

    constructor(connection: Connection, prepareIdentifier: string -> string)
      ensures this.connection == connection && this.prepareIdentifier == prepareIdentifier
      ensures data == [] && Valid()
    {
      this.connection := connection;
      this.prepareIdentifier := prepareIdentifier;
      data := [];
    }

    /** add($table, $hints): resolves the mode and stores the statement under
        the prepared table name. */
    method Add(table: string, hints: Option<seq<string>>) returns (self: Builder)
      requires Valid()
      modifies this
      ensures self == this && Valid()
      ensures var t := prepareIdentifier(table);
        data == Store(old(data), t, LockText(t, LockCommon.ModeOf(hints, LockCommon.Db2Words)))
    {
      var t := prepareIdentifier(table);
      var text := "LOCK TABLE " + t + " IN ";
      var mode := LockCommon.ResolveMode(hints, LockCommon.Db2Words);
      text := text + (mode + " MODE;");
      StoreDistinct(data, t, text);
      data := Store(data, t, text);
      self := this;
    }

    /** acquire(): one begin, then one execute per stored statement. */
    method Acquire() returns (self: Builder)
      modifies connection
      ensures self == this
      ensures connection.log == old(connection.log) + [Begin] + Executions(data)
    {
      connection.BeginTransaction();
      for i := 0 to |data|
        invariant connection.log == old(connection.log) + [Begin] + Executions(data[..i])
      {
        assert data[..i + 1][..i] == data[..i];
        connection.Execute(data[i].command);
      }
      assert data[..|data|] == data;
      self := this;
    }

    /** release($method): exactly one commit or rollback. */
    method Release(methodName: string) returns (self: Builder)
      modifies connection
      ensures self == this
      ensures connection.log == old(connection.log) + [LockCommon.ReleaseEvent(methodName)]
    {
      LockCommon.Release(connection, methodName);
      self := this;
    }
  }

  /** A lock session: add 'users' with the hint 'share', acquire, then
      release('rollback'). The connection sees a begin, the one SHARE lock
      statement and a rollback. */
  method ShareLockSession(prepareIdentifier: string -> string) returns (log: seq<Event>)
    ensures log == [Begin, Execute(LockText(prepareIdentifier("users"), "SHARE")), Rollback]
  {
    var connection := new Connection();
    var builder := new Builder(connection, prepareIdentifier);
    var t := prepareIdentifier("users");
    var entry := LockEntry(t, LockText(t, "SHARE"));
    var _ := builder.Add("users", Some(["share"]));
    ShareHint();
    assert builder.data == [entry];
    var _ := builder.Acquire();
    assert Executions([entry]) == [Execute(entry.command)];
    assert connection.log == [Begin, Execute(entry.command)];
    var _ := builder.Release("rollback");
    LockCommon.ReleaseExamples();
    log := connection.log;
  }

  lemma ShareHint()
    ensures LockCommon.ModeOf(Some(["share"]), LockCommon.Db2Words) == "SHARE"
  {
    assert Text.Upper("share") == "SHARE";
    assert LockCommon.MatchesWord("share", LockCommon.Db2Words[1]);
  }

  /** Adding 'a', then 'b', then 'a' again leaves 'a' first, holding the later
      statement, and 'b' second. */
  lemma ReAddKeepsPosition(ca: string, cb: string, ca2: string)
    ensures Store(Store(Store([], "a", ca), "b", cb), "a", ca2) == [LockEntry("a", ca2), LockEntry("b", cb)]
  {
    assert Store([], "a", ca) == [LockEntry("a", ca)];
    assert Find([LockEntry("a", ca)], "b") == None;
    assert Store([LockEntry("a", ca)], "b", cb) == [LockEntry("a", ca), LockEntry("b", cb)];
    assert Find([LockEntry("a", ca), LockEntry("b", cb)], "a") == Some(0);
  }
}
