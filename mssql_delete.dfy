/** The MS SQL DELETE renderer. MS SQL has no LIMIT on DELETE, so the renderer
    selects the rows to delete in a common table expression, limited with
    TOP n, and deletes from that. */
module MsSqlDelete {
  import opened Text
  import opened SqlBuilder

  /** The name of the common table expression: 't1' when the table is itself
      called 't0', 't0' otherwise, so that the two never coincide. */
  function Alias(from: string): (alias: string)
    ensures alias != from
    ensures alias == "t0" || alias == "t1"
    ensures |alias| == 2
  {
    if from == "t0" then "t1" else "t0"
  }

  /** ' TOP <limit>' for a positive limit, nothing otherwise. */
  function TopClause(limit: int): string {
    if limit > 0 then " TOP " + Decimal(limit) else ""
  }

  /** The text Builder::command renders. The offset plays no part. */
  function DeleteText(d: BuilderData, terminated: bool): string {
    var alias := Alias(d.table);
    "WITH " + alias + " AS (" + "SELECT" + TopClause(d.limit) + (" * FROM " + d.table)
    + WhereClause(d.where) + OrderByClause(d.orderBy) + (") DELETE FROM " + alias) + Terminator(terminated)
  }

  /** Builder::command: builds the text by successive appends. */
  method Command(d: BuilderData, terminated: bool) returns (c: SqlBuilder.Command)
    ensures c.text == DeleteText(d, terminated)
  {
    var alias := if d.table == "t0" then "t1" else "t0";
    var text := "WITH " + alias + " AS (";
    text := text + "SELECT";
    ghost var part := text;
    if d.limit > 0 {
      text := text + (" TOP " + Decimal(d.limit));
    }
    assert text == part + TopClause(d.limit);
    text := text + (" * FROM " + d.table);
    part := text;
    text := AppendWhere(text, d.where);
    assert text == part + WhereClause(d.where);
    part := text;
    if d.orderBy != [] {
      text := text + (" ORDER BY " + Implode(", ", d.orderBy));
    }
    assert text == part + OrderByClause(d.orderBy);
    text := text + (") DELETE FROM " + alias);
    part := text;
    if terminated {
      text := text + ";";
    }
    assert text == part + Terminator(terminated);
    c := SqlBuilder.Command(text);
  }

  /** The CTE head 'WITH <alias> AS (SELECT': 18 characters long whichever
      alias is chosen. */
  function Head(alias: string): (h: string)
    requires |alias| == 2
    ensures |h| == 18
  {
    "WITH " + alias + " AS (" + "SELECT"
  }

  /** The text begins with the head, the TOP clause and the table. */
  lemma OpensWithSelect(d: BuilderData, terminated: bool)
    ensures StartsWith(DeleteText(d, terminated), Head(Alias(d.table)) + TopClause(d.limit) + (" * FROM " + d.table))
  {
    PrefixChain(Head(Alias(d.table)) + TopClause(d.limit) + (" * FROM " + d.table), WhereClause(d.where),
      OrderByClause(d.orderBy), ") DELETE FROM " + Alias(d.table), Terminator(terminated));
  }

  /** Both occurrences of the alias are the same name: the one the CTE is
      declared under (characters 5 and 6 of the text) and the one the DELETE
      targets (the end of the unterminated text); and it is not the table's
      name. */
  lemma AliasOccurrences(d: BuilderData, terminated: bool)
    ensures DeleteText(d, terminated)[5..7] == Alias(d.table)
    ensures EndsWith(DeleteText(d, false), ") DELETE FROM " + Alias(d.table))
    ensures Alias(d.table) != d.table
  {
    var alias := Alias(d.table);
    var t := DeleteText(d, terminated);
    OpensWithSelect(d, terminated);
    var p := Head(alias) + TopClause(d.limit) + (" * FROM " + d.table);
    PrefixChain("WITH " + alias, " AS (", "SELECT", TopClause(d.limit), " * FROM " + d.table);
    StartsWithTrans(t, p, "WITH " + alias);
    SliceOfPrefix(t, "WITH " + alias, 5, 7);
    SliceAfter("WITH ", alias, 0, 2);
    var u := "WITH " + alias + " AS (" + "SELECT" + TopClause(d.limit) + (" * FROM " + d.table)
      + WhereClause(d.where) + OrderByClause(d.orderBy);
    SuffixOfConcat(u, ") DELETE FROM " + alias);
    AppendEmpty(u + (") DELETE FROM " + alias));
  }

  /** With a positive limit, ' TOP <limit>' follows 'SELECT'. */
  lemma TopAfterSelect(d: BuilderData, terminated: bool)
    requires d.limit > 0
    ensures DeleteText(d, terminated)[18..23 + |Decimal(d.limit)|] == " TOP " + Decimal(d.limit)
    ensures DeleteText(d, terminated)[18..23] == " TOP "
  {
    var t, head, top := DeleteText(d, terminated), Head(Alias(d.table)), " TOP " + Decimal(d.limit);
    OpensWithSelect(d, terminated);
    PrefixOfConcat(head + top, " * FROM " + d.table);
    StartsWithTrans(t, head + top + (" * FROM " + d.table), head + top);
    SliceOfPrefix(t, head + top, 18, 18 + |top|);
    SliceAfter(head, top, 0, |top|);
    assert top[0..|top|] == top;
    PrefixOfConcat(" TOP ", Decimal(d.limit));
    assert t[18..23] == t[18..18 + |top|][..5];
  }

  /** Without a positive limit, the star follows 'SELECT' directly. */
  lemma StarAfterSelect(d: BuilderData, terminated: bool)
    requires d.limit <= 0
    ensures DeleteText(d, terminated)[18..26] == " * FROM "
    ensures DeleteText(d, terminated)[18..23] == " * FR"
  {
    var t, head, from := DeleteText(d, terminated), Head(Alias(d.table)), " * FROM " + d.table;
    OpensWithSelect(d, terminated);
    AppendEmpty(head);
    assert head + TopClause(d.limit) + from == head + from;
    SliceOfPrefix(t, head + from, 18, 26);
    SliceAfter(head, from, 0, 8);
    PrefixOfConcat(" * FROM ", d.table);
    assert from[0..8] == " * FROM ";
    assert t[18..23] == t[18..26][..5];
  }

  /** ' TOP ' follows 'SELECT' exactly when the limit is positive. */
  lemma TopIffPositiveLimit(d: BuilderData, terminated: bool)
    ensures DeleteText(d, terminated)[18..23] == " TOP " <==> d.limit > 0
  {
    if d.limit > 0 {
      TopAfterSelect(d, terminated);
    } else {
      StarAfterSelect(d, terminated);
      assert " * FR" != " TOP " by { assert " * FR"[1] == '*'; }
    }
  }

  /** The offset has no influence on the text. */
  lemma OffsetIgnored(d: BuilderData, offset: int, terminated: bool)
    ensures DeleteText(d.(offset := offset), terminated) == DeleteText(d, terminated)
  {
  }

  /** Terminating appends exactly one ';' to the unterminated text. */
  lemma TerminatedText(d: BuilderData)
    ensures DeleteText(d, true) == DeleteText(d, false) + ";"
  {
  }
}
