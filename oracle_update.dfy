/** The Oracle UPDATE renderer. Oracle has no ORDER BY, LIMIT or OFFSET on
    UPDATE, so when any of them is present the renderer updates a subquery
    instead, and pages it with nested ROWNUM filters. */
module OracleUpdate {
  import opened Text
  import opened SqlBuilder

  /** The head of every SELECT the renderer writes. */
  const SelectFrom := "SELECT * FROM "

  /** The opening of the two-bound ROWNUM wrapper. */
  const TwoBoundOpen := SelectFrom + "(SELECT \"t0\".*, ROWNUM AS \"rn\" FROM ("

  /** The opening of the one-bound ROWNUM wrapper. */
  const OneBoundOpen := SelectFrom + "("

  /** Whether the renderer takes the subquery path. */
  predicate Paginated(d: BuilderData) {
    d.orderBy != [] || d.limit > 0 || d.offset > 0
  }

  /** The rows the two-bound wrapper keeps: ROWNUM up to `maxRow`, then "rn"
      from `minRow` on. */
  datatype Window = Window(maxRow: nat, minRow: nat)

  /** The row window of a limit and an offset that are both given: it starts at
      row `offset`, never ends before it starts, and holds exactly `limit`
      rows. */
  function RowWindow(limit: int, offset: int): (w: Window)
    requires limit > 0 && offset > 0
    ensures w.minRow == offset
    ensures w.minRow <= w.maxRow
    ensures w.maxRow - w.minRow + 1 == limit
  {
    Window(offset + (limit - 1), offset)
  }

  /** The inner query: the table with its WHERE list and ORDER BY, in that order. */
  function SelectText(d: BuilderData): string {
    SelectFrom + d.table + WhereClause(d.where) + OrderByClause(d.orderBy)
  }

  /** The ROWNUM wrapping of the inner query `q`: two nested filters when both
      bounds are given, one filter for a single bound, none otherwise. */
  function Paginate(q: string, limit: int, offset: int): string {
    if limit > 0 && offset > 0 then
      var w := RowWindow(limit, offset);
      TwoBoundOpen + q + ") \"t0\" WHERE ROWNUM <= "
      + Decimal(w.maxRow) + ") WHERE \"rn\" >= " + Decimal(w.minRow)
    else if limit > 0 then OneBoundOpen + q + ") WHERE ROWNUM <= " + Decimal(limit)
    else if offset > 0 then OneBoundOpen + q + ") WHERE ROWNUM >= " + Decimal(offset)
    else q
  }

  /** The text Builder::command renders for the builder data (and, in the older
      plugin, Builder::statement returns). */
  function UpdateText(d: BuilderData, terminated: bool): string {
    (if Paginated(d) then
       "UPDATE (" + Paginate(SelectText(d), d.limit, d.offset) + ")" + SetClause(d.columns)
     else
       "UPDATE " + d.table + SetClause(d.columns) + WhereClause(d.where))
    + Terminator(terminated)
  }

  /** Builder::command: builds the text by successive appends. */
  method Command(d: BuilderData, terminated: bool) returns (c: SqlBuilder.Command)
    ensures c.text == UpdateText(d, terminated)
  {
    var text: string;
    if d.orderBy != [] || d.limit > 0 || d.offset > 0 {
      text := InnerSelect(d);
      text := WrapRows(text, d.limit, d.offset);
      ghost var paged := text;
      text := "UPDATE (" + text + ")";
      if d.columns != [] {
        text := text + (" SET " + Implode(", ", d.columns));
      }
      assert text == "UPDATE (" + paged + ")" + SetClause(d.columns);
    } else {
      text := "UPDATE " + d.table;
      if d.columns != [] {
        text := text + (" SET " + Implode(", ", d.columns));
      }
      text := AppendWhere(text, d.where);
      assert text == "UPDATE " + d.table + SetClause(d.columns) + WhereClause(d.where);
    }
    ghost var unterminated := text;
    if terminated {
      text := text + ";";
    }
    assert text == unterminated + Terminator(terminated);
    c := SqlBuilder.Command(text);
  }

  /** The first steps of the subquery path: the table, the WHERE list, the
      ORDER BY list. */
  method InnerSelect(d: BuilderData) returns (text: string)
    ensures text == SelectText(d)
  {
    text := SelectFrom + d.table;
    text := AppendWhere(text, d.where);
    if d.orderBy != [] {
      text := text + (" ORDER BY " + Implode(", ", d.orderBy));
    }
  }

  /** The ROWNUM step of the subquery path: wraps the inner query according to
      which bounds are given. */
  method WrapRows(inner: string, limit: int, offset: int) returns (text: string)
    ensures text == Paginate(inner, limit, offset)
  {
    text := inner;
    if limit > 0 && offset > 0 {
      var maxRowToFetch := offset + (limit - 1);
      var minRowToFetch := offset;
      text := TwoBoundOpen + text + ") \"t0\" WHERE ROWNUM <= "
        + Decimal(maxRowToFetch) + ") WHERE \"rn\" >= " + Decimal(minRowToFetch);
    } else if limit > 0 {
      text := OneBoundOpen + text + ") WHERE ROWNUM <= " + Decimal(limit);
    } else if offset > 0 {
      text := OneBoundOpen + text + ") WHERE ROWNUM >= " + Decimal(offset);
    }
  }

  /** What the ROWNUM wrapping puts in front of the inner query. */
  function WindowOpen(limit: int, offset: int): string {
    if limit > 0 && offset > 0 then TwoBoundOpen
    else if limit > 0 || offset > 0 then OneBoundOpen
    else ""
  }

  /** What the ROWNUM wrapping puts after the inner query. */
  function WindowClose(limit: int, offset: int): string {
    if limit > 0 && offset > 0 then
      ") \"t0\" WHERE ROWNUM <= " + Decimal(offset + limit - 1) + ") WHERE \"rn\" >= " + Decimal(offset)
    else if limit > 0 then ") WHERE ROWNUM <= " + Decimal(limit)
    else if offset > 0 then ") WHERE ROWNUM >= " + Decimal(offset)
    else ""
  }

  /** The wrapping encloses the inner query unchanged: its opening and closing
      texts depend on the bounds alone. */
  lemma PaginateEncloses(q: string, limit: int, offset: int)
    ensures Paginate(q, limit, offset) == WindowOpen(limit, offset) + q + WindowClose(limit, offset)
  {
    if limit > 0 && offset > 0 {
      Regroup4(TwoBoundOpen + q, ") \"t0\" WHERE ROWNUM <= ", Decimal(offset + limit - 1), ") WHERE \"rn\" >= ",
        Decimal(offset));
    } else if limit > 0 {
      Assoc(OneBoundOpen + q, ") WHERE ROWNUM <= ", Decimal(limit));
    } else if offset > 0 {
      Assoc(OneBoundOpen + q, ") WHERE ROWNUM >= ", Decimal(offset));
    } else {
      AppendEmpty(q);
    }
  }

  /** Without ORDER BY, limit or offset the text is a plain UPDATE of the table
      with its SET and WHERE lists and no subquery. */
  lemma PlainUpdate(d: BuilderData)
    requires d.orderBy == [] && d.limit <= 0 && d.offset <= 0
    ensures UpdateText(d, false) == "UPDATE " + d.table + SetClause(d.columns) + WhereClause(d.where)
    ensures WindowOpen(d.limit, d.offset) == "" && WindowClose(d.limit, d.offset) == ""
  {
  }

  /** On the subquery path the text opens with 'UPDATE (SELECT * FROM ' and
      ends with the closing parenthesis and then the SET list; in between the
      ROWNUM wrapping encloses the inner query, which holds the table, the WHERE
      list and the ORDER BY (SelectLayout). */
  lemma PaginatedUpdate(d: BuilderData)
    requires Paginated(d)
    ensures UpdateText(d, false) ==
      "UPDATE (" + WindowOpen(d.limit, d.offset) + SelectText(d) + WindowClose(d.limit, d.offset) + ")"
      + SetClause(d.columns)
    ensures StartsWith(UpdateText(d, false), "UPDATE (" + SelectFrom)
  {
    PaginatedUpdateText(d);
    OpenedSelect(d);
    UpdateOfSelect(WindowOpen(d.limit, d.offset), SelectText(d), WindowClose(d.limit, d.offset), SetClause(d.columns));
  }

  lemma UpdateOfSelect(open: string, s: string, close: string, assignments: string)
    requires StartsWith(open + s, SelectFrom)
    ensures StartsWith("UPDATE (" + open + s + close + ")" + assignments, "UPDATE (" + SelectFrom)
  {
    var x := open + s;
    Assoc("UPDATE (", open, s);
    StartsWithPrepend("UPDATE (", x, SelectFrom);
    PrefixOfConcat("UPDATE (" + x, close);
    PrefixOfConcat("UPDATE (" + x + close, ")");
    PrefixOfConcat("UPDATE (" + x + close + ")", assignments);
    StartsWithTrans("UPDATE (" + x + close + ")" + assignments, "UPDATE (" + x + close + ")", "UPDATE (" + x + close);
    StartsWithTrans("UPDATE (" + x + close + ")" + assignments, "UPDATE (" + x + close, "UPDATE (" + x);
    StartsWithTrans("UPDATE (" + x + close + ")" + assignments, "UPDATE (" + x, "UPDATE (" + SelectFrom);
  }

  lemma PaginatedUpdateText(d: BuilderData)
    requires Paginated(d)
    ensures UpdateText(d, false) ==
      "UPDATE (" + WindowOpen(d.limit, d.offset) + SelectText(d) + WindowClose(d.limit, d.offset) + ")"
      + SetClause(d.columns)
  {
    var open, sel, close := WindowOpen(d.limit, d.offset), SelectText(d), WindowClose(d.limit, d.offset);
    PaginateEncloses(sel, d.limit, d.offset);
    Assoc("UPDATE (", open + sel, close);
    Assoc("UPDATE (", open, sel);
    AppendEmpty("UPDATE (" + Paginate(sel, d.limit, d.offset) + ")" + SetClause(d.columns));
  }

  /** The inner query starts with 'SELECT * FROM <table>', then the WHERE
      list, and ends with the ORDER BY. */
  lemma SelectLayout(d: BuilderData)
    ensures StartsWith(SelectText(d), SelectFrom + d.table + WhereClause(d.where))
    ensures EndsWith(SelectText(d), OrderByClause(d.orderBy))
    ensures StartsWith(SelectText(d), SelectFrom)
  {
    var head := SelectFrom + d.table + WhereClause(d.where);
    PrefixOfConcat(head, OrderByClause(d.orderBy));
    SuffixOfConcat(head, OrderByClause(d.orderBy));
    PrefixOfConcat(SelectFrom + d.table, WhereClause(d.where));
    PrefixOfConcat(SelectFrom, d.table);
    StartsWithTrans(head, SelectFrom + d.table, SelectFrom);
    StartsWithTrans(SelectText(d), head, SelectFrom);
  }

  lemma OpenedSelect(d: BuilderData)
    ensures StartsWith(WindowOpen(d.limit, d.offset) + SelectText(d), SelectFrom)
  {
    var open := WindowOpen(d.limit, d.offset);
    SelectLayout(d);
    if open != "" {
      WindowOpenings();
      StartsWithAppend(open, SelectText(d), SelectFrom);
    } else {
      AppendEmpty(SelectText(d));
    }
  }

  lemma WindowOpenings()
    ensures StartsWith(TwoBoundOpen, SelectFrom)
    ensures StartsWith(OneBoundOpen, SelectFrom)
  {
    PrefixOfConcat(SelectFrom, "(SELECT \"t0\".*, ROWNUM AS \"rn\" FROM (");
    PrefixOfConcat(SelectFrom, "(");
  }

  /** With a limit and an offset, the filters hold the numbers of the row
      window: read back from the text they are offset + limit - 1 and offset,
      which span exactly `limit` rows. */
  lemma BothBounds(d: BuilderData)
    requires d.limit > 0 && d.offset > 0
    ensures var maxText, minText := Decimal(d.offset + d.limit - 1), Decimal(d.offset);
      && WindowOpen(d.limit, d.offset) == TwoBoundOpen
      && WindowClose(d.limit, d.offset) == ") \"t0\" WHERE ROWNUM <= " + maxText + ") WHERE \"rn\" >= " + minText
      && ParseDecimal(minText) == d.offset
      && ParseDecimal(maxText) - ParseDecimal(minText) + 1 == d.limit
  {
    DecimalRoundTrip(d.offset + d.limit - 1);
    DecimalRoundTrip(d.offset);
  }

  /** A limit alone gives one wrapper, ROWNUM <= limit; an offset alone one
      wrapper, ROWNUM >= offset; ORDER BY alone none. */
  lemma SingleBound(d: BuilderData)
    ensures d.limit > 0 && d.offset <= 0 ==>
      WindowOpen(d.limit, d.offset) == OneBoundOpen &&
      WindowClose(d.limit, d.offset) == ") WHERE ROWNUM <= " + Decimal(d.limit) &&
      ParseDecimal(Decimal(d.limit)) == d.limit
    ensures d.limit <= 0 && d.offset > 0 ==>
      WindowOpen(d.limit, d.offset) == OneBoundOpen &&
      WindowClose(d.limit, d.offset) == ") WHERE ROWNUM >= " + Decimal(d.offset) &&
      ParseDecimal(Decimal(d.offset)) == d.offset
    ensures d.limit <= 0 && d.offset <= 0 && d.orderBy != [] ==>
      UpdateText(d, false) == "UPDATE (" + SelectText(d) + ")" + SetClause(d.columns)
  {
    if d.limit > 0 { DecimalRoundTrip(d.limit); }
    if d.offset > 0 { DecimalRoundTrip(d.offset); }
  }

  /** Terminating appends exactly one ';' to the unterminated text. */
  lemma TerminatedText(d: BuilderData)
    ensures UpdateText(d, true) == UpdateText(d, false) + ";"
  {
  }

  /** limit 10 and offset 20 fetch rows 20 to 29. */
  lemma WindowExample()
    ensures RowWindow(10, 20) == Window(29, 20)
    ensures WindowClose(10, 20) == ") \"t0\" WHERE ROWNUM <= 29) WHERE \"rn\" >= 20"
  {
  }
}
