/** The older Oracle UPDATE plugin (src/classes/Leap/Plugins): the same
    algorithm as OracleUpdate.Command, returning the text itself rather than a
    Command. */
module OracleUpdateLegacy {
  import opened Text
  import opened SqlBuilder
  import OracleUpdate

  /** Builder::statement: for the same builder data it returns exactly the text
      that the newer plugin's Builder::command wraps in its Command. */
  method Statement(d: BuilderData, terminated: bool) returns (sql: string)
    ensures sql == OracleUpdate.UpdateText(d, terminated)
  {
    if d.orderBy != [] || d.limit > 0 || d.offset > 0 {
      sql := OracleUpdate.InnerSelect(d);
      sql := OracleUpdate.WrapRows(sql, d.limit, d.offset);
      ghost var paged := sql;
      sql := "UPDATE (" + sql + ")";
      if d.columns != [] {
        sql := sql + (" SET " + Implode(", ", d.columns));
      }
      assert sql == "UPDATE (" + paged + ")" + SetClause(d.columns);
    } else {
      sql := "UPDATE " + d.table;
      if d.columns != [] {
        sql := sql + (" SET " + Implode(", ", d.columns));
      }
      sql := AppendWhere(sql, d.where);
      assert sql == "UPDATE " + d.table + SetClause(d.columns) + WhereClause(d.where);
    }
    ghost var unterminated := sql;
    if terminated {
      sql := sql + ";";
    }
    assert sql == unterminated + Terminator(terminated);
  }
}
