/** What the statement builders accumulate, and the text fragments every
    dialect renderer of this model shares: the WHERE list joined with its
    connectors, the SET list and the ORDER BY list. */
module SqlBuilder {
  import opened Text

  /** The markers Builder::_OPENING_PARENTHESIS_ and Builder::_CLOSING_PARENTHESIS_
      that a where-block puts into the WHERE list. Their defining class is not
      part of this model; the renderers only ever compare fragments with them,
      and the two are distinct. */
  const OpeningParenthesis: string := "("
  const ClosingParenthesis: string := ")"

  /** One entry of $this->data['where']: [connector, fragment], where the
      fragment is an already rendered condition or a parenthesis marker. */
  datatype WhereEntry = WhereEntry(connector: string, fragment: string)

  /** $this->data of an update or delete builder. `table` is the update's
      'table' and the delete's 'from'; `columns` are the values of the
      'column' array (the SET assignments) in their order. */
  datatype BuilderData = BuilderData(
    table: string,
    columns: seq<string>,
    where: seq<WhereEntry>,
    orderBy: seq<string>,
    limit: int,
    offset: int)

  /** \Leap\Core\DB\SQL\Command: the rendered text. */
  datatype Command = Command(text: string)

  /** Whether a connector is written in front of entry `i`: never for the first
      entry, never right after an opening parenthesis, never in front of a
      closing one, and in every other case. */
  predicate ConnectorBefore(ws: seq<WhereEntry>, i: nat)
    requires i < |ws|
  {
    i > 0 && ws[i - 1].fragment != OpeningParenthesis && ws[i].fragment != ClosingParenthesis
  }

  /** The text entry `i` contributes: its connector padded with spaces when
      ConnectorBefore holds, then its fragment. */
  function Piece(ws: seq<WhereEntry>, i: nat): string
    requires i < |ws|
  {
    (if ConnectorBefore(ws, i) then " " + ws[i].connector + " " else "") + ws[i].fragment
  }

  /** The pieces of the first `n` entries, in insertion order. */
  function Pieces(ws: seq<WhereEntry>, n: nat): string
    requires n <= |ws|
  {
    if n == 0 then "" else Pieces(ws, n - 1) + Piece(ws, n - 1)
  }

  /** The joined WHERE list. */
  function WhereText(ws: seq<WhereEntry>): string {
    Pieces(ws, |ws|)
  }

  /** What the renderers append for the WHERE list: nothing when it is empty. */
  function WhereClause(ws: seq<WhereEntry>): string {
    if ws == [] then "" else " WHERE " + WhereText(ws)
  }

  function SetClause(columns: seq<string>): string {
    if columns == [] then "" else " SET " + Implode(", ", columns)
  }

  function OrderByClause(orderBy: seq<string>): string {
    if orderBy == [] then "" else " ORDER BY " + Implode(", ", orderBy)
  }

  function Terminator(terminated: bool): string {
    if terminated then ";" else ""
  }

  /** The WHERE-joining loop the renderers share: appends ' WHERE ' and then
      each entry, writing a connector only when the previous fragment was not
      an opening parenthesis and this one is not a closing parenthesis. */
  method AppendWhere(prefix: string, ws: seq<WhereEntry>) returns (text: string)
    ensures text == prefix + WhereClause(ws)
  {
    text := prefix;
    if |ws| > 0 {
      var append := false;
      text := text + " WHERE ";
      for i := 0 to |ws|
        invariant text == prefix + " WHERE " + Pieces(ws, i)
        invariant append == (i > 0 && ws[i - 1].fragment != OpeningParenthesis)
      {
        var entry := ws[i];
        ghost var before := text;
        ghost var gap := if ConnectorBefore(ws, i) then " " + entry.connector + " " else "";
        if append && entry.fragment != ClosingParenthesis {
          text := text + " " + entry.connector + " ";
          Assoc(before, " ", entry.connector);
          Assoc(before, " " + entry.connector, " ");
        }
        assert text == before + gap;
        text := text + entry.fragment;
        append := entry.fragment != OpeningParenthesis;
        Assoc(before, gap, entry.fragment);
        Assoc(prefix + " WHERE ", Pieces(ws, i), Piece(ws, i));
      }
      Assoc(prefix, " WHERE ", WhereText(ws));
    }
  }

  /** Adding an entry to a WHERE list adds exactly its own text at the end and
      leaves the text of the earlier entries as it was: fragments appear in
      insertion order, and the connector of the new entry appears iff the list
      was not empty, the last fragment is not an opening parenthesis and the new
      one is not a closing parenthesis. */
  lemma WhereTextSnoc(ws: seq<WhereEntry>, w: WhereEntry)
    ensures WhereText(ws + [w]) ==
      WhereText(ws)
      + (if |ws| > 0 && ws[|ws| - 1].fragment != OpeningParenthesis && w.fragment != ClosingParenthesis
         then " " + w.connector + " " else "")
      + w.fragment
  {
    PiecesPrefix(ws, [w], |ws|);
  }

  lemma {:induction false} PiecesPrefix(ws: seq<WhereEntry>, more: seq<WhereEntry>, n: nat)
    requires n <= |ws|
    ensures Pieces(ws + more, n) == Pieces(ws, n)
  {
    if n > 0 {
      PiecesPrefix(ws, more, n - 1);
      assert Piece(ws + more, n - 1) == Piece(ws, n - 1);
    }
  }

  /** The first entry's connector is never written: the text starts with the
      first fragment. */
  lemma {:induction false} WhereTextStartsWithFirstFragment(ws: seq<WhereEntry>)
    requires |ws| > 0
    ensures StartsWith(WhereText(ws), ws[0].fragment)
  {
    PiecesStartWithFirst(ws, |ws|);
  }

  lemma {:induction false} PiecesStartWithFirst(ws: seq<WhereEntry>, n: nat)
    requires 0 < n <= |ws|
    ensures StartsWith(Pieces(ws, n), ws[0].fragment)
  {
    if n > 1 {
      PiecesStartWithFirst(ws, n - 1);
      var p := Pieces(ws, n - 1);
      assert (p + Piece(ws, n - 1))[..|ws[0].fragment|] == p[..|ws[0].fragment|];
    }
  }

  function Fragments(ws: seq<WhereEntry>): (fs: seq<string>)
    ensures |fs| == |ws|
  {
    if ws == [] then [] else Fragments(ws[..|ws| - 1]) + [ws[|ws| - 1].fragment]
  }

  /** Without parenthesis markers and with one connector throughout, the joined
      WHERE list is PHP's implode of the fragments with ' <connector> '. */
  lemma {:induction false} FlatWhereIsImplode(ws: seq<WhereEntry>, connector: string)
    requires forall i :: 0 <= i < |ws| ==> ws[i].fragment != OpeningParenthesis && ws[i].fragment != ClosingParenthesis
    requires forall i :: 0 < i < |ws| ==> ws[i].connector == connector
    ensures WhereText(ws) == Implode(" " + connector + " ", Fragments(ws))
  {
    if ws != [] {
      var init, last := ws[..|ws| - 1], ws[|ws| - 1];
      assert ws == init + [last];
      FlatWhereIsImplode(init, connector);
      WhereTextSnoc(init, last);
    }
  }

  /** A connector is written in front of every entry except the first, the one
      after an opening parenthesis and a closing parenthesis: the text of the
      list is that of its first entries followed by ' <connector> ' and the last
      fragment exactly when the rule asks for it. */
  lemma ConnectorPlacement(ws: seq<WhereEntry>, i: nat)
    requires i < |ws|
    ensures i == 0 ==> Piece(ws, i) == ws[i].fragment
    ensures i > 0 && ws[i - 1].fragment == OpeningParenthesis ==> Piece(ws, i) == ws[i].fragment
    ensures ws[i].fragment == ClosingParenthesis ==> Piece(ws, i) == ws[i].fragment
    ensures i > 0 && ws[i - 1].fragment != OpeningParenthesis && ws[i].fragment != ClosingParenthesis ==>
      Piece(ws, i) == " " + ws[i].connector + " " + ws[i].fragment
  {
  }

  /** A parenthesised group: a OR (b AND c). */
  lemma GroupExample()
    ensures WhereText([
      WhereEntry("AND", "a"),
      WhereEntry("OR", OpeningParenthesis),
      WhereEntry("OR", "b"),
      WhereEntry("AND", "c"),
      WhereEntry("AND", ClosingParenthesis)]) == "a OR (b AND c)"
  {
    var ws := [
      WhereEntry("AND", "a"),
      WhereEntry("OR", OpeningParenthesis),
      WhereEntry("OR", "b"),
      WhereEntry("AND", "c"),
      WhereEntry("AND", ClosingParenthesis)];
    assert Pieces(ws, 1) == "a";
    assert Pieces(ws, 2) == "a OR (";
    assert Pieces(ws, 3) == "a OR (b";
    assert Pieces(ws, 4) == "a OR (b AND c";
  }
}
