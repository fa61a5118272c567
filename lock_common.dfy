/** What the DB2 and SQLite lock builders share: choosing a lock mode from a
    list of hints, and ending the transaction on release. */
module LockCommon {
  import opened Wrappers
  import opened Text
  import opened ConnectionLog

  /** The mode used when no hint selects one. */
  const DefaultMode := "EXCLUSIVE"

  /** The hint words DB2's add accepts. */
  const Db2Words: seq<string> := ["EXCLUSIVE", "SHARE"]

  /** The hint words SQLite's add accepts. */
  const SqliteWords: seq<string> := ["EXCLUSIVE", "IMMEDIATE", "DEFERRED"]

  /** The hint matches the case-insensitive PCRE pattern /^(word)$/i. The
      anchor `$` also matches just before a final newline, so the word
      followed by "\n" matches too. The words are upper-case ASCII, so
      comparing the upper-cased hint decides the case-insensitive match. */
  predicate MatchesWord(hint: string, word: string) {
    Upper(hint) == word || Upper(hint) == word + "\n"
  }

  /** The hint matches one of the accepted words. */
  predicate Accepted(hint: string, words: seq<string>) {
    exists i :: 0 <= i < |words| && MatchesWord(hint, words[i])
  }

  /** The mode after scanning `hints` in order from the default: each accepted
      hint replaces the mode by its upper-cased self. */
  function Mode(hints: seq<string>, words: seq<string>): string {
    if hints == [] then DefaultMode
    else if Accepted(hints[|hints| - 1], words) then Upper(hints[|hints| - 1])
    else Mode(hints[..|hints| - 1], words)
  }

  /** The mode for add's optional hints: NULL selects the default. */
  function ModeOf(hints: Option<seq<string>>, words: seq<string>): string {
    match hints
    case None => DefaultMode
    case Some(hs) => Mode(hs, words)
  }

  /** The hint loop of add: starts from EXCLUSIVE and lets every matching hint
      overwrite the mode. */
  method ResolveMode(hints: Option<seq<string>>, words: seq<string>) returns (mode: string)
    ensures mode == ModeOf(hints, words)
  {
    mode := DefaultMode;
    if hints.Some? {
      var hs := hints.value;
      for i := 0 to |hs|
        invariant mode == Mode(hs[..i], words)
      {
        assert hs[..i + 1][..i] == hs[..i];
        if Accepted(hs[i], words) {
          mode := Upper(hs[i]);
        }
      }
      assert hs[..|hs|] == hs;
    }
  }

  /** The last accepted hint decides the mode: hints after it, whatever they
      say, change nothing. */
  lemma {:induction false} LastAcceptedWins(hints: seq<string>, words: seq<string>, k: nat)
    requires k < |hints| && Accepted(hints[k], words)
    requires forall j :: k < j < |hints| ==> !Accepted(hints[j], words)
    ensures Mode(hints, words) == Upper(hints[k])
    decreases |hints|
  {
    if k < |hints| - 1 {
      var init := hints[..|hints| - 1];
      assert forall j :: k < j < |init| ==> init[j] == hints[j];
      LastAcceptedWins(init, words, k);
    }
  }

  /** Without an accepted hint the mode stays EXCLUSIVE, for an empty list as
      for one whose hints all fail to match. */
  lemma {:induction false} NoAcceptedHint(hints: seq<string>, words: seq<string>)
    requires forall j :: 0 <= j < |hints| ==> !Accepted(hints[j], words)
    ensures Mode(hints, words) == DefaultMode
    decreases |hints|
  {
    if hints != [] {
      var init := hints[..|hints| - 1];
      assert forall j :: 0 <= j < |init| ==> init[j] == hints[j];
      NoAcceptedHint(init, words);
    }
  }

  /** The mode is the default or one of the accepted words, possibly followed
      by the newline the pattern's anchor lets through. */
  lemma {:induction false} ModeIsListed(hints: seq<string>, words: seq<string>)
    ensures Mode(hints, words) == DefaultMode
         || exists i :: 0 <= i < |words| && (Mode(hints, words) == words[i] || Mode(hints, words) == words[i] + "\n")
    decreases |hints|
  {
    if hints != [] && !Accepted(hints[|hints| - 1], words) {
      ModeIsListed(hints[..|hints| - 1], words);
    }
  }

  /** A hint whose length fits none of the words (nor a word plus newline) is
      ignored: in particular a string that merely contains a word, such as
      'IN SHARE MODE'. */
  lemma LengthMismatchIgnored(hint: string, words: seq<string>)
    requires forall i :: 0 <= i < |words| ==> |hint| != |words[i]| && |hint| != |words[i]| + 1
    ensures !Accepted(hint, words)
  {
  }

  /** The end of the transaction release($method) chooses: rollback exactly when
      the upper-cased method is 'ROLLBACK'; commit for 'COMMIT', for the default
      '' and for anything else. */
  function ReleaseEvent(methodName: string): (e: Event)
    ensures e == Rollback <==> Upper(methodName) == "ROLLBACK"
    ensures e == Commit <==> Upper(methodName) != "ROLLBACK"
  {
    if Upper(methodName) == "ROLLBACK" then Rollback else Commit
  }

  /** The release switch, on the builder's connection. */
  method Release(connection: Connection, methodName: string)
    modifies connection
    ensures connection.log == old(connection.log) + [ReleaseEvent(methodName)]
  {
    if Upper(methodName) == "ROLLBACK" {
      connection.Rollback();
    } else {
      connection.Commit();
    }
  }

  /** release('') and release('commit') commit; release('rollback') rolls
      back whatever its case; a near miss such as 'rollback ' commits. */
  lemma ReleaseExamples()
    ensures ReleaseEvent("") == Commit
    ensures ReleaseEvent("commit") == Commit
    ensures ReleaseEvent("rollback") == Rollback && ReleaseEvent("RollBack") == Rollback
    ensures ReleaseEvent("rollback ") == Commit
  {
    assert Upper("rollback") == "ROLLBACK";
    assert Upper("RollBack") == "ROLLBACK";
  }

  /** DB2: of 'share' then 'exclusive', the later wins whatever its case. */
  lemma Db2LaterHintWins()
    ensures Mode(["share", "exclusive"], Db2Words) == "EXCLUSIVE"
  {
    assert Upper("exclusive") == "EXCLUSIVE";
    assert MatchesWord("exclusive", Db2Words[0]);
    LastAcceptedWins(["share", "exclusive"], Db2Words, 1);
  }

  /** DB2: a mixed-case 'Share' after 'exclusive' selects SHARE. */
  lemma Db2ShareSelected()
    ensures Mode(["exclusive", "Share"], Db2Words) == "SHARE"
  {
    assert Upper("Share") == "SHARE";
    assert MatchesWord("Share", Db2Words[1]);
    LastAcceptedWins(["exclusive", "Share"], Db2Words, 1);
  }

  /** DB2: a hint that only contains a word is ignored, and so are missing
      hints. */
  lemma Db2DefaultMode()
    ensures Mode(["IN SHARE MODE"], Db2Words) == DefaultMode
    ensures ModeOf(None, Db2Words) == DefaultMode && Mode([], Db2Words) == DefaultMode
  {
    LengthMismatchIgnored("IN SHARE MODE", Db2Words);
    NoAcceptedHint(["IN SHARE MODE"], Db2Words);
  }

  /** SQLite: 'SHARE' is not one of its words, 'deferred' is. */
  lemma SqliteExamples()
    ensures Mode(["SHARE"], SqliteWords) == DefaultMode
    ensures Mode(["immediate", "SHARE"], SqliteWords) == "IMMEDIATE"
  {
    LengthMismatchIgnored("SHARE", SqliteWords);
    NoAcceptedHint(["SHARE"], SqliteWords);
    assert Upper("immediate") == "IMMEDIATE";
    assert MatchesWord("immediate", SqliteWords[1]);
    var hs := ["immediate", "SHARE"];
    assert hs[1] == "SHARE";
    LastAcceptedWins(hs, SqliteWords, 0);
  }
}
