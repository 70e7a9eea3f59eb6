/** The rules of the rewriter, each on the tokens as they are written in the statement. */
module SqlRules {
  import opened Letters
  import opened SqlFolding
  import opened SqlMarkers
  import opened SqlRewrite
  import opened SqlTexts
  import opened SqlTokens
  import opened Wrappers

  // ---------- tokens the rules look at ----------

  /** Two dashes, or a slash and a star. */
  predicate OpensComment(s: string) {
    |s| >= 2 && ((s[0] == '-' && s[1] == '-') || (s[0] == '/' && s[1] == '*'))
  }

  predicate Counts(t: Token) {
    t.kind == Word || t.kind == Symbol || (t.kind == Protected && !OpensComment(t.text))
  }

  lemma CountsMeans(t: Token)
    ensures Meaningful(t) <==> Counts(t)
  {
    CommentOpens(t.text);
    hide IsComment, OpensComment;
  }

  lemma CommentOpens(s: string)
    ensures IsComment(s) <==> OpensComment(s)
  {
    if |s| >= 2 {
      var two := s[0..2];
      assert two[0] == s[0] && two[1] == s[1];
      if s[0] == '-' && s[1] == '-' { assert two == "--"; }
      if s[0] == '/' && s[1] == '*' { assert two == "/*"; }
    }
  }

  /** The rules look, in order, at words, symbols, strings and quoted names: at everything but
      white space and comments. */
  lemma SignificantTokens(lexed: Lexed)
    ensures forall j :: 0 <= j < Significants(lexed) ==> Start(lexed).sig[j] < |lexed| && Counts(lexed[Start(lexed).sig[j]])
    ensures forall j, k :: 0 <= j < k < Significants(lexed) ==> Start(lexed).sig[j] < Start(lexed).sig[k]
    ensures forall p :: 0 <= p < |lexed| && Counts(lexed[p]) ==> p in Start(lexed).sig
  {
    SignificantInOrder(lexed, 0);
    forall p | 0 <= p < |lexed| ensures Meaningful(lexed[p]) <==> Counts(lexed[p]) { CountsMeans(lexed[p]); }
    hide Significant, Meaningful, Counts;
  }

  // ---------- words the rules look for ----------

  predicate Telling(u: string) {
    Introduces(u) || u == "AS" || u == "DO" || u == "OFFSET" || u == "LIMIT"
  }

  predicate TellingStart(first: char, second: char) {
    first == 'F' || first == 'J' || first == 'I' || first == 'U' || first == 'R' || first == 'A' || first == 'D' || first == 'O'
    || (first == 'L' && second == 'I')
  }

  lemma TellingLetters(u: string)
    requires Telling(u)
    ensures |u| >= 2 && TellingStart(u[0], u[1])
  {
  }

  /** Nothing the rules write is one of these words. */
  lemma TellingIsWritten(s: string)
    requires Telling(Upper(s))
    ensures |s| >= 2 && s != MARKER && !(s[0] == 'l' && s[1] == 'o') && s[0] != '"' && s[0] != 'g' && s[0] != '$'
  {
    hide Upper, UpperChar, Telling, TellingStart, MARKER;
    TellingLetters(Upper(s));
    UpperPointwise(s, Upper(s));
    StartsApart(s[0], s[1]);
    MarkerStart();
  }

  lemma MarkerStart()
    ensures |MARKER| == 15 && MARKER[0] == 'L' && MARKER[1] == 'O'
  {
  }

  lemma WordsTell()
    ensures Telling("UPDATE") && Telling("INTO") && Telling("DO") && Telling("AS")
  {
  }

  lemma StartsApart(c: char, d: char)
    requires TellingStart(UpperChar(c), UpperChar(d))
    ensures c != '"' && c != 'g' && c != '$' && !(c == 'l' && d == 'o') && !(c == 'L' && d == 'O')
  {
  }

  // ---------- tokens the first loops leave alone ----------

  /** Part of INSERT OR IGNORE or of a folded comparison. */
  predicate Taken(lexed: Lexed, j: nat) {
    var w := Start(lexed);
    Dropped(lexed, j) || Folded(lexed, j) || ComparedBefore(w, j, |w.sig|) || CollationBefore(w, j, |w.sig|)
  }

  lemma ColumnIsTaken(lexed: Lexed, j: nat)
    requires j < Significants(lexed) && Collates(Start(lexed), j)
    ensures Folded(lexed, j)
  {
    hide Collates, Start;
    assert NameStart(Start(lexed), j) <= j;
  }

  lemma SettledPlain(lexed: Lexed, j: nat)
    requires j < Significants(lexed) && !Taken(lexed, j)
    ensures Settled(lexed, j) == Input(lexed, j)
  {
    hide Collates, Start, FoldedBefore, Dropped;
    if Collates(Start(lexed), j) { ColumnIsTaken(lexed, j); }
  }

  lemma SettledTaken(lexed: Lexed, j: nat)
    requires j < Significants(lexed) && Taken(lexed, j)
    ensures Settled(lexed, j) == "" || Settled(lexed, j) == MARKER
      || (|Settled(lexed, j)| >= 6 && Settled(lexed, j)[0] == 'l' && Settled(lexed, j)[1] == 'o')
  {
    hide Collates, Start, FoldedBefore, Dropped, NameText, NameStart, CollationBefore, ComparedBefore;
    assert "lower("[0] == 'l' && "lower("[1] == 'o';
  }

  lemma SettledTells(lexed: Lexed, j: nat)
    ensures Telling(Upper(Settled(lexed, j))) <==> j < Significants(lexed) && !Taken(lexed, j) && Telling(Upper(Input(lexed, j)))
    ensures j < Significants(lexed) && !Taken(lexed, j) ==> Settled(lexed, j) == Input(lexed, j)
  {
    hide Telling, Taken, Upper;
    if j < Significants(lexed) {
      if Taken(lexed, j) {
        SettledTaken(lexed, j);
        if Telling(Upper(Settled(lexed, j))) { TellingIsWritten(Settled(lexed, j)); }
      } else {
        SettledPlain(lexed, j);
      }
    } else if Telling(Upper(Settled(lexed, j))) {
      TellingIsWritten(Settled(lexed, j));
    }
  }

  /** The minus and the one of LIMIT -1. */
  predicate Digit(s: string) {
    s == "-" || s == "1"
  }

  lemma StartIs(lexed: Lexed)
    ensures Start(lexed).lexed == lexed
  {
  }

  lemma DigitToken(t: Token)
    requires TokenOk(t) && Digit(t.text)
    ensures t.kind == Symbol
  {
    assert t.text[0] in t.text;
  }

  lemma {:induction false} InName(w: Work, start: nat, k: nat)
    requires WorkOk(w) && start < |w.sig| && IsWord(w, start) && NameStart(w, start) <= k <= start
    ensures IsWord(w, k) || (Text(w, k) == "." && k > NameStart(w, start) && NameStart(w, start) <= k - 1)
  {
    hide Text;
    if start >= 2 && Text(w, start - 1) == "." && IsWord(w, start - 2) && k <= start - 2 { InName(w, start - 2, k); }
  }

  lemma DigitStays(lexed: Lexed, j: nat)
    requires LexedOk(lexed) && j < Significants(lexed) && Digit(Input(lexed, j))
    ensures !Taken(lexed, j)
  {
    hide Start, NameStart, Upper;
    var w := Start(lexed);
    StartIs(lexed);
    StartText(lexed, j);
    assert lexed[w.sig[j]] in lexed;
    DigitToken(lexed[w.sig[j]]);
    DigitLength(Input(lexed, j));
    if Folded(lexed, j) {
      var i :| 0 <= i < Significants(lexed) && Collates(w, i) && NameStart(w, i) <= j <= i;
      InName(w, i, j);
    }
  }

  lemma DigitLength(s: string)
    requires Digit(s)
    ensures s != "?" && s != "." && Upper(s) != "COLLATE" && Upper(s) != "NOCASE" && Upper(s) != "OR" && Upper(s) != "IGNORE"
  {
    assert |Upper(s)| == 1;
  }

  lemma SettledDigit(lexed: Lexed, j: nat)
    requires LexedOk(lexed)
    ensures Digit(Settled(lexed, j)) || Digit(Input(lexed, j)) ==> Settled(lexed, j) == Input(lexed, j)
  {
    hide Start, Taken, Settled, Text;
    if j < Significants(lexed) {
      if Taken(lexed, j) {
        SettledTaken(lexed, j);
        if Digit(Input(lexed, j)) { DigitStays(lexed, j); }
      } else {
        SettledPlain(lexed, j);
      }
    } else {
      SettledBeyond(lexed, j);
    }
  }

  lemma SettledBeyond(lexed: Lexed, j: nat)
    requires j >= Significants(lexed)
    ensures Settled(lexed, j) == "" && Input(lexed, j) == ""
  {
  }

  /** A dot behind a word that stays is no part of a folded name. */
  lemma SettledDot(lexed: Lexed, j: nat)
    requires LexedOk(lexed) && j < Significants(lexed) && !Taken(lexed, j) && WordAt(lexed, j)
    ensures Settled(lexed, j + 1) == "." <==> Input(lexed, j + 1) == "."
  {
    hide Start, Taken, Settled, Text;
    if j + 1 < Significants(lexed) {
      if Taken(lexed, j + 1) {
        SettledTaken(lexed, j + 1);
        if Input(lexed, j + 1) == "." { DotStays(lexed, j); }
      } else {
        SettledPlain(lexed, j + 1);
      }
    } else {
      SettledBeyond(lexed, j + 1);
    }
  }

  lemma DotOfName(lexed: Lexed, j: nat)
    requires Folded(lexed, j + 1) && Input(lexed, j + 1) == "." && j + 1 < Significants(lexed) && !WordAt(lexed, j + 1)
    ensures Folded(lexed, j)
  {
    hide Start, NameStart;
    var w := Start(lexed);
    StartIs(lexed);
    var i :| 0 <= i < Significants(lexed) && Collates(w, i) && NameStart(w, i) <= j + 1 <= i;
    InName(w, i, j + 1);
  }

  lemma DotStays(lexed: Lexed, j: nat)
    requires LexedOk(lexed) && j + 1 < Significants(lexed) && !Taken(lexed, j) && Input(lexed, j + 1) == "."
    ensures !Taken(lexed, j + 1)
  {
    hide Start, NameStart, Upper, Folded, TokenOk;
    var w := Start(lexed);
    StartIs(lexed);
    StartText(lexed, j + 1);
    assert lexed[w.sig[j + 1]] in lexed;
    DotToken(lexed[w.sig[j + 1]]);
    if Folded(lexed, j + 1) { DotOfName(lexed, j); }
  }

  lemma DotToken(t: Token)
    requires TokenOk(t) && t.text == "."
    ensures t.kind != Word && Upper(t.text) != "COLLATE" && Upper(t.text) != "NOCASE" && Upper(t.text) != "OR" && Upper(t.text) != "IGNORE"
  {
    assert t.text[0] in t.text && |Upper(t.text)| == 1;
  }

  // ---------- words in front ----------

  /** The word in front is u, and it stands as it is written. */
  predicate After(lexed: Lexed, j: int, u: string) {
    1 <= j <= Significants(lexed) && Upper(Input(lexed, j - 1)) == u && Final(lexed, j - 1) == Input(lexed, j - 1)
  }

  predicate AfterIntroducer(lexed: Lexed, j: int) {
    || After(lexed, j, "FROM") || After(lexed, j, "JOIN") || After(lexed, j, "INTO") || After(lexed, j, "UPDATE")
    || After(lexed, j, "REFERENCES")
  }

  lemma NumberingTells(t: string, k: nat)
    requires Telling(Upper(Numbering(t, k)))
    ensures Numbering(t, k) == t
  {
    hide Telling, Upper, Decimal;
    TellingIsWritten(Numbering(t, k));
  }

  lemma RenamingTells(word: bool, t: string, before: string, earlier: string, next: string)
    requires Telling(Upper(Renaming(word, t, before, earlier, next)))
    ensures Renaming(word, t, before, earlier, next) == t
  {
    hide Telling, Upper, BothCases, NewTable;
    TellingIsWritten(Renaming(word, t, before, earlier, next));
  }

  lemma BlankTellsNothing()
    ensures !Telling(Upper(""))
  {
  }

  /** A word the rules look for is one that is written. */
  lemma FinalTells(lexed: Lexed, j: nat)
    requires Telling(Upper(Final(lexed, j)))
    ensures j < Significants(lexed) && Final(lexed, j) == Input(lexed, j)
  {
    hide Telling, Upper, Taken, InLimit, Renaming, Numbering, Settled, Slots, WordAt, Ahead;
    BlankTellsNothing();
    assert Final(lexed, j) == Renamed(lexed, j);
    RenamingTells(WordAt(lexed, j), Base(lexed, j), Ahead(lexed, j), Ahead(lexed, j - 1), Settled(lexed, j + 1));
    NumberingTells(Settled(lexed, j), Slots(lexed, Start(lexed).sig[j]) + 1);
    SettledTells(lexed, j);
  }

  lemma AheadIs(lexed: Lexed, j: int, u: string)
    requires j <= Significants(lexed) && Telling(u)
    ensures Ahead(lexed, j) == u <==> After(lexed, j, u)
  {
    hide Telling, Upper, Final;
    BlankTellsNothing();
    if 1 <= j && Ahead(lexed, j) == u { FinalTells(lexed, j - 1); }
  }

  lemma AheadIntroduces(lexed: Lexed, j: int)
    requires j <= Significants(lexed)
    ensures Introduces(Ahead(lexed, j)) <==> AfterIntroducer(lexed, j)
  {
    hide After, Ahead;
    AheadIs(lexed, j, "FROM");
    AheadIs(lexed, j, "JOIN");
    AheadIs(lexed, j, "INTO");
    AheadIs(lexed, j, "UPDATE");
    AheadIs(lexed, j, "REFERENCES");
  }

  // ---------- what becomes of a token ----------

  /** LIMIT -1 OFFSET begins at j. */
  predicate LimitFrom(lexed: Lexed, j: nat) {
    && !Taken(lexed, j) && Upper(Input(lexed, j)) == "LIMIT" && Input(lexed, j + 1) == "-" && Input(lexed, j + 2) == "1"
    && !Taken(lexed, j + 3) && Upper(Input(lexed, j + 3)) == "OFFSET"
    && !AfterIntroducer(lexed, j) && !(After(lexed, j, "AS") && BothCases(Input(lexed, j)))
  }

  lemma SettledIsWord(lexed: Lexed, j: nat, u: string)
    requires Telling(u)
    ensures Upper(Settled(lexed, j)) == u <==> j < Significants(lexed) && !Taken(lexed, j) && Upper(Input(lexed, j)) == u
  {
    hide Telling, Taken, Upper, Settled;
    SettledTells(lexed, j);
  }

  lemma LimitIs(lexed: Lexed, j: nat)
    requires LexedOk(lexed)
    ensures LimitAt(lexed, j) <==> LimitFrom(lexed, j)
  {
    hide Taken, Upper, Settled, Introduces, After, AfterIntroducer, BothCases, Ahead, Start, Text;
    SettledIsWord(lexed, j, "LIMIT");
    SettledIsWord(lexed, j + 3, "OFFSET");
    SettledDigit(lexed, j + 1);
    SettledDigit(lexed, j + 2);
    InsideLimit(lexed, j);
    if j < Significants(lexed) {
      AheadIs(lexed, j, "AS");
      AheadIntroduces(lexed, j);
      if !Taken(lexed, j) { SettledPlain(lexed, j); }
    }
  }

  lemma InsideLimit(lexed: Lexed, j: nat)
    ensures Upper(Input(lexed, j)) == "LIMIT" ==> j < Significants(lexed)
    ensures Upper(Input(lexed, j + 3)) == "OFFSET" ==> j + 3 < Significants(lexed)
  {
    hide Start;
    OutsideText(Start(lexed), j);
    assert Upper("") == "";
  }

  /** Token j belongs to a LIMIT -1 in front of OFFSET. */
  predicate InNoLimit(lexed: Lexed, j: nat) {
    LimitFrom(lexed, j) || (j >= 1 && LimitFrom(lexed, j - 1)) || (j >= 2 && LimitFrom(lexed, j - 2))
  }

  lemma InLimitIs(lexed: Lexed, j: nat)
    requires LexedOk(lexed)
    ensures InLimit(lexed, j) <==> InNoLimit(lexed, j)
  {
    hide LimitAt, LimitFrom;
    LimitIs(lexed, j);
    if j >= 1 { LimitIs(lexed, j - 1); }
    if j >= 2 { LimitIs(lexed, j - 2); }
  }

  /** A table is named at j, and not behind DO UPDATE. */
  predicate TableAt(lexed: Lexed, j: nat)
    requires j < Significants(lexed)
  {
    && WordAt(lexed, j) && AfterIntroducer(lexed, j) && Input(lexed, j + 1) != "."
    && !(After(lexed, j, "UPDATE") && After(lexed, j - 1, "DO"))
  }

  /** An alias that PostgreSQL would fold to lower case. */
  predicate AliasAt(lexed: Lexed, j: nat)
    requires j < Significants(lexed)
  {
    WordAt(lexed, j) && After(lexed, j, "AS") && BothCases(Input(lexed, j))
  }

  lemma NamesIs(lexed: Lexed, j: nat)
    requires LexedOk(lexed) && j < Significants(lexed) && !Taken(lexed, j)
    ensures NewTable(WordAt(lexed, j), Ahead(lexed, j), Ahead(lexed, j - 1), Settled(lexed, j + 1)) <==> TableAt(lexed, j)
  {
    hide Taken, Settled, Introduces, Telling, After, AfterIntroducer, Ahead, Input, WordAt;
    WordsTell();
    AheadIntroduces(lexed, j);
    AheadIs(lexed, j, "UPDATE");
    AheadIs(lexed, j - 1, "DO");
    if WordAt(lexed, j) { SettledDot(lexed, j); }
  }

  lemma WordIsNoQuestion(lexed: Lexed, j: nat)
    requires LexedOk(lexed) && j < Significants(lexed) && WordAt(lexed, j)
    ensures Input(lexed, j) != "?"
  {
    StartText(lexed, j);
    var t := lexed[Start(lexed).sig[j]];
    assert t in lexed && t.text[0] in t.text;
  }

  /** What becomes of every token that is no parameter and in no INSERT OR IGNORE and no folded
      comparison: LIMIT -1 in front of OFFSET goes, a mixed-case alias is quoted, a table gets
      its schema, and every other token stands as it is written. */
  lemma TokenOutcome(lexed: Lexed, j: nat)
    requires LexedOk(lexed) && j < Significants(lexed) && !Taken(lexed, j) && !Marks(Input(lexed, j))
    ensures Final(lexed, j) ==
      if InNoLimit(lexed, j) then ""
      else if AliasAt(lexed, j) then "\"" + Input(lexed, j) + "\""
      else if TableAt(lexed, j) then "groundwork." + Input(lexed, j)
      else Input(lexed, j)
  {
    hide Taken, Settled, NewTable, After, AfterIntroducer, Ahead, InLimit, InNoLimit, TableAt, WordAt, Input, BothCases;
    InLimitIs(lexed, j);
    SettledPlain(lexed, j);
    AheadIs(lexed, j, "AS");
    NamesIs(lexed, j);
  }

  lemma QuestionIsPlain(lexed: Lexed, j: nat)
    requires LexedOk(lexed) && j < Significants(lexed) && Input(lexed, j) == "?"
    ensures !Dropped(lexed, j) && !Folded(lexed, j) && !CollationBefore(Start(lexed), j, Significants(lexed)) && !WordAt(lexed, j)
    ensures !Collates(Start(lexed), j)
  {
    hide Start, NameStart, Upper;
    var w := Start(lexed);
    StartIs(lexed);
    StartText(lexed, j);
    assert lexed[w.sig[j]] in lexed;
    QuestionToken(lexed[w.sig[j]]);
    if Folded(lexed, j) {
      var i :| 0 <= i < Significants(lexed) && Collates(w, i) && NameStart(w, i) <= j <= i;
      InName(w, i, j);
    }
  }

  lemma QuestionToken(t: Token)
    requires TokenOk(t) && t.text == "?"
    ensures t.kind != Word && Upper(t.text) != "COLLATE" && Upper(t.text) != "NOCASE" && Upper(t.text) != "OR" && Upper(t.text) != "IGNORE"
  {
    assert t.text[0] in t.text && |Upper(t.text)| == 1;
  }

  /** What goes with a LIMIT is written. */
  lemma LimitSpares(lexed: Lexed, j: nat)
    requires InLimit(lexed, j)
    ensures Telling(Upper(Settled(lexed, j))) || Digit(Settled(lexed, j))
  {
    hide Upper, Settled, LimitAt;
    if LimitAt(lexed, j) { LimitTexts(lexed, j); }
    if j >= 1 && LimitAt(lexed, j - 1) { LimitTexts(lexed, j - 1); }
    if j >= 2 && LimitAt(lexed, j - 2) { LimitTexts(lexed, j - 2); }
  }

  /** What is neither a word the rules look for nor a digit stands outside every LIMIT -1. */
  lemma OutsideLimit(lexed: Lexed, j: nat)
    ensures var t := Settled(lexed, j);
      t == "" || t == "?" || t == MARKER || (|t| >= 6 && t[0] == 'l' && t[1] == 'o') ==> !InLimit(lexed, j)
  {
    hide Upper, Settled, InLimit, Telling;
    var t := Settled(lexed, j);
    if InLimit(lexed, j) {
      LimitSpares(lexed, j);
      if Telling(Upper(t)) { TellingIsWritten(t); }
    }
  }

  /** The text a parameter gets at position p. */
  function NumberAt(lexed: Lexed, p: nat): string
    requires p <= |lexed|
  {
    "$" + Decimal(Slots(lexed, p) + 1)
  }

  /** A question mark that is not compared by COLLATE NOCASE becomes the next number. */
  lemma QuestionOutcome(lexed: Lexed, j: nat)
    requires LexedOk(lexed) && j < Significants(lexed) && Input(lexed, j) == "?" && !ComparedBefore(Start(lexed), j, Significants(lexed))
    ensures Start(lexed).sig[j] < |lexed| && Final(lexed, j) == NumberAt(lexed, Start(lexed).sig[j])
  {
    StartText(lexed, j);
    hide Start, Settled, Slots, Decimal, NewTable, Ahead, InLimit, Dropped, Collates, CollationBefore, FoldedBefore, WordAt, Input;
    QuestionIsPlain(lexed, j);
    SettledPlain(lexed, j);
    OutsideLimit(lexed, j);
  }

  /** Rows are inserted into a table named behind INTO, in lower case. */
  lemma InsertOutcome(lexed: Lexed, j: nat)
    requires LexedOk(lexed) && j < Significants(lexed) && !Taken(lexed, j) && !Marks(Input(lexed, j))
    ensures IntoTable(lexed, j) <==> TableAt(lexed, j) && After(lexed, j, "INTO")
    ensures Base(lexed, j) == Input(lexed, j)
  {
    hide Taken, Settled, After, AfterIntroducer, Ahead, TableAt, WordAt, Input;
    SettledPlain(lexed, j);
    WordsTell();
    AheadIs(lexed, j, "INTO");
    NamesIs(lexed, j);
  }

  // ---------- folded comparisons ----------

  lemma ComparedSettled(lexed: Lexed, i: nat)
    requires LexedOk(lexed) && Collates(Start(lexed), i)
    ensures i + 4 < Significants(lexed) && Settled(lexed, i + 2) == MARKER && !WordAt(lexed, i + 2)
  {
    assert Input(lexed, i + 2) == "?";
    hide Start, Dropped, CollationBefore, FoldedBefore, WordAt, Input, Upper;
    QuestionIsPlain(lexed, i + 2);
  }

  /** The parameter of a folded comparison is folded too. */
  lemma ComparedOutcome(lexed: Lexed, i: nat)
    requires LexedOk(lexed) && Collates(Start(lexed), i)
    ensures i + 2 < Significants(lexed) && Start(lexed).sig[i + 2] < |lexed|
    ensures Final(lexed, i + 2) == "lower(" + NumberAt(lexed, Start(lexed).sig[i + 2]) + ")"
  {
    hide Start, Settled, Slots, Decimal, Introduces, Ahead, InLimit, Collates, WordAt;
    ComparedSettled(lexed, i);
    StartText(lexed, i + 2);
    OutsideLimit(lexed, i + 2);
    var n := Decimal(Slots(lexed, Start(lexed).sig[i + 2]) + 1);
    assert "lower(" + ("$" + n) == "lower($" + n;
  }

  /** A blank text stays blank, but where a table would be named. */
  lemma BlankOutcome(lexed: Lexed, j: nat)
    requires LexedOk(lexed) && j < Significants(lexed) && Settled(lexed, j) == "" && !AfterIntroducer(lexed, j)
    ensures Final(lexed, j) == ""
  {
    hide Start, Settled, Slots, Decimal, Introduces, Ahead, InLimit, AfterIntroducer, WordAt;
    OutsideLimit(lexed, j);
    AheadIntroduces(lexed, j);
  }

  lemma CollateIsNoWord(lexed: Lexed, i: nat)
    requires LexedOk(lexed) && Collates(Start(lexed), i)
    ensures i + 4 < Significants(lexed) && !WordAt(lexed, i + 1) && !WordAt(lexed, i + 2)
    ensures Start(lexed).lexed == lexed
    ensures Input(lexed, i + 1) == "=" && Upper(Input(lexed, i + 3)) == "COLLATE" && Upper(Input(lexed, i + 4)) == "NOCASE"
  {
    hide Start, Upper;
    StartIs(lexed);
    StartText(lexed, i + 1);
    StartText(lexed, i + 2);
    assert lexed[Start(lexed).sig[i + 1]] in lexed && lexed[Start(lexed).sig[i + 2]] in lexed;
    SignToken(lexed[Start(lexed).sig[i + 1]]);
    SignToken(lexed[Start(lexed).sig[i + 2]]);
  }

  lemma SignToken(t: Token)
    requires TokenOk(t) && (t.text == "=" || t.text == "?")
    ensures t.kind != Word
  {
    assert t.text[0] in t.text;
  }

  lemma CollationSettled(lexed: Lexed, i: nat)
    requires LexedOk(lexed) && Collates(Start(lexed), i)
    ensures i + 4 < Significants(lexed) && Settled(lexed, i + 3) == ""
    ensures !Collates(Start(lexed), i + 4) ==> Settled(lexed, i + 4) == ""
  {
    hide Start, Dropped, FoldedBefore, Upper, NameText, NameStart;
    CollateIsNoWord(lexed, i);
    SignIsNoKeyword(Input(lexed, i + 4));
  }

  lemma SignIsNoKeyword(s: string)
    requires Upper(s) == "NOCASE"
    ensures s != "="
  {
    assert |Upper(s)| == |s|;
  }

  lemma FoldedColumnSettled(lexed: Lexed, i: nat)
    requires LexedOk(lexed) && Collates(Start(lexed), i)
    ensures i < Significants(lexed)
    ensures Settled(lexed, i) == "lower(" + NameText(Start(lexed), NameStart(Start(lexed), i), i + 1) + ")"
  {
    hide Start, FoldedBefore, Upper, NameText, NameStart, ComparedBefore, CollationBefore, Dropped;
    ColumnIsTaken(lexed, i);
    TakenOnce(lexed, i);
  }

  /** What is folded is no part of INSERT OR IGNORE. */
  lemma TakenOnce(lexed: Lexed, j: nat)
    requires Folded(lexed, j)
    ensures !Dropped(lexed, j)
  {
    hide Start, FoldedBefore, Upper, Input;
  }

  lemma {:induction false} NameSteps(w: Work, start: nat, k: nat)
    requires WorkOk(w) && start < |w.sig| && NameStart(w, start) <= k < start
    ensures Text(w, k) == "." || (IsWord(w, k) && Text(w, k + 1) == ".")
  {
    hide Text;
    if k < start - 2 { NameSteps(w, start - 2, k); }
  }

  lemma QualifierSettled(lexed: Lexed, i: nat, k: nat)
    requires LexedOk(lexed) && Collates(Start(lexed), i) && NameStart(Start(lexed), i) <= k < i
    ensures k < Significants(lexed) && Settled(lexed, k) == ""
  {
    hide Start, Upper, NameText, NameStart, CollationBefore, Dropped;
    var w := Start(lexed);
    NameSteps(w, i, k);
    StartIs(lexed);
    StartText(lexed, k);
    assert lexed[w.sig[k]] in lexed;
    DotOrWord(lexed[w.sig[k]]);
    TakenOnce(lexed, k);
  }

  lemma DotOrWord(t: Token)
    requires TokenOk(t)
    ensures t.text == "." || t.kind == Word ==> t.text != "?"
    ensures t.text == "." ==> t.kind != Word
  {
    if |t.text| > 0 { assert t.text[0] in t.text; }
  }

  /** A comparison `name = ? COLLATE NOCASE` compares lower(name), its qualifiers inside, and no
      collation is left of it. */
  lemma ComparisonOutcome(lexed: Lexed, i: nat)
    requires LexedOk(lexed) && Collates(Start(lexed), i)
    ensures i + 4 < Significants(lexed)
    ensures !After(lexed, i, "AS") && !AfterIntroducer(lexed, i) ==>
      Final(lexed, i) == "lower(" + NameText(Start(lexed), NameStart(Start(lexed), i), i + 1) + ")"
    ensures forall k: nat :: NameStart(Start(lexed), i) <= k < i && !AfterIntroducer(lexed, k) ==> Final(lexed, k) == ""
    ensures Final(lexed, i + 3) == "" && (Collates(Start(lexed), i + 4) || Final(lexed, i + 4) == "")
  {
    hide Start, Settled, Final, After, AfterIntroducer, Collates, NameStart, NameText;
    CollationSettled(lexed, i);
    ComparedOutcome(lexed, i);
    NothingAfter(lexed, i + 3);
    BlankOutcome(lexed, i + 3);
    NothingAfter(lexed, i + 4);
    if !Collates(Start(lexed), i + 4) { BlankOutcome(lexed, i + 4); }
    forall k: nat | NameStart(Start(lexed), i) <= k < i && !AfterIntroducer(lexed, k) ensures Final(lexed, k) == "" {
      QualifierSettled(lexed, i, k);
      BlankOutcome(lexed, k);
    }
    if !After(lexed, i, "AS") && !AfterIntroducer(lexed, i) { ColumnOutcome(lexed, i); }
  }

  lemma ColumnOutcome(lexed: Lexed, i: nat)
    requires LexedOk(lexed) && Collates(Start(lexed), i) && !After(lexed, i, "AS") && !AfterIntroducer(lexed, i)
    ensures i < Significants(lexed)
    ensures Final(lexed, i) == "lower(" + NameText(Start(lexed), NameStart(Start(lexed), i), i + 1) + ")"
  {
    hide Start, Settled, Slots, Decimal, Introduces, Ahead, InLimit, After, AfterIntroducer, Collates, NameStart, NameText, WordAt, BothCases;
    FoldedColumnSettled(lexed, i);
    var t := Settled(lexed, i);
    assert t[0] == 'l' && t[1] == 'o' && t[2] == 'w';
    assert MARKER[0] == 'L';
    OutsideLimit(lexed, i);
    AheadIntroduces(lexed, i);
    AheadIs(lexed, i, "AS");
  }

  /** Nothing the rules write introduces a table. */
  lemma NothingAfter(lexed: Lexed, j: nat)
    requires 1 <= j <= Significants(lexed)
    requires Final(lexed, j - 1) == "" || (|Final(lexed, j - 1)| >= 6 && Final(lexed, j - 1)[0] == 'l' && Final(lexed, j - 1)[1] == 'o')
    ensures !AfterIntroducer(lexed, j)
  {
    hide Final, Upper, Input;
    if AfterIntroducer(lexed, j) { TellingIsWritten(Final(lexed, j - 1)); }
  }

  // ---------- INSERT OR IGNORE ----------

  lemma InsertIntroducesNothing(u: string)
    requires u == "INSERT"
    ensures !Introduces(u)
  {
  }

  /** OR and IGNORE of the first INSERT OR IGNORE leave no text. */
  lemma OrIgnoreOutcome(lexed: Lexed, i: nat)
    requires LexedOk(lexed) && FirstOrIgnore(lexed, i)
    ensures i + 2 < Significants(lexed) && Final(lexed, i + 1) == "" && Final(lexed, i + 2) == ""
  {
    hide Start, Final, Upper, Input, Folded;
    OrIgnoreEnds(lexed, i);
    assert Dropped(lexed, i + 1) && Dropped(lexed, i + 2);
    InsertIntroducesNothing(Upper(Input(lexed, i)));
    assert !AfterIntroducer(lexed, i + 1);
    BlankOutcome(lexed, i + 1);
    NothingAfter(lexed, i + 2);
    BlankOutcome(lexed, i + 2);
  }
}
