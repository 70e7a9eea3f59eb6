/** What rewriting keeps: protected text, and the numbering of parameters. */
module SqlSafety {
  import opened Letters
  import opened SqlMarkers
  import opened SqlRewrite
  import opened SqlTokens
  import opened Wrappers

  // ---------- the main pass ----------

  /** The parameter a question mark has become. */
  predicate Numbered(text: string, k: nat) {
    text == "$" + Decimal(k) || text == "lower($" + Decimal(k) + ")"
  }

  function Position(w: Work, i: nat): nat
    requires WorkOk(w)
  {
    if i < |w.sig| then w.sig[i] else |w.lexed|
  }

  predicate Counted(s: Pass, i: nat)
    requires WorkOk(s.w)
  {
    s.count == Slots(s.w.lexed, Position(s.w, i))
  }

  ghost predicate NumberedTo(w: Work, i: nat)
    requires WorkOk(w) && i <= |w.sig|
  {
    forall j :: 0 <= j < i && Question(w.lexed, w.sig[j]) ==> Numbered(Text(w, j), Slots(w.lexed, w.sig[j]) + 1)
  }

  ghost predicate Done(s: Pass, i: nat) {
    && Sound(s.w) && s.w.sig == Significant(s.w.lexed, 0) && i <= |s.w.sig|
    && Counted(s, i) && MarksAre(s.w, i) && NumberedTo(s.w, i)
  }

  /** A step rewrites its own token, and may blank the - and 1 of LIMIT -1 behind it. */
  ghost predicate Local(w: Work, after: Work, i: nat) {
    && WorkOk(w) && WorkOk(after) && after.lexed == w.lexed && after.sig == w.sig && i < |w.sig|
    && (forall k: int :: k < i ==> Text(after, k) == Text(w, k))
    && (forall k: int :: k > i && Text(after, k) != Text(w, k) ==> k < |w.sig| && Text(after, k) == "" && (Text(w, k) == "-" || Text(w, k) == "1"))
    && (forall p :: 0 <= p < |w.lexed| && after.texts[p] != w.texts[p] ==> exists j :: i <= j < |w.sig| && w.sig[j] == p)
  }

  lemma PutLocal(w: Work, i: nat, text: string)
    requires WorkOk(w) && i < |w.sig|
    ensures Local(w, Put(w, i, text), i) && Text(Put(w, i, text), i) == text
  {
    PutText(w, i, text);
  }

  lemma UnlimitLocal(w: Work, i: nat)
    requires WorkOk(w) && i < |w.sig|
    ensures Local(w, Unlimit(w, i), i)
    ensures Text(Unlimit(w, i), i) == if Upper(Text(w, i)) == "LIMIT" && Unlimit(w, i) != w then "" else Text(w, i)
  {
    if Unlimit(w, i) != w {
      var w1 := Put(w, i, "");
      var w2 := Put(w1, i + 1, "");
      PutText(w, i, "");
      PutText(w1, i + 1, "");
      PutText(w2, i + 2, "");
    }
  }

  lemma LocalTrans(a: Work, b: Work, c: Work, i: nat)
    requires Local(a, b, i) && Local(b, c, i)
    ensures Local(a, c, i)
  {
    forall k: int | k > i && Text(c, k) != Text(a, k)
      ensures k < |a.sig| && Text(c, k) == "" && (Text(a, k) == "-" || Text(a, k) == "1")
    {
      if Text(b, k) == Text(a, k) { assert Text(c, k) != Text(b, k); }
    }
    forall p | 0 <= p < |a.lexed| && c.texts[p] != a.texts[p] ensures exists j :: i <= j < |a.sig| && a.sig[j] == p {
      if b.texts[p] == a.texts[p] { assert c.texts[p] != b.texts[p]; }
    }
  }

  lemma QuoteLocal(w: Work, i: nat)
    requires WorkOk(w) && i < |w.sig|
    ensures Local(w, Quote(w, i), i)
    ensures Text(Quote(w, i), i) != Text(w, i) ==> IsWord(w, i)
  {
    if Quote(w, i) != w { PutLocal(w, i, "\"" + Text(w, i) + "\""); }
  }

  lemma NumberLocal(s: Pass, i: nat)
    requires WorkOk(s.w) && i < |s.w.sig|
    ensures Local(s.w, Number(s, i).w, i)
    ensures Text(Number(s, i).w, i) == if Marks(Text(s.w, i)) then Parameter(Text(s.w, i), s.count + 1) else Text(s.w, i)
    ensures Number(s, i).count == s.count + if Marks(Text(s.w, i)) then 1 else 0
  {
    if Marks(Text(s.w, i)) { PutLocal(s.w, i, Parameter(Text(s.w, i), s.count + 1)); }
  }

  lemma ParameterIsNoLimit(text: string, k: nat)
    ensures Upper(Parameter(text, k)) != "LIMIT" && !Marks(Parameter(text, k))
  {
    assert Parameter(text, k)[0] == '$' || (Parameter(text, k)[0] == 'l' && Parameter(text, k)[1] == 'o');
    assert UpperChar('$') == '$' && UpperChar('o') == 'O';
  }

  lemma PassAtLocal(s: Pass, i: nat)
    requires WorkOk(s.w) && i < |s.w.sig|
    ensures Local(s.w, PassAt(s, i).w, i)
    ensures PassAt(s, i).count == s.count + if Marks(Text(s.w, i)) then 1 else 0
    ensures Text(PassAt(s, i).w, i) != Text(s.w, i) ==> IsWord(s.w, i) || Marks(Text(s.w, i)) || Upper(Text(s.w, i)) == "LIMIT"
    ensures Marks(Text(s.w, i)) && !IsWord(s.w, i) ==> Text(PassAt(s, i).w, i) == Parameter(Text(s.w, i), s.count + 1)
  {
    hide Put, Text, Local, Number, Quote, Unlimit, Parameter, Name;
    NumberLocal(s, i);
    var numbered := Number(s, i);
    QuoteLocal(numbered.w, i);
    var quoted := numbered.(w := Quote(numbered.w, i));
    LocalTrans(s.w, numbered.w, quoted.w, i);
    ParameterIsNoLimit(Text(s.w, i), s.count + 1);
    NameLocal(quoted, i);
    var named := Name(quoted, i).0;
    LocalTrans(s.w, quoted.w, named.w, i);
    UnlimitLocal(named.w, i);
    LocalTrans(s.w, named.w, Unlimit(named.w, i), i);
  }

  lemma NameLocal(s: Pass, i: nat)
    requires WorkOk(s.w) && i < |s.w.sig|
    ensures Local(s.w, Name(s, i).0.w, i) && Name(s, i).0.count == s.count
    ensures Text(Name(s, i).0.w, i) != Text(s.w, i) ==> IsWord(s.w, i)
  {
    hide Put, Text, Local, Exempt;
    PutLocal(s.w, i, "groundwork." + Text(s.w, i));
    SameLocal(s.w, i);
  }

  lemma SameLocal(w: Work, i: nat)
    requires WorkOk(w) && i < |w.sig|
    ensures Local(w, w, i)
  {
  }

  lemma RuleTextIsCode(w: Work, j: nat)
    requires Sound(w) && j < |w.sig|
    requires Marks(Text(w, j)) || Upper(Text(w, j)) == "LIMIT" || Text(w, j) == "-" || Text(w, j) == "1"
    ensures Code(w, j)
  {
    assert Upper(Text(w, j))[0] == UpperChar(Text(w, j)[0]);
    CodeByText(w, j);
  }

  lemma LocalSound(w: Work, after: Work, i: nat)
    requires Sound(w) && Local(w, after, i) && (Text(after, i) != Text(w, i) ==> Code(w, i))
    ensures Sound(after)
  {
    forall j | i <= j < |w.sig| && Text(after, j) != Text(w, j) ensures Code(w, j) {
      if j > i { RuleTextIsCode(w, j); }
    }
    forall p | 0 <= p < |w.lexed| && (w.lexed[p].kind == Space || w.lexed[p].kind == Protected) ensures after.texts[p] == w.lexed[p].text {
      if exists j :: i <= j < |w.sig| && w.sig[j] == p {
        var j :| i <= j < |w.sig| && w.sig[j] == p;
        assert Text(after, j) == Text(w, j);
      }
    }
  }

  lemma PassAtSound(s: Pass, i: nat)
    requires Sound(s.w) && i < |s.w.sig|
    ensures Sound(PassAt(s, i).w)
  {
    assert WorkOk(s.w);
    hide PassAt, Sound, Local, Text;
    PassAtLocal(s, i);
    var after := PassAt(s, i).w;
    if Text(after, i) != Text(s.w, i) && !IsWord(s.w, i) { RuleTextIsCode(s.w, i); }
    LocalSound(s.w, after, i);
  }

  /** A question mark is a symbol, and what is spelled like the marker is a word. */
  lemma SlotIsCode(t: Token)
    requires TokenOk(t) && Marks(t.text)
    ensures Meaningful(t) && (t.text == "?" ==> t.kind == Symbol)
  {
    assert t.text[0] in t.text && (t.text[0] == '?' || t.text[0] == 'L');
  }

  lemma SlotsAreSignificant(w: Work)
    requires Sound(w) && w.sig == Significant(w.lexed, 0)
    ensures forall p :: 0 <= p < |w.lexed| && Slot(w.lexed, p) ==> p in w.sig
  {
    hide InFoldedColumn;
    SignificantInOrder(w.lexed, 0);
    forall p | 0 <= p < |w.lexed| && Slot(w.lexed, p) ensures p in w.sig {
      assert w.lexed[p] in w.lexed;
      SlotIsCode(w.lexed[p]);
    }
  }

  lemma {:induction false} NoSlotsBetween(lexed: Lexed, a: nat, b: nat)
    requires a <= b <= |lexed| && forall p :: a <= p < b ==> !Slot(lexed, p)
    ensures Slots(lexed, a) == Slots(lexed, b)
    decreases b
  {
    hide Stray;
    if a < b {
      assert !Slot(lexed, b - 1);
      NoSlotsBetween(lexed, a, b - 1);
    }
  }

  lemma OneSlotMore(lexed: Lexed, p: nat)
    requires p < |lexed|
    ensures Slots(lexed, p + 1) == Slots(lexed, p) + if Slot(lexed, p) then 1 else 0
  {
    hide InFoldedColumn;
  }

  lemma NextPosition(w: Work, i: nat)
    requires Sound(w) && i < |w.sig| && w.sig == Significant(w.lexed, 0)
    ensures w.sig[i] < Position(w, i + 1) <= |w.lexed|
    ensures Slots(w.lexed, Position(w, i + 1)) == Slots(w.lexed, w.sig[i]) + if Slot(w.lexed, w.sig[i]) then 1 else 0
  {
    hide Slots, Slot;
    SlotsAreSignificant(w);
    NoSlotsBetween(w.lexed, w.sig[i] + 1, Position(w, i + 1));
    OneSlotMore(w.lexed, w.sig[i]);
  }

  lemma LocalMarks(w: Work, after: Work, i: nat)
    requires Local(w, after, i) && MarksAre(w, i)
    ensures MarksAre(after, i + 1)
  {
    forall j | i + 1 <= j < |w.sig| ensures Marks(Text(after, j)) <==> Slot(w.lexed, w.sig[j]) {
      assert Marks(Text(w, j)) <==> Slot(w.lexed, w.sig[j]);
    }
  }

  lemma LocalNumbered(w: Work, after: Work, i: nat)
    requires Local(w, after, i)
    requires NumberedTo(w, i)
    requires Question(w.lexed, w.sig[i]) ==> Numbered(Text(after, i), Slots(w.lexed, w.sig[i]) + 1)
    ensures NumberedTo(after, i + 1)
  {
    hide Numbered, Slots, Text;
    forall j | 0 <= j < i && Question(w.lexed, w.sig[j]) ensures Numbered(Text(after, j), Slots(w.lexed, w.sig[j]) + 1) {
      assert Text(after, j) == Text(w, j);
    }
  }

  lemma MarkedIsQuestion(w: Work, i: nat)
    requires Sound(w) && MarksAre(w, i) && i < |w.sig|
    ensures Marks(Text(w, i)) <==> Slot(w.lexed, w.sig[i])
    ensures Question(w.lexed, w.sig[i]) ==> !IsWord(w, i)
  {
    assert w.lexed[w.sig[i]] in w.lexed;
    if Question(w.lexed, w.sig[i]) { SlotIsCode(w.lexed[w.sig[i]]); }
  }

  lemma PassAtCounted(s: Pass, i: nat)
    requires WorkOk(s.w) && Sound(s.w) && i < |s.w.sig| && s.w.sig == Significant(s.w.lexed, 0) && Counted(s, i) && MarksAre(s.w, i)
    ensures Counted(PassAt(s, i), i + 1)
    ensures Question(s.w.lexed, s.w.sig[i]) ==> Numbered(Text(PassAt(s, i).w, i), Slots(s.w.lexed, s.w.sig[i]) + 1)
  {
    hide PassAt, Sound, Local, Text, MarksAre, Significant, Marks, Slots, Stray;
    MarkedIsQuestion(s.w, i);
    PassAtLocal(s, i);
    NextPosition(s.w, i);
  }

  lemma PassAtDone(s: Pass, i: nat)
    requires Done(s, i) && i < |s.w.sig|
    ensures Done(PassAt(s, i), i + 1)
  {
    hide *;
    DoneParts(s, i);
    PassAtSound(s, i);
    PassAtCounted(s, i);
    PassAtLocal(s, i);
    LocalMarks(s.w, PassAt(s, i).w, i);
    LocalNumbered(s.w, PassAt(s, i).w, i);
    MakeDone(PassAt(s, i), i + 1);
  }

  lemma DoneParts(s: Pass, i: nat)
    requires Done(s, i)
    ensures WorkOk(s.w) && Sound(s.w) && s.w.sig == Significant(s.w.lexed, 0) && i <= |s.w.sig|
    ensures Counted(s, i) && MarksAre(s.w, i) && NumberedTo(s.w, i)
  {
  }

  lemma MakeDone(s: Pass, i: nat)
    requires WorkOk(s.w) && Sound(s.w) && s.w.sig == Significant(s.w.lexed, 0) && i <= |s.w.sig|
    requires Counted(s, i) && MarksAre(s.w, i) && NumberedTo(s.w, i)
    ensures Done(s, i)
  {
  }

  lemma {:induction false} PassesKeep(s: Pass, i: nat)
    requires WorkOk(s.w) && Done(s, i) && i <= |s.w.sig|
    ensures Done(Passes(s, i), |s.w.sig|)
    decreases |s.w.sig| - i
  {
    hide Done, PassAt;
    if i < |s.w.sig| {
      PassAtDone(s, i);
      PassesKeep(PassAt(s, i), i + 1);
    }
  }

  // ---------- main results ----------

  lemma BeforeFirst(w: Work)
    requires Kept(w) && w.sig == Significant(w.lexed, 0)
    ensures Done(Pass(w, 0, None), 0)
  {
    hide Slot;
    SlotsAreSignificant(w);
    NoSlotsBetween(w.lexed, 0, Position(w, 0));
  }

  lemma RewrittenDone(lexed: Lexed)
    requires LexedOk(lexed)
    ensures Done(Rewritten(lexed), |Significant(lexed, 0)|)
  {
    hide Kept, Done, Ready;
    ReadyKept(lexed);
    BeforeFirst(Ready(lexed));
    PassesKeep(Pass(Ready(lexed), 0, None), 0);
  }

  /** What a rewritten statement shows of the token at p, and of the whole. */
  predicate TokenInOrder(lexed: Lexed, r: Pass, p: nat)
    requires WorkOk(r.w) && r.w.lexed == lexed && p < |lexed|
  {
    && (Question(lexed, p) ==> Numbered(r.w.texts[p], Questions(lexed, p) + StrayMarkers(lexed, p) + 1))
    && (lexed[p].kind == Space || lexed[p].kind == Protected ==> r.w.texts[p] == lexed[p].text)
  }

  lemma DoneMeans(r: Pass, p: nat)
    requires Done(r, |r.w.sig|) && p < |r.w.lexed|
    ensures TokenInOrder(r.w.lexed, r, p)
  {
    hide Stray;
    SlotsAreSignificant(r.w);
    if Question(r.w.lexed, p) {
      assert Slot(r.w.lexed, p);
      var j :| 0 <= j < |r.w.sig| && r.w.sig[j] == p;
      assert Numbered(Text(r.w, j), Slots(r.w.lexed, r.w.sig[j]) + 1);
    }
  }

  lemma DoneCount(r: Pass)
    requires Done(r, |r.w.sig|)
    ensures r.count == Questions(r.w.lexed, |r.w.lexed|) + StrayMarkers(r.w.lexed, |r.w.lexed|)
  {
    hide Stray, Sound;
  }

  lemma RewrittenInOrder(lexed: Lexed, p: nat)
    requires LexedOk(lexed) && p < |lexed|
    ensures Rewritten(lexed).count == Questions(lexed, |lexed|) + StrayMarkers(lexed, |lexed|)
    ensures TokenInOrder(lexed, Rewritten(lexed), p)
  {
    hide Done, Rewritten, TokenInOrder, Stray;
    RewrittenDone(lexed);
    DoneCount(Rewritten(lexed));
    DoneMeans(Rewritten(lexed), p);
  }

  /** In every accepted statement: the reported count is the number of unprotected question
      marks and stray markers, each ? has become the number of those up to it, perhaps inside
      lower(), and white space, comments, strings, quoted identifiers and dollar-quoted text
      are untouched. */
  lemma ParametersInOrder(sql: string, lexed: Lexed, p: nat)
    requires Lex(sql, 0) == Ok(lexed) && p < |lexed|
    ensures Rewritten(lexed).count == Questions(lexed, |lexed|) + StrayMarkers(lexed, |lexed|)
    ensures TokenInOrder(lexed, Rewritten(lexed), p)
  {
    hide TokenInOrder, Rewritten, Stray;
    LexIsLossless(sql, 0);
    RewrittenInOrder(lexed, p);
  }

  // ---------- exactly when the numbers are right ----------

  lemma {:induction false} DecimalLength(n: nat)
    ensures |Decimal(n)| >= 1 && (n >= 10 ==> |Decimal(n)| >= 2)
  {
    if n >= 10 { DecimalLength(n / 10); }
  }

  lemma {:induction false} DecimalInjective(a: nat, b: nat)
    requires Decimal(a) == Decimal(b)
    ensures a == b
  {
    DecimalLength(a);
    DecimalLength(b);
    if a >= 10 && b >= 10 {
      var (da, db) := (Decimal(a), Decimal(b));
      assert da[..|da| - 1] == Decimal(a / 10) && db[..|db| - 1] == Decimal(b / 10);
      assert da[|da| - 1] == ('0' as int + a % 10) as char && db[|db| - 1] == ('0' as int + b % 10) as char;
      DecimalInjective(a / 10, b / 10);
    }
  }

  /** The number that a row of digits stands for. */
  function Denotes(s: string): int {
    if s == "" then 0 else 10 * Denotes(s[..|s| - 1]) + (s[|s| - 1] as int - '0' as int)
  }

  /** A number is written by its decimal digits, without leading zeros. */
  lemma {:induction false} DecimalDenotes(n: nat)
    ensures Denotes(Decimal(n)) == n && Decimal(n) != "" && (n > 0 ==> Decimal(n)[0] != '0')
    ensures forall c :: c in Decimal(n) ==> '0' <= c <= '9'
  {
    if n >= 10 {
      DecimalDenotes(n / 10);
      assert Decimal(n)[..|Decimal(n)| - 1] == Decimal(n / 10);
    } else {
      assert Decimal(n)[..0] == "" && Denotes("") == 0;
    }
  }

  /** Lower-casing keeps the word, and leaves no capital. */
  lemma {:induction false} LowerIs(s: string)
    ensures Upper(Lower(s)) == Upper(s) && forall c :: c in Lower(s) ==> !('A' <= c <= 'Z')
  {
    if s != "" {
      LowerIs(s[1..]);
      assert Lower(s)[1..] == Lower(s[1..]);
      assert UpperChar(LowerChar(s[0])) == UpperChar(s[0]);
    }
  }

  lemma NumberedOnce(text: string, a: nat, b: nat)
    requires Numbered(text, a) && Numbered(text, b)
    ensures a == b
  {
    hide Decimal;
    if text[0] == '$' {
      assert text[1..] == Decimal(a) == Decimal(b);
    } else {
      assert text[7..|text| - 1] == Decimal(a) == Decimal(b);
    }
    DecimalInjective(a, b);
  }

  /** The k-th unprotected ? becomes $k exactly when no stray marker stands before it. */
  lemma NumberIsRightIff(sql: string, lexed: Lexed, p: nat)
    requires Lex(sql, 0) == Ok(lexed) && p < |lexed| && Question(lexed, p)
    ensures Numbered(Rewritten(lexed).w.texts[p], Questions(lexed, p) + 1) <==> forall q :: 0 <= q < p ==> !Stray(lexed, q)
  {
    hide Rewritten, Numbered, Stray, Lex;
    ParametersInOrder(sql, lexed, p);
    NoStrayMarkers(lexed, p);
    var text := Rewritten(lexed).w.texts[p];
    if Numbered(text, Questions(lexed, p) + 1) {
      NumberedOnce(text, Questions(lexed, p) + 1, Questions(lexed, p) + StrayMarkers(lexed, p) + 1);
    }
  }

  /** The reported count is the number of unprotected question marks exactly when the word
      LOWER_PARAMETER occurs nowhere but in columns compared by `= ? COLLATE NOCASE`. */
  lemma CountIsRightIff(sql: string, lexed: Lexed)
    requires Lex(sql, 0) == Ok(lexed)
    ensures Rewritten(lexed).count == Questions(lexed, |lexed|) <==> forall q :: 0 <= q < |lexed| ==> !Stray(lexed, q)
  {
    hide Rewritten, Stray, Lex;
    NoStrayMarkers(lexed, |lexed|);
    LexIsLossless(sql, 0);
    RewrittenDone(lexed);
    DoneCount(Rewritten(lexed));
  }

  lemma CutOneWord(s: string)
    requires s != "" && StartsWord(s[0]) && forall k :: 1 <= k < |s| ==> InWord(s[k])
    ensures NextToken(s, 0) == Ok(Cut(|s|, Word))
  {
    WholeRun(s, 1);
    hide RunEnd;
    assert !StartsAt(s, "--", 0) && !StartsAt(s, "/*", 0) by {
      assert |s| >= 2 ==> s[0..2][0] == s[0];
    }
  }

  lemma LexOneWord(s: string)
    requires s != "" && StartsWord(s[0]) && forall k :: 1 <= k < |s| ==> InWord(s[k])
    ensures Lex(s, 0) == Ok([Token(s, Word)])
  {
    CutOneWord(s);
    hide NextToken;
    assert s[0..|s|] == s;
    assert Lex(s, |s|) == Ok([]);
    assert [Token(s, Word)] + [] == [Token(s, Word)];
  }

  lemma {:induction false} WholeRun(s: string, i: nat)
    requires i <= |s| && forall k :: i <= k < |s| ==> InWord(s[k])
    ensures RunEnd(s, i, InWord) == |s|
    decreases |s| - i
  {
    if i < |s| { WholeRun(s, i + 1); }
  }

  /** A statement that consists of the marker has no question mark, and is reported to have
      a parameter. */
  lemma MarkerIsMiscounted(sql: string)
    requires sql == "LOWER_PARAMETER"
    ensures Lex(sql, 0) == Ok([Token(sql, Word)])
    ensures Questions([Token(sql, Word)], 1) == 0 && Rewritten([Token(sql, Word)]).count == 1
  {
    LexOneWord(sql);
    var lexed := [Token(sql, Word)];
    assert Significant(lexed, 1) == [] && Start(lexed).sig == [0];
    assert Stray(lexed, 0);
    ParametersInOrder(sql, lexed, 0);
    hide Rewritten, Stray;
    assert StrayMarkers(lexed, 0) == 0 && Questions(lexed, 0) == 0;
  }
}
