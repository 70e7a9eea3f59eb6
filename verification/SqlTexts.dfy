/** The whole rewritten statement, token by token, told from the tokens of the statement. */
module SqlTexts {
  import opened Letters
  import opened SqlFolding
  import opened SqlMarkers
  import opened SqlRewrite
  import opened SqlSafety
  import opened SqlTokens
  import opened Wrappers

  // ---------- INSERT OR IGNORE ----------

  function Significants(lexed: Lexed): nat { |Start(lexed).sig| }

  /** The text of the j-th token that is neither white space nor a comment. */
  function Input(lexed: Lexed, j: int): string {
    Text(Start(lexed), j)
  }

  predicate Folded(lexed: Lexed, j: nat) {
    FoldedBefore(Start(lexed), j, Significants(lexed))
  }

  /** INSERT OR IGNORE stands at i, and none of it is the column of a folded comparison. */
  predicate OrIgnore(lexed: Lexed, i: nat) {
    && Upper(Input(lexed, i)) == "INSERT" && Upper(Input(lexed, i + 1)) == "OR" && Upper(Input(lexed, i + 2)) == "IGNORE"
    && !Folded(lexed, i) && !Folded(lexed, i + 1) && !Folded(lexed, i + 2)
  }

  predicate FirstOrIgnore(lexed: Lexed, i: nat) {
    OrIgnore(lexed, i) && forall k :: 0 <= k < i ==> !OrIgnore(lexed, k)
  }

  predicate Dropped(lexed: Lexed, j: nat) {
    (j >= 1 && FirstOrIgnore(lexed, j - 1)) || (j >= 2 && FirstOrIgnore(lexed, j - 2))
  }

  /** The text of a token when parameters and names come to be rewritten. */
  function Settled(lexed: Lexed, j: int): string {
    if !(0 <= j < Significants(lexed)) || Dropped(lexed, j) then "" else FoldedTo(Start(lexed), j, Significants(lexed))
  }

  predicate Keyword(s: string) {
    s == "INSERT" || s == "OR" || s == "IGNORE"
  }

  lemma KeywordLetters(s: string)
    requires Keyword(s)
    ensures 2 <= |s| <= 6 && (s[1] == 'N' || s[1] == 'R' || s[1] == 'G') && s != "COLLATE" && s != "NOCASE"
  {
    assert s == "INSERT" ==> s[1] == 'N';
    assert s == "OR" ==> s[1] == 'R';
    assert s == "IGNORE" ==> s[1] == 'G';
    assert "NOCASE"[1] == 'O' && |"COLLATE"| == 7;
  }

  lemma UpperParts(column: string, s: string)
    requires |column| >= 6 && column[0] == 'l' && column[1] == 'o'
    ensures !Keyword(Upper(column)) && !Keyword(Upper(MARKER)) && !Keyword(Upper(""))
    ensures Keyword(Upper(s)) ==> s != "?" && Upper(s) != "COLLATE" && Upper(s) != "NOCASE"
  {
    assert Upper(column)[1] == UpperChar('o') == 'O' && |Upper(MARKER)| == |MARKER| == 15 && |Upper("")| == 0 && |Upper("?")| == 1;
    hide Keyword, Upper, UpperChar;
    if Keyword(Upper(column)) { KeywordLetters(Upper(column)); }
    if Keyword(Upper(MARKER)) { KeywordLetters(Upper(MARKER)); }
    if Keyword(Upper("")) { KeywordLetters(Upper("")); }
    if Keyword(Upper(s)) { KeywordLetters(Upper(s)); }
  }

  lemma KeywordsStay(lexed: Lexed, j: nat)
    requires j < Significants(lexed)
    ensures var (now, was) := (FoldedTo(Start(lexed), j, Significants(lexed)), Input(lexed, j));
      (Keyword(Upper(now)) ==> now == was && !Folded(lexed, j)) && (Keyword(Upper(was)) && !Folded(lexed, j) ==> now == was)
  {
    hide Start, Text, NameText, Upper;
    var w := Start(lexed);
    UpperParts(if Collates(w, j) then "lower(" + NameText(w, NameStart(w, j), j + 1) + ")" else "lower(", Text(w, j));
    if j >= 3 && Collates(w, j - 3) { assert Upper(Text(w, j)) == "COLLATE"; }
    if j >= 4 && Collates(w, j - 4) { assert Upper(Text(w, j)) == "NOCASE"; }
  }

  lemma IgnoresMeans(lexed: Lexed, i: nat)
    requires LexedOk(lexed)
    ensures Ignores(Collate(Start(lexed), 0), i) <==> OrIgnore(lexed, i)
  {
    var w := Collate(Start(lexed), 0);
    forall j: nat | j < Significants(lexed) ensures Text(w, j) == FoldedTo(Start(lexed), j, Significants(lexed)) { CollateTexts(lexed, j); }
    forall j: nat | i <= j <= i + 2 && j < Significants(lexed)
      ensures (Keyword(Upper(Text(w, j))) ==> Text(w, j) == Input(lexed, j) && !Folded(lexed, j))
      ensures Keyword(Upper(Input(lexed, j))) && !Folded(lexed, j) ==> Text(w, j) == Input(lexed, j)
    {
      KeywordsStay(lexed, j);
    }
    OutsideText(w, i);
    OutsideText(Start(lexed), i);
    hide Collate, Start, FoldedTo, Upper, Text, Folded;
  }

  lemma OutsideText(w: Work, i: nat)
    requires WorkOk(w)
    ensures forall j: int :: j >= |w.sig| ==> Text(w, j) == "" && !Keyword(Upper(Text(w, j)))
    ensures i >= |w.sig| ==> Text(w, i) == ""
  {
    assert Upper("") == "";
  }

  lemma {:induction false} IgnoreIndexIsFirst(lexed: Lexed, i: nat)
    requires LexedOk(lexed) && forall k :: 0 <= k < i ==> !OrIgnore(lexed, k)
    ensures var at := IgnoreIndex(Collate(Start(lexed), 0), i);
      && (at.Some? ==> FirstOrIgnore(lexed, at.value) && at.value + 2 < Significants(lexed))
      && (at.None? ==> forall k: nat :: !OrIgnore(lexed, k))
    decreases Significants(lexed) - i
  {
    hide Collate, Start, Ignores, OrIgnore;
    if i < Significants(lexed) {
      IgnoresMeans(lexed, i);
      if OrIgnore(lexed, i) { OrIgnoreEnds(lexed, i); } else { IgnoreIndexIsFirst(lexed, i + 1); }
    } else {
      forall k: nat ensures !OrIgnore(lexed, k) {
        if OrIgnore(lexed, k) { OrIgnoreEnds(lexed, k); }
      }
    }
  }

  lemma OrIgnoreEnds(lexed: Lexed, i: nat)
    requires OrIgnore(lexed, i)
    ensures i + 2 < Significants(lexed)
  {
    hide Start;
    OutsideText(Start(lexed), i);
  }

  lemma OneFirst(lexed: Lexed, a: nat, b: nat)
    requires FirstOrIgnore(lexed, a) && FirstOrIgnore(lexed, b)
    ensures a == b
  {
    hide OrIgnore;
  }

  lemma DroppedIs(lexed: Lexed, at: Option<nat>, j: nat)
    requires at.Some? ==> FirstOrIgnore(lexed, at.value)
    requires at.None? ==> forall k: nat :: !OrIgnore(lexed, k)
    ensures Dropped(lexed, j) <==> at.Some? && (j == at.value + 1 || j == at.value + 2)
  {
    hide OrIgnore;
    if j >= 1 && FirstOrIgnore(lexed, j - 1) && at.Some? { OneFirst(lexed, j - 1, at.value); }
    if j >= 2 && FirstOrIgnore(lexed, j - 2) && at.Some? { OneFirst(lexed, j - 2, at.value); }
  }

  lemma DropText(w: Work, j: int)
    requires WorkOk(w)
    ensures var at := IgnoreIndex(w, 0);
      at.Some? && at.value + 2 < |w.sig| ==>
        Text(DropIgnore(w), j) == if j == at.value + 1 || j == at.value + 2 then "" else Text(w, j)
    ensures IgnoreIndex(w, 0).None? ==> DropIgnore(w) == w
  {
    hide Put, Text;
    var at := IgnoreIndex(w, 0);
    if at.Some? && at.value + 2 < |w.sig| {
      PutText(w, at.value + 1, "");
      PutText(Put(w, at.value + 1, ""), at.value + 2, "");
    }
  }

  lemma SameSignificants(lexed: Lexed)
    ensures Ready(lexed) == DropIgnore(Collate(Start(lexed), 0))
    ensures |Ready(lexed).sig| == |Collate(Start(lexed), 0).sig| == Significants(lexed)
  {
    hide Collate, DropIgnore;
  }

  lemma BeyondText(w: Work, j: int)
    requires WorkOk(w) && !(0 <= j < |w.sig|)
    ensures Text(w, j) == ""
  {
  }

  /** When parameters come to be numbered every token has its settled text. */
  lemma ReadyTexts(lexed: Lexed, j: int)
    requires LexedOk(lexed)
    ensures Text(Ready(lexed), j) == Settled(lexed, j)
  {
    hide Collate, Start, Text, FoldedTo, FirstOrIgnore, OrIgnore, Dropped, IgnoreIndex, DropIgnore, Ready, Significants, Folded;
    SameSignificants(lexed);
    if 0 <= j < Significants(lexed) {
      CollateText(lexed, j);
      IgnoreIndexIsFirst(lexed, 0);
      DroppedIs(lexed, IgnoreIndex(Collate(Start(lexed), 0), 0), j);
      DropText(Collate(Start(lexed), 0), j);
    } else {
      BeyondText(Ready(lexed), j);
    }
  }

  lemma CollateText(lexed: Lexed, j: nat)
    requires LexedOk(lexed) && j < Significants(lexed)
    ensures j < |Start(lexed).sig|
    ensures Text(Collate(Start(lexed), 0), j) == FoldedTo(Start(lexed), j, Significants(lexed))
  {
    hide Collate, FoldedTo;
    CollateTexts(lexed, j);
  }

  // ---------- one token in the main loop ----------

  predicate BothCases(s: string) {
    exists i, k :: 0 <= i < |s| && 0 <= k < |s| && 'a' <= s[i] <= 'z' && 'A' <= s[k] <= 'Z'
  }

  predicate Introduces(word: string) {
    word == "FROM" || word == "JOIN" || word == "INTO" || word == "UPDATE" || word == "REFERENCES"
  }

  /** The parameter that a question mark or a marker becomes. */
  function Numbering(text: string, k: nat): string {
    if text == "?" then "$" + Decimal(k) else if text == MARKER then "lower($" + Decimal(k) + ")" else text
  }

  /** A name behind one of the words that introduce tables, unless its schema is written out
      or the word is that of DO UPDATE. */
  predicate NewTable(word: bool, before: string, earlier: string, next: string) {
    word && Introduces(before) && next != "." && !(before == "UPDATE" && earlier == "DO")
  }

  /** What becomes of one text: an alias is quoted, a table gets its schema. `before` and
      `earlier` are the words in front of it, in capitals. */
  function Renaming(word: bool, text: string, before: string, earlier: string, next: string): string {
    if word && before == "AS" && BothCases(text) then "\"" + text + "\""
    else if NewTable(word, before, earlier, next) then "groundwork." + text
    else text
  }

  /** LIMIT -1 in front of OFFSET, where LIMIT is neither an alias nor a table. */
  predicate NoLimit(text: string, before: string, next: string, second: string, third: string) {
    && Upper(text) == "LIMIT" && next == "-" && second == "1" && Upper(third) == "OFFSET"
    && !Introduces(before) && !(before == "AS" && BothCases(text))
  }

  lemma BothCasesMeans(s: string)
    ensures MixedCase(s) <==> BothCases(s)
  {
    if MixedCase(s) {
      var c, d :| c in s && 'a' <= c <= 'z' && d in s && 'A' <= d <= 'Z';
      var i :| 0 <= i < |s| && s[i] == c;
      var k :| 0 <= k < |s| && s[k] == d;
    }
    if BothCases(s) {
      var i, k :| 0 <= i < |s| && 0 <= k < |s| && 'a' <= s[i] <= 'z' && 'A' <= s[k] <= 'Z';
      assert s[i] in s && s[k] in s;
    }
  }

  lemma IntroducesMeans(word: string)
    ensures word in TABLE_INTRODUCERS <==> Introduces(word)
  {
  }

  lemma NumberText(s: Pass, i: nat)
    requires WorkOk(s.w) && i < |s.w.sig|
    ensures var (t, n) := (Text(s.w, i), Number(s, i));
      && n.count == s.count + (if t == "?" || t == MARKER then 1 else 0) && n.inserted == s.inserted
      && forall k: int :: Text(n.w, k) == if k == i then Numbering(t, s.count + 1) else Text(s.w, k)
  {
    hide Decimal;
    if Marks(Text(s.w, i)) { PutText(s.w, i, Parameter(Text(s.w, i), s.count + 1)); }
  }

  lemma QuoteText(w: Work, i: nat)
    requires WorkOk(w) && i < |w.sig|
    ensures var quoted := IsWord(w, i) && Upper(Text(w, i - 1)) == "AS" && BothCases(Text(w, i));
      forall k: int :: Text(Quote(w, i), k) == if k == i && quoted then "\"" + Text(w, i) + "\"" else Text(w, k)
  {
    BothCasesMeans(Text(w, i));
    hide MixedCase, BothCases, Put;
    PutText(w, i, "\"" + Text(w, i) + "\"");
  }

  lemma NamingText(s: Pass, i: nat)
    requires WorkOk(s.w) && i < |s.w.sig|
    ensures var (t, before, earlier, next) := (Text(s.w, i), Upper(Text(s.w, i - 1)), Upper(Text(s.w, i - 2)), Text(s.w, i + 1));
      var (n, over) := Name(s, i);
      && over == (IsWord(s.w, i) && Introduces(before) && !NewTable(IsWord(s.w, i), before, earlier, next))
      && n.count == s.count
      && n.inserted == (if NewTable(IsWord(s.w, i), before, earlier, next) && before == "INTO" then Some(Lower(t)) else s.inserted)
      && forall k: int :: Text(n.w, k) ==
           if k == i && NewTable(IsWord(s.w, i), before, earlier, next) then "groundwork." + t else Text(s.w, k)
  {
    IntroducesMeans(Upper(Text(s.w, i - 1)));
    hide Introduces, Put, Upper, Lower;
    PutText(s.w, i, "groundwork." + Text(s.w, i));
  }

  lemma UnlimitText(w: Work, i: nat)
    requires WorkOk(w) && i < |w.sig|
    ensures var gone := Upper(Text(w, i)) == "LIMIT" && Text(w, i + 1) == "-" && Text(w, i + 2) == "1" && Upper(Text(w, i + 3)) == "OFFSET";
      forall k: int :: Text(Unlimit(w, i), k) == if gone && i <= k <= i + 2 then "" else Text(w, k)
  {
    OutsideUpper(w);
    hide Put;
    if i + 2 < |w.sig| {
      PutText(w, i, "");
      PutText(Put(w, i, ""), i + 1, "");
      PutText(Put(Put(w, i, ""), i + 1, ""), i + 2, "");
    }
  }

  lemma OutsideUpper(w: Work)
    requires WorkOk(w)
    ensures forall j: int :: j >= |w.sig| ==> Text(w, j) == "" && Upper(Text(w, j)) == ""
  {
  }

  predicate Unnamed(word: bool, before: string, earlier: string, next: string) {
    word && Introduces(before) && !NewTable(word, before, earlier, next)
  }

  /** One round of the main loop, told on the texts it finds. */
  lemma RoundTexts(s: Pass, i: nat)
    requires WorkOk(s.w) && i < |s.w.sig|
    ensures var (t, before, earlier, next) := (Text(s.w, i), Upper(Text(s.w, i - 1)), Upper(Text(s.w, i - 2)), Text(s.w, i + 1));
      var (word, base, after) := (IsWord(s.w, i), Numbering(t, s.count + 1), PassAt(s, i));
      var named := Renaming(word, base, before, earlier, next);
      var gone := !Unnamed(word, before, earlier, next) && Upper(named) == "LIMIT" && next == "-" && Text(s.w, i + 2) == "1"
                  && Upper(Text(s.w, i + 3)) == "OFFSET";
      && after.inserted == (if NewTable(word, before, earlier, next) && before == "INTO" then Some(Lower(base)) else s.inserted)
      && forall k: int :: Text(after.w, k) == if gone && i <= k <= i + 2 then "" else if k == i then named else Text(s.w, k)
  {
    hide Text, Number, Quote, Name, Unlimit, Numbering, BothCases, Upper, Lower;
    NumberText(s, i);
    var numbered := Number(s, i);
    QuoteText(numbered.w, i);
    var quoted := numbered.(w := Quote(numbered.w, i));
    NamingText(quoted, i);
    var (named, over) := Name(quoted, i);
    UnlimitText(named.w, i);
    AliasIsNoTable(Upper(Text(s.w, i - 1)));
  }

  lemma AliasIsNoTable(before: string)
    ensures before == "AS" ==> !Introduces(before)
  {
  }

  // ---------- the final text of every token ----------

  predicate WordAt(lexed: Lexed, j: nat)
    requires j < Significants(lexed)
  {
    lexed[Start(lexed).sig[j]].kind == Word
  }

  /** The settled text, with its number if it counts as a parameter. */
  function Base(lexed: Lexed, j: nat): string
    requires j < Significants(lexed)
  {
    Numbering(Settled(lexed, j), Slots(lexed, Start(lexed).sig[j]) + 1)
  }

  /** The token in front as it has been rewritten, in capitals. */
  function Ahead(lexed: Lexed, j: int): string
    decreases if j < 0 then 0 else j, 0
  {
    if j < 1 then "" else Upper(Final(lexed, j - 1))
  }

  predicate LimitAt(lexed: Lexed, j: nat)
    decreases j, 1
  {
    NoLimit(Settled(lexed, j), Ahead(lexed, j), Settled(lexed, j + 1), Settled(lexed, j + 2), Settled(lexed, j + 3))
  }

  /** Token j is LIMIT, - or 1 of a LIMIT -1 that goes. */
  predicate InLimit(lexed: Lexed, j: nat)
    decreases j, 2
  {
    LimitAt(lexed, j) || (j >= 1 && LimitAt(lexed, j - 1)) || (j >= 2 && LimitAt(lexed, j - 2))
  }

  /** What the j-th token that is neither white space nor a comment becomes. */
  function Final(lexed: Lexed, j: nat): string
    decreases j, 3
  {
    if j >= Significants(lexed) || InLimit(lexed, j) then ""
    else Renaming(WordAt(lexed, j), Base(lexed, j), Ahead(lexed, j), Ahead(lexed, j - 1), Settled(lexed, j + 1))
  }

  predicate IntoTable(lexed: Lexed, j: nat)
    requires j < Significants(lexed)
  {
    Ahead(lexed, j) == "INTO" && NewTable(WordAt(lexed, j), "INTO", Ahead(lexed, j - 1), Settled(lexed, j + 1))
  }

  /** The last table before n that rows are inserted into. */
  function Inserted(lexed: Lexed, n: nat): Option<string>
    requires n <= Significants(lexed)
  {
    if n == 0 then None else if IntoTable(lexed, n - 1) then Some(Lower(Base(lexed, n - 1))) else Inserted(lexed, n - 1)
  }

  // ---------- the main loop ----------

  /** A token the loop has not come to: blanked already if a LIMIT -1 in front of it went. */
  function Pending(lexed: Lexed, j: nat, i: nat): string {
    if (j >= 1 && j - 1 < i && LimitAt(lexed, j - 1)) || (j >= 2 && j - 2 < i && LimitAt(lexed, j - 2)) then ""
    else Settled(lexed, j)
  }

  function TextAfter(lexed: Lexed, j: nat, i: nat): string {
    if j < i then Final(lexed, j) else Pending(lexed, j, i)
  }

  ghost predicate TextsTo(lexed: Lexed, s: Pass, i: nat) {
    && WorkOk(s.w) && s.w.lexed == lexed && s.w.sig == Start(lexed).sig && i <= Significants(lexed)
    && s.inserted == Inserted(lexed, i)
    && forall j: nat :: j < Significants(lexed) ==> Text(s.w, j) == TextAfter(lexed, j, i)
  }

  lemma SettledIs(lexed: Lexed, j: nat)
    requires j < Significants(lexed)
    ensures var t := Settled(lexed, j);
      t == "" || t == MARKER || (|t| >= 6 && t[0] == 'l' && t[1] == 'o') || t == lexed[Start(lexed).sig[j]].text
  {
    hide Start, Dropped, FoldedBefore, Collates, NameText, NameStart, CollationBefore, ComparedBefore;
    StartText(lexed, j);
  }

  lemma StartText(lexed: Lexed, j: nat)
    requires j < Significants(lexed)
    ensures Start(lexed).sig[j] < |lexed| && Text(Start(lexed), j) == lexed[Start(lexed).sig[j]].text
  {
  }

  lemma UpperPointwise(s: string, u: string)
    requires Upper(s) == u
    ensures |s| == |u| && forall i :: 0 <= i < |u| ==> UpperChar(s[i]) == u[i]
  {
  }

  lemma UpperLetters(c: char, d: char)
    requires UpperChar(c) == 'L' && UpperChar(d) == 'I'
    ensures (c == 'L' || c == 'l') && (d == 'I' || d == 'i')
  {
  }

  lemma LimitLetters(s: string)
    requires Upper(s) == "LIMIT"
    ensures |s| == 5 && (s[0] == 'L' || s[0] == 'l') && (s[1] == 'I' || s[1] == 'i')
  {
    hide *;
    UpperPointwise(s, "LIMIT");
    UpperLetters(s[0], s[1]);
  }

  lemma TokenWords(t: Token)
    requires TokenOk(t)
    ensures t.text == "-" || t.text == "1" ==> t.kind != Word
    ensures Upper(t.text) == "LIMIT" ==> t.kind == Word
  {
    hide Upper;
    assert t.text[0] in t.text;
    if Upper(t.text) == "LIMIT" { LimitLetters(t.text); }
  }

  lemma NeverLimit(column: string)
    requires |column| >= 6 && column[0] == 'l' && column[1] == 'o'
    ensures Upper(column) != "LIMIT" && Upper(MARKER) != "LIMIT" && Upper("") != "LIMIT" && column != "-" && column != "1"
  {
    hide Upper;
    if Upper(column) == "LIMIT" { LimitLetters(column); }
    if Upper(MARKER) == "LIMIT" { LimitLetters(MARKER); }
    if Upper("") == "LIMIT" { LimitLetters(""); }
  }

  lemma SettledMeans(lexed: Lexed, j: nat)
    requires LexedOk(lexed) && j < Significants(lexed)
    ensures Settled(lexed, j) == "-" || Settled(lexed, j) == "1" ==> !WordAt(lexed, j)
    ensures Upper(Settled(lexed, j)) == "LIMIT" ==> WordAt(lexed, j)
  {
    var t := Settled(lexed, j);
    hide Start, Settled, TokenOk, Upper;
    SettledIs(lexed, j);
    StartText(lexed, j);
    assert lexed[Start(lexed).sig[j]] in lexed;
    TokenWords(lexed[Start(lexed).sig[j]]);
    NeverLimit(if |t| >= 6 && t[0] == 'l' && t[1] == 'o' then t else "lower(");
  }

  // ---------- one round ----------

  lemma LimitTexts(lexed: Lexed, i: nat)
    requires LimitAt(lexed, i)
    ensures Upper(Settled(lexed, i)) == "LIMIT" && Settled(lexed, i + 1) == "-" && Settled(lexed, i + 2) == "1"
    ensures i + 2 < Significants(lexed)
  {
    hide Upper;
  }

  lemma NotTwice(lexed: Lexed, i: nat)
    ensures LimitAt(lexed, i) ==> !(i >= 1 && LimitAt(lexed, i - 1)) && !(i >= 2 && LimitAt(lexed, i - 2))
  {
    hide LimitAt, Upper, Settled;
    if LimitAt(lexed, i) {
      LimitTexts(lexed, i);
      LimitLetters(Settled(lexed, i));
      if i >= 1 && LimitAt(lexed, i - 1) { LimitTexts(lexed, i - 1); }
      if i >= 2 && LimitAt(lexed, i - 2) { LimitTexts(lexed, i - 2); }
    }
  }

  /** Only LIMIT itself, neither alias nor table, is LIMIT when it comes to the last test. */
  lemma GoneMeans(word: bool, t: string, count: nat, before: string, earlier: string, next: string, second: string, third: string)
    requires Upper(t) == "LIMIT" ==> word
    ensures
      (!Unnamed(word, before, earlier, next) && Upper(Renaming(word, Numbering(t, count), before, earlier, next)) == "LIMIT"
       && next == "-" && second == "1" && Upper(third) == "OFFSET")
      <==> NoLimit(t, before, next, second, third)
  {
    LimitStaysItself(t, count);
    LimitIsNotRenamed(Numbering(t, count));
    AliasIsNoTable(before);
    hide Numbering, BothCases, Introduces, Upper;
  }

  lemma LimitStaysItself(t: string, count: nat)
    ensures Upper(Numbering(t, count)) == "LIMIT" <==> Upper(t) == "LIMIT"
    ensures Upper(t) == "LIMIT" ==> Numbering(t, count) == t
  {
    hide Decimal, Upper;
    if Upper(Numbering(t, count)) == "LIMIT" { LimitLetters(Numbering(t, count)); }
    if Upper(t) == "LIMIT" { LimitLetters(t); }
  }

  lemma LimitIsNotRenamed(t: string)
    ensures Upper("\"" + t + "\"") != "LIMIT" && Upper("groundwork." + t) != "LIMIT"
  {
    hide Upper;
    if Upper("\"" + t + "\"") == "LIMIT" { LimitLetters("\"" + t + "\""); }
    if Upper("groundwork." + t) == "LIMIT" { LimitLetters("groundwork." + t); }
  }

  // ---------- the loop ----------

  lemma FoundTexts(lexed: Lexed, s: Pass, i: nat)
    requires LexedOk(lexed) && TextsTo(lexed, s, i) && i < Significants(lexed)
    ensures Upper(Text(s.w, i - 1)) == Ahead(lexed, i) && Upper(Text(s.w, i - 2)) == Ahead(lexed, i - 1)
    ensures Text(s.w, i) == (if InLimitBefore(lexed, i) then "" else Settled(lexed, i))
    ensures Text(s.w, i + 1) == (if i >= 1 && LimitAt(lexed, i - 1) then "" else Settled(lexed, i + 1))
    ensures Text(s.w, i + 2) == Settled(lexed, i + 2) && Text(s.w, i + 3) == Settled(lexed, i + 3)
  {
    hide Text, Settled, LimitAt, Final, Upper;
    assert Text(s.w, i) == TextAfter(lexed, i, i);
    if i >= 1 { assert Text(s.w, i - 1) == TextAfter(lexed, i - 1, i); }
    if i >= 2 { assert Text(s.w, i - 2) == TextAfter(lexed, i - 2, i); }
    FoundText(lexed, s, i, i);
    FoundText(lexed, s, i, i + 1);
    FoundText(lexed, s, i, i + 2);
    FoundText(lexed, s, i, i + 3);
    AheadOfAll(s.w);
  }

  /** Token i was blanked by a LIMIT -1 in front of it. */
  predicate InLimitBefore(lexed: Lexed, i: nat) {
    (i >= 1 && LimitAt(lexed, i - 1)) || (i >= 2 && LimitAt(lexed, i - 2))
  }

  function Found(lexed: Lexed, j: nat, i: nat): string
    requires i <= j
  {
    Pending(lexed, j, i)
  }

  lemma FoundText(lexed: Lexed, s: Pass, i: nat, j: nat)
    requires TextsTo(lexed, s, i) && i <= j
    ensures Text(s.w, j) == Found(lexed, j, i)
  {
    hide LimitAt;
    if j < Significants(lexed) {
      assert Text(s.w, j) == TextAfter(lexed, j, i);
    } else {
      BeyondText(s.w, j);
    }
  }

  lemma AheadOfAll(w: Work)
    requires WorkOk(w)
    ensures Text(w, -1) == "" && Text(w, -2) == "" && Upper("") == ""
  {
  }

  lemma BlankedRound(lexed: Lexed, s: Pass, i: nat)
    requires LexedOk(lexed) && TextsTo(lexed, s, i) && i < Significants(lexed) && InLimitBefore(lexed, i)
    ensures var after := PassAt(s, i);
      after.inserted == s.inserted && !LimitAt(lexed, i) && !IntoTable(lexed, i)
      && forall k: int :: Text(after.w, k) == Text(s.w, k)
  {
    hide Text, Settled, LimitAt, Final, Lower, Upper, PassAt, Start, BothCases, Introduces;
    FoundTexts(lexed, s, i);
    RoundTexts(s, i);
    SettledMeans(lexed, i);
    BlankedIsNoWord(lexed, i);
    NotTwice(lexed, i);
    NeverLimit("lower(");
    SameWord(lexed, s, i);
  }

  lemma BlankedIsNoWord(lexed: Lexed, i: nat)
    requires LexedOk(lexed) && i < Significants(lexed) && InLimitBefore(lexed, i)
    ensures !WordAt(lexed, i)
  {
    hide LimitAt, Settled, WordAt, Start;
    SettledMeans(lexed, i);
    if i >= 1 && LimitAt(lexed, i - 1) { LimitTexts(lexed, i - 1); } else { LimitTexts(lexed, i - 2); }
  }

  lemma SameWord(lexed: Lexed, s: Pass, i: nat)
    requires TextsTo(lexed, s, i) && i < Significants(lexed)
    ensures IsWord(s.w, i) <==> WordAt(lexed, i)
  {
    hide Start, Text, Inserted, TextAfter;
  }

  lemma PlainRound(lexed: Lexed, s: Pass, i: nat)
    requires LexedOk(lexed) && TextsTo(lexed, s, i) && i < Significants(lexed) && !InLimitBefore(lexed, i)
    requires s.count == Slots(lexed, Start(lexed).sig[i])
    ensures var after := PassAt(s, i);
      && after.inserted == (if IntoTable(lexed, i) then Some(Lower(Base(lexed, i))) else s.inserted)
      && forall k: int :: Text(after.w, k) == RoundText(Text(s.w, k), Renamed(lexed, i), LimitAt(lexed, i), i, k)
  {
    hide Text, Settled, Final, Lower, Upper, PassAt, Start, BothCases, Introduces, Slots, Numbering, Renaming, NewTable, WordAt, TextsTo;
    FoundTexts(lexed, s, i);
    SameWord(lexed, s, i);
    SettledMeans(lexed, i);
    GoneMeans(WordAt(lexed, i), Settled(lexed, i), s.count + 1, Ahead(lexed, i), Ahead(lexed, i - 1),
              Settled(lexed, i + 1), Settled(lexed, i + 2), Settled(lexed, i + 3));
    TextsOk(lexed, s, i);
    RoundTexts(s, i);
  }

  lemma TextsOk(lexed: Lexed, s: Pass, i: nat)
    requires TextsTo(lexed, s, i) && i < Significants(lexed)
    ensures WorkOk(s.w) && i < |s.w.sig| && s.w.lexed == lexed && s.inserted == Inserted(lexed, i)
  {
  }

  /** The text that a round at i leaves at k, where the round blanks LIMIT -1 if `gone`. */
  function RoundText(was: string, named: string, gone: bool, i: nat, k: int): string {
    if gone && i <= k <= i + 2 then "" else if k == i then named else was
  }

  lemma NextText(lexed: Lexed, i: nat, j: nat, was: string)
    requires was == TextAfter(lexed, j, i)
    ensures RoundText(was, Final(lexed, i), LimitAt(lexed, i), i, j) == TextAfter(lexed, j, i + 1)
  {
    hide Settled, LimitAt, Final;
    if LimitAt(lexed, i) { LimitedIsBlank(lexed, i); }
  }

  lemma NextTexts(lexed: Lexed, s: Pass, after: Pass, i: nat)
    requires TextsTo(lexed, s, i) && i < Significants(lexed) && WorkOk(after.w) && after.w.lexed == lexed && after.w.sig == s.w.sig
    requires after.inserted == Inserted(lexed, i + 1)
    requires forall k: int :: Text(after.w, k) == RoundText(Text(s.w, k), Final(lexed, i), LimitAt(lexed, i), i, k)
    ensures TextsTo(lexed, after, i + 1)
  {
    hide Text, Settled, LimitAt, Final, Lower, Start, IntoTable, Base, RoundText, TextAfter, Inserted;
    forall j: nat | j < Significants(lexed) ensures Text(after.w, j) == TextAfter(lexed, j, i + 1) {
      NextText(lexed, i, j, Text(s.w, j));
    }
  }

  lemma LimitedIsBlank(lexed: Lexed, i: nat)
    requires InLimit(lexed, i)
    ensures Final(lexed, i) == ""
  {
  }

  function Renamed(lexed: Lexed, i: nat): string
    requires i < Significants(lexed)
  {
    Renaming(WordAt(lexed, i), Base(lexed, i), Ahead(lexed, i), Ahead(lexed, i - 1), Settled(lexed, i + 1))
  }

  lemma PlainIsRenamed(lexed: Lexed, i: nat)
    requires i < Significants(lexed) && !InLimit(lexed, i)
    ensures Final(lexed, i) == Renamed(lexed, i)
  {
  }

  lemma NextInserted(lexed: Lexed, i: nat)
    requires i < Significants(lexed)
    ensures Inserted(lexed, i + 1) == if IntoTable(lexed, i) then Some(Lower(Base(lexed, i))) else Inserted(lexed, i)
  {
    hide IntoTable, Lower, Base, Start;
  }

  lemma RoundKeeps(lexed: Lexed, s: Pass, i: nat)
    requires LexedOk(lexed) && TextsTo(lexed, s, i) && i < Significants(lexed) && s.count == Slots(lexed, Start(lexed).sig[i])
    ensures TextsTo(lexed, PassAt(s, i), i + 1)
  {
    hide Text, Settled, LimitAt, Final, Lower, PassAt, Start, IntoTable, Base, Slots, Renamed, Inserted, TextsTo, InLimitBefore;
    TextsOk(lexed, s, i);
    NextInserted(lexed, i);
    if InLimitBefore(lexed, i) {
      BlankedRound(lexed, s, i);
      BlankedStays(lexed, s, i);
    } else {
      PlainRound(lexed, s, i);
      PlainStays(lexed, s, i);
    }
    NextTexts(lexed, s, PassAt(s, i), i);
  }

  lemma BlankedStays(lexed: Lexed, s: Pass, i: nat)
    requires TextsTo(lexed, s, i) && i < Significants(lexed) && InLimitBefore(lexed, i) && !LimitAt(lexed, i)
    ensures forall k: int :: RoundText(Text(s.w, k), Final(lexed, i), LimitAt(lexed, i), i, k) == Text(s.w, k)
  {
    hide Text, LimitAt, Final, Start, Inserted;
    LimitedIsBlank(lexed, i);
    assert Text(s.w, i) == TextAfter(lexed, i, i);
  }

  lemma PlainStays(lexed: Lexed, s: Pass, i: nat)
    requires TextsTo(lexed, s, i) && i < Significants(lexed) && !InLimitBefore(lexed, i)
    ensures forall k: int :: (RoundText(Text(s.w, k), Final(lexed, i), LimitAt(lexed, i), i, k)
                              == RoundText(Text(s.w, k), Renamed(lexed, i), LimitAt(lexed, i), i, k))
  {
    hide Text, LimitAt, Final, Start, Inserted, Renamed, TextsTo;
    if !LimitAt(lexed, i) { PlainIsRenamed(lexed, i); }
  }
}
