/** The first loops of the rewriter, and the words of a statement that the later loop takes
    for parameters: question marks, and stray uses of the rules' own mark LOWER_PARAMETER. */
module SqlMarkers {
  import opened SqlTokens
  import opened SqlRewrite

  const MARKER := "LOWER_PARAMETER"

  // ---------- what every rewriting respects ----------

  ghost predicate LexedOk(lexed: Lexed) {
    forall t :: t in lexed ==> TokenOk(t)
  }

  /** White space and protected text are as they were. */
  ghost predicate Frozen(w: Work)
    requires WorkOk(w)
  {
    forall p :: 0 <= p < |w.lexed| && (w.lexed[p].kind == Space || w.lexed[p].kind == Protected) ==> w.texts[p] == w.lexed[p].text
  }

  predicate Code(w: Work, j: nat)
    requires WorkOk(w) && j < |w.sig|
  {
    w.lexed[w.sig[j]].kind == Word || w.lexed[w.sig[j]].kind == Symbol
  }

  ghost predicate Sound(w: Work) {
    && WorkOk(w) && LexedOk(w.lexed) && Frozen(w)
    && forall j :: 0 <= j < |w.sig| ==> Meaningful(w.lexed[w.sig[j]])
  }

  /** Protected text opens with a quote or a dollar sign, so no rule mistakes it for code. */
  lemma CodeByText(w: Work, j: nat)
    requires Sound(w) && j < |w.sig|
    requires Text(w, j) == "" || !(IsQuote(Upper(Text(w, j))[0]) || Upper(Text(w, j))[0] == '$')
    ensures Code(w, j)
  {
    var t := w.lexed[w.sig[j]];
    assert t in w.lexed && TokenOk(t);
  }

  lemma PutSound(w: Work, j: nat, text: string)
    requires Sound(w) && j < |w.sig| && Code(w, j)
    ensures Sound(Put(w, j, text))
  {
  }

  lemma PutText(w: Work, j: nat, text: string)
    requires WorkOk(w) && j < |w.sig|
    ensures forall k: int :: Text(Put(w, j, text), k) == if k == j then text else Text(w, k)
  {
  }

  lemma BlankSound(w: Work, j: nat)
    requires Sound(w) && j < |w.sig|
    requires Text(w, j) == "" || !(IsQuote(Upper(Text(w, j))[0]) || Upper(Text(w, j))[0] == '$')
    ensures Sound(Put(w, j, ""))
  {
    CodeByText(w, j);
    PutSound(w, j, "");
  }

  // ---------- columns that are folded ----------

  /** Where the qualified name that ends at `start` begins. */
  function NameStart(w: Work, start: nat): (r: nat)
    requires WorkOk(w) && start < |w.sig|
    ensures r <= start
  {
    if start >= 2 && Text(w, start - 1) == "." && IsWord(w, start - 2) then NameStart(w, start - 2) else start
  }

  /** Token j belongs to the column of one of the first n comparisons `name = ? COLLATE NOCASE`. */
  predicate FoldedBefore(w: Work, j: nat, n: nat)
    requires WorkOk(w)
  {
    exists i :: 0 <= i < n && i < |w.sig| && Collates(w, i) && NameStart(w, i) <= j <= i
  }

  /** The token at position p of the statement belongs to the column of a comparison that is folded. */
  predicate InFoldedColumn(lexed: Lexed, p: nat) {
    var w := Start(lexed);
    exists i :: 0 <= i < |w.sig| && Collates(w, i) && w.sig[NameStart(w, i)] <= p <= w.sig[i]
  }

  predicate Question(lexed: Lexed, p: nat)
    requires p < |lexed|
  {
    lexed[p].text == "?"
  }

  /** A word spelled like the mark of the rules that no folding takes away. */
  predicate Stray(lexed: Lexed, p: nat)
    requires p < |lexed|
  {
    lexed[p].text == MARKER && !InFoldedColumn(lexed, p)
  }

  /** The number of unprotected question marks before position n. */
  function Questions(lexed: Lexed, n: nat): nat
    requires n <= |lexed|
  {
    if n == 0 then 0 else Questions(lexed, n - 1) + if Question(lexed, n - 1) then 1 else 0
  }

  function StrayMarkers(lexed: Lexed, n: nat): nat
    requires n <= |lexed|
  {
    if n == 0 then 0 else StrayMarkers(lexed, n - 1) + if Stray(lexed, n - 1) then 1 else 0
  }

  lemma {:induction false} NoStrayMarkers(lexed: Lexed, n: nat)
    requires n <= |lexed|
    ensures StrayMarkers(lexed, n) == 0 <==> forall q :: 0 <= q < n ==> !Stray(lexed, q)
  {
    hide Stray;
    if n > 0 { NoStrayMarkers(lexed, n - 1); }
  }

  // ---------- the texts while columns are folded ----------

  /** What folding does to a token outside the columns that is k places ahead of the loop. */
  predicate SameRole(before: string, after: string, k: int) {
    || after == before
    || (k < 2 && before == "?" && after == MARKER)
    || (k < 3 && Upper(before) == "COLLATE" && after == "")
    || (k < 4 && Upper(before) == "NOCASE" && after == "")
  }

  ghost predicate TokenFolding(w0: Work, w: Work, n: nat, j: nat)
    requires WorkOk(w0) && WorkOk(w)
  {
    if FoldedBefore(w0, j, n) then !Marks(Text(w, j)) else SameRole(Text(w0, j), Text(w, j), j - n)
  }

  /** The work after n rounds of the loop that began with w0. */
  ghost predicate Folding(w0: Work, w: Work, n: nat) {
    && Sound(w0) && Sound(w) && w.lexed == w0.lexed && w.sig == w0.sig
    && (forall j :: 0 <= j < |w0.sig| ==> Text(w0, j) == w0.lexed[w0.sig[j]].text)
    && forall j :: 0 <= j < |w0.sig| ==> TokenFolding(w0, w, n, j)
  }

  lemma UpperOfMarks(s: string)
    ensures Upper(s) == "COLLATE" || Upper(s) == "NOCASE" ==> !Marks(s) && s != "." && s != "=" && s != ""
  {
  }

  lemma RolesAgree(before: string, after: string, k: int)
    requires SameRole(before, after, k)
    ensures Marks(before) <==> Marks(after)
    ensures before == "." <==> after == "."
    ensures k == 1 ==> (before == "=" <==> after == "=")
    ensures k == 2 ==> (before == "?" <==> after == "?")
    ensures k == 3 ==> (Upper(before) == "COLLATE" <==> Upper(after) == "COLLATE")
    ensures k == 4 ==> (Upper(before) == "NOCASE" <==> Upper(after) == "NOCASE")
  {
    UpperOfMarks(before);
    assert Upper("") == "";
    hide Upper;
  }

  lemma AheadOfColumns(w0: Work, w: Work, n: nat, j: nat)
    requires WorkOk(w0) && WorkOk(w) && Folding(w0, w, n) && n < j < |w.sig|
    ensures SameRole(Text(w0, j), Text(w, j), j - n)
  {
    hide SameRole, Sound, Text, NameStart, Collates;
    assert TokenFolding(w0, w, n, j);
  }

  lemma SameComparisons(w0: Work, w: Work, n: nat)
    requires WorkOk(w0) && WorkOk(w) && Folding(w0, w, n)
    ensures Collates(w, n) <==> Collates(w0, n)
  {
    hide SameRole, Sound, Upper;
    if n + 4 < |w.sig| {
      AheadOfColumns(w0, w, n, n + 1);
      AheadOfColumns(w0, w, n, n + 2);
      AheadOfColumns(w0, w, n, n + 3);
      AheadOfColumns(w0, w, n, n + 4);
      RolesAgree(Text(w0, n + 1), Text(w, n + 1), 1);
      RolesAgree(Text(w0, n + 2), Text(w, n + 2), 2);
      RolesAgree(Text(w0, n + 3), Text(w, n + 3), 3);
      RolesAgree(Text(w0, n + 4), Text(w, n + 4), 4);
    }
  }

  /** A name consists of words and dots. */
  predicate WordOrDot(w: Work, k: nat)
    requires WorkOk(w) && k < |w.sig|
  {
    IsWord(w, k) || Text(w, k) == "."
  }

  lemma {:induction false} NamesAreWords(w: Work, start: nat)
    requires WorkOk(w) && start < |w.sig| && IsWord(w, start)
    ensures forall k :: NameStart(w, start) <= k <= start ==> WordOrDot(w, k)
  {
    hide Text;
    if start >= 2 && Text(w, start - 1) == "." && IsWord(w, start - 2) { NamesAreWords(w, start - 2); }
  }

  lemma NotAWord(w0: Work, j: nat)
    requires Sound(w0) && j < |w0.sig| && Text(w0, j) == w0.lexed[w0.sig[j]].text && (Text(w0, j) == "?" || Text(w0, j) == "=")
    ensures !WordOrDot(w0, j)
  {
    assert w0.lexed[w0.sig[j]] in w0.lexed;
    assert TokenOk(w0.lexed[w0.sig[j]]) && Text(w0, j)[0] in Text(w0, j);
  }

  /** The name in front of a comparison does not reach into an earlier column. */
  lemma NamesAreApart(w0: Work, w: Work, n: nat, start: nat)
    requires WorkOk(w0) && Folding(w0, w, n) && Collates(w0, n) && 0 < start <= n
    requires forall k :: start <= k <= n ==> WordOrDot(w0, k)
    ensures !FoldedBefore(w0, start - 1, n)
  {
    hide Sound, Text, TokenFolding, NameStart;
    if FoldedBefore(w0, start - 1, n) {
      var i :| 0 <= i < n && i < |w0.sig| && Collates(w0, i) && NameStart(w0, i) <= start - 1 <= i;
      NotAWord(w0, i + 1);
    }
  }

  lemma {:induction false} SameNames(w0: Work, w: Work, n: nat, start: nat)
    requires WorkOk(w0) && WorkOk(w) && Folding(w0, w, n) && n < |w0.sig| && Collates(w0, n) && start <= n
    requires forall k :: start <= k <= n ==> WordOrDot(w0, k)
    ensures NameStart(w, start) == NameStart(w0, start)
    decreases start
  {
    hide Sound, Text, SameRole, Collates, FoldedBefore;
    if start >= 2 {
      NamesAreApart(w0, w, n, start);
      assert TokenFolding(w0, w, n, start - 1);
      RolesAgree(Text(w0, start - 1), Text(w, start - 1), start - 1 - n);
      if Text(w0, start - 1) == "." && IsWord(w0, start - 2) { SameNames(w0, w, n, start - 2); }
    }
  }

  lemma {:induction false} NamesLookBack(a: Work, b: Work, start: nat)
    requires WorkOk(a) && WorkOk(b) && a.lexed == b.lexed && a.sig == b.sig && start < |a.sig|
    requires forall k: int :: k < start ==> Text(a, k) == Text(b, k)
    ensures NameStart(a, start) == NameStart(b, start)
  {
    hide Text;
    if start >= 2 && Text(a, start - 1) == "." && IsWord(a, start - 2) { NamesLookBack(a, b, start - 2); }
  }

  lemma QualifierBlanks(w: Work, start: nat)
    requires WorkOk(w) && Sound(w) && 2 <= start < |w.sig| && Text(w, start - 1) == "." && IsWord(w, start - 2)
    ensures var after := Put(Put(w, start - 2, ""), start - 1, "");
      && Sound(after) && NameStart(after, start - 2) == NameStart(w, start - 2)
      && forall k: int :: Text(after, k) == if k == start - 1 || k == start - 2 then "" else Text(w, k)
  {
    hide Sound, Put, Text, NameStart;
    PutText(w, start - 2, "");
    PutSound(w, start - 2, "");
    var between := Put(w, start - 2, "");
    PutText(between, start - 1, "");
    BlankSound(between, start - 1);
    NamesLookBack(w, Put(between, start - 1, ""), start - 2);
  }

  lemma {:induction false} QualifyBlanks(w: Work, start: nat, identifier: string)
    requires WorkOk(w) && Sound(w) && start < |w.sig|
    ensures Sound(Qualify(w, start, identifier).0)
    ensures forall k: int :: Text(Qualify(w, start, identifier).0, k) == if NameStart(w, start) <= k < start then "" else Text(w, k)
    decreases start
  {
    hide Sound, Put, Text;
    if start >= 2 && Text(w, start - 1) == "." && IsWord(w, start - 2) {
      QualifierBlanks(w, start);
      QualifyBlanks(Put(Put(w, start - 2, ""), start - 1, ""), start - 2, Text(w, start - 2) + "." + identifier);
    }
  }

  /** The texts after a comparison at n has been folded. */
  function FoldedText(w: Work, n: nat, column: string, k: int): string
    requires WorkOk(w) && n < |w.sig|
  {
    if k == n then column
    else if NameStart(w, n) <= k < n || k == n + 3 || k == n + 4 then ""
    else if k == n + 2 then MARKER
    else Text(w, k)
  }

  lemma CollateAtTexts(w: Work, n: nat) returns (column: string)
    requires WorkOk(w) && Sound(w) && Collates(w, n)
    ensures Sound(CollateAt(w, n)) && column != "" && column[0] == 'l' && |column| >= 6 && column[5] == '('
    ensures forall k: int :: Text(CollateAt(w, n), k) == FoldedText(w, n, column, k)
  {
    hide Sound, Put, Text, Qualify, NameStart;
    QualifyBlanks(w, n, Text(w, n));
    var (q, identifier) := Qualify(w, n, Text(w, n));
    column := "lower(" + identifier + ")";
    PutText(q, n, column);
    PutSound(q, n, column);
    var w1 := Put(q, n, column);
    CodeByText(w1, n + 2);
    PutText(w1, n + 2, MARKER);
    PutSound(w1, n + 2, MARKER);
    var w2 := Put(w1, n + 2, MARKER);
    assert Upper(Text(w2, n + 3))[0] == 'C' && Upper(Text(w2, n + 4))[0] == 'N';
    PutText(w2, n + 3, "");
    BlankSound(w2, n + 3);
    PutText(Put(w2, n + 3, ""), n + 4, "");
    BlankSound(Put(w2, n + 3, ""), n + 4);
  }

  lemma FoldedGrows(w0: Work, j: nat, n: nat)
    requires WorkOk(w0)
    ensures FoldedBefore(w0, j, n) ==> j < n
    ensures FoldedBefore(w0, j, n + 1) <==> FoldedBefore(w0, j, n) || (n < |w0.sig| && Collates(w0, n) && NameStart(w0, n) <= j <= n)
  {
    hide Collates, NameStart;
  }

  lemma FoldToken(w0: Work, w: Work, n: nat, column: string, j: nat)
    requires WorkOk(w0) && WorkOk(w) && Folding(w0, w, n) && Collates(w0, n) && Collates(w, n)
    requires NameStart(w, n) == NameStart(w0, n) && WorkOk(CollateAt(w, n))
    requires Text(CollateAt(w, n), j) == FoldedText(w, n, column, j)
    requires |column| >= 6 && column[0] == 'l' && j < |w0.sig|
    ensures TokenFolding(w0, CollateAt(w, n), n + 1, j)
  {
    hide Sound, Text, CollateAt, NameStart, FoldedBefore, Upper;
    FoldedGrows(w0, j, n);
    assert TokenFolding(w0, w, n, j);
    if n + 2 <= j <= n + 4 {
      RolesAgree(Text(w0, j), Text(w, j), j - n);
    }
  }

  lemma CollateAtFolds(w0: Work, w: Work, n: nat)
    requires WorkOk(w0) && WorkOk(w) && Folding(w0, w, n)
    ensures Folding(w0, CollateAt(w, n), n + 1)
  {
    hide Sound, Text, SameRole, FoldedBefore, FoldedText, NameStart;
    SameComparisons(w0, w, n);
    if Collates(w, n) {
      NamesAreWords(w0, n);
      assert WordOrDot(w0, n);
      SameNames(w0, w, n, n);
      var column := CollateAtTexts(w, n);
      var (after, next) := (CollateAt(w, n), n + 1);
      forall j | 0 <= j < |w0.sig| ensures TokenFolding(w0, after, next, j) {
        FoldToken(w0, w, n, column, j);
      }
    } else {
      var next := n + 1;
      forall j | 0 <= j < |w0.sig| ensures TokenFolding(w0, w, next, j) {
        assert TokenFolding(w0, w, n, j);
        FoldedGrows(w0, j, n);
        RoleFades(Text(w0, j), Text(w, j), j - n);
      }
    }
  }

  lemma RoleFades(before: string, after: string, k: int)
    ensures SameRole(before, after, k) ==> SameRole(before, after, k - 1)
  {
  }

  lemma {:induction false} CollateFolds(w0: Work, w: Work, n: nat)
    requires WorkOk(w0) && WorkOk(w) && Folding(w0, w, n) && n <= |w.sig|
    ensures Folding(w0, Collate(w, n), |w.sig|)
    decreases |w.sig| - n
  {
    hide Folding;
    SameTokens(w0, w, n);
    CollateAtFolds(w0, w, n);
    if n + 4 < |w.sig| {
      CollateFolds(w0, CollateAt(w, n), n + 1);
    } else if n < |w.sig| {
      assert CollateAt(w, n) == w;
      assert Collate(w, n + 1) == w;
      CollateFolds(w0, w, n + 1);
    }
  }

  lemma SameTokens(w0: Work, w: Work, n: nat)
    requires Folding(w0, w, n)
    ensures w.lexed == w0.lexed && w.sig == w0.sig
  {
  }

  // ---------- which tokens count as parameters ----------

  predicate Slot(lexed: Lexed, p: nat)
    requires p < |lexed|
  {
    Question(lexed, p) || Stray(lexed, p)
  }

  function Slots(lexed: Lexed, n: nat): nat
    requires n <= |lexed|
  {
    Questions(lexed, n) + StrayMarkers(lexed, n)
  }

  ghost predicate MarksAre(w: Work, from: nat)
    requires WorkOk(w)
  {
    forall j :: from <= j < |w.sig| ==> (Marks(Text(w, j)) <==> Slot(w.lexed, w.sig[j]))
  }

  ghost predicate Kept(w: Work) {
    Sound(w) && MarksAre(w, 0)
  }

  lemma FoldedPositions(lexed: Lexed, j: nat)
    requires j < |Start(lexed).sig|
    ensures FoldedBefore(Start(lexed), j, |Start(lexed).sig|) <==> InFoldedColumn(lexed, Start(lexed).sig[j])
  {
    hide Collates, NameStart, Start;
    var w := Start(lexed);
    if InFoldedColumn(lexed, w.sig[j]) {
      var i :| 0 <= i < |w.sig| && Collates(w, i) && w.sig[NameStart(w, i)] <= w.sig[j] <= w.sig[i];
      assert NameStart(w, i) <= j <= i;
    }
  }

  lemma QuestionsAreOutside(w0: Work, j: nat, n: nat)
    requires WorkOk(w0) && Sound(w0) && j < |w0.sig| && Text(w0, j) == w0.lexed[w0.sig[j]].text == "?"
    ensures !FoldedBefore(w0, j, n)
  {
    hide Text, Sound, NameStart;
    if FoldedBefore(w0, j, n) {
      var i :| 0 <= i < n && i < |w0.sig| && Collates(w0, i) && NameStart(w0, i) <= j <= i;
      NamesAreWords(w0, i);
      NotAWord(w0, j);
    }
  }

  lemma FoldedMark(lexed: Lexed, w: Work, j: nat)
    requires WorkOk(w) && Folding(Start(lexed), w, |w.sig|) && w.lexed == lexed && j < |w.sig|
    ensures Marks(Text(w, j)) <==> Slot(lexed, w.sig[j])
  {
    hide Sound, SameRole, FoldedBefore, InFoldedColumn;
    var w0 := Start(lexed);
    assert TokenFolding(w0, w, |w.sig|, j) && Text(w0, j) == lexed[w.sig[j]].text;
    FoldedPositions(lexed, j);
    if FoldedBefore(w0, j, |w.sig|) {
      if Question(lexed, w.sig[j]) { QuestionsAreOutside(w0, j, |w.sig|); }
    } else {
      RolesAgree(Text(w0, j), Text(w, j), j - |w.sig|);
    }
  }

  lemma StartFolding(lexed: Lexed)
    requires LexedOk(lexed)
    ensures Folding(Start(lexed), Start(lexed), 0)
  {
    SignificantInOrder(lexed, 0);
    var w := Start(lexed);
    assert Sound(w);
    forall j | 0 <= j < |w.sig| ensures TokenFolding(w, w, 0, j) {
      FoldedGrows(w, j, 0);
    }
  }

  lemma CollateKept(lexed: Lexed)
    requires LexedOk(lexed)
    ensures Kept(Collate(Start(lexed), 0))
  {
    var w := Collate(Start(lexed), 0);
    assert Sound(w) && MarksAre(w, 0) by {
      hide Sound, TokenFolding, Collate;
      StartFolding(lexed);
      CollateFolds(Start(lexed), Start(lexed), 0);
      forall j | 0 <= j < |w.sig| ensures Marks(Text(w, j)) <==> Slot(w.lexed, w.sig[j]) {
        FoldedMark(lexed, w, j);
      }
    }
  }

  lemma BlankKept(w: Work, j: nat)
    requires Kept(w) && j < |w.sig| && !Marks(Text(w, j))
    requires Text(w, j) == "" || !(IsQuote(Upper(Text(w, j))[0]) || Upper(Text(w, j))[0] == '$')
    ensures Kept(Put(w, j, ""))
  {
    hide Slot;
    BlankSound(w, j);
    PutText(w, j, "");
    assert Marks(Text(w, j)) <==> Slot(w.lexed, w.sig[j]);
  }

  lemma DropIgnoreKept(w: Work)
    requires WorkOk(w) && Kept(w)
    ensures Kept(DropIgnore(w))
  {
    hide Kept, Put, Text;
    var at := IgnoreIndex(w, 0);
    if at.Some? && at.value + 2 < |w.sig| {
      assert Upper(Text(w, at.value + 1))[0] == 'O' && Upper(Text(w, at.value + 2))[0] == 'I';
      PutText(w, at.value + 1, "");
      BlankKept(w, at.value + 1);
      BlankKept(Put(w, at.value + 1, ""), at.value + 2);
    }
  }

  /** Before parameters are numbered, the texts that count as one are those of the question
      marks and of the stray markers. */
  lemma ReadyKept(lexed: Lexed)
    requires LexedOk(lexed)
    ensures Kept(Ready(lexed))
  {
    hide Kept, Collate, DropIgnore;
    CollateKept(lexed);
    DropIgnoreKept(Collate(Start(lexed), 0));
  }
}
