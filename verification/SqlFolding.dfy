/** The texts that the first two loops of the rewriter leave, told from the tokens of the
    statement: folded comparisons, and INSERT OR IGNORE. */
module SqlFolding {
  import opened SqlMarkers
  import opened SqlRewrite
  import opened SqlTokens
  import opened Wrappers

  // ---------- folded comparisons ----------

  /** COLLATE or NOCASE of one of the first n comparisons. */
  predicate CollationBefore(w: Work, j: nat, n: nat)
    requires WorkOk(w)
  {
    || (j >= 3 && j - 3 < n && Collates(w, j - 3))
    || (j >= 4 && j - 4 < n && Collates(w, j - 4))
  }

  predicate ComparedBefore(w: Work, j: nat, n: nat)
    requires WorkOk(w)
  {
    j >= 2 && j - 2 < n && Collates(w, j - 2)
  }

  /** The words and dots from a up to b, but for a collation that stands there. */
  function NameText(w: Work, a: nat, b: nat): string
    requires WorkOk(w) && a <= b
  {
    if a == b then "" else NameText(w, a, b - 1) + if CollationBefore(w, b - 1, |w.sig|) then "" else Text(w, b - 1)
  }

  /** The text of token j after the first n comparisons have been folded: the name in front of
      `= ? COLLATE NOCASE` becomes lower(name), its ? the marker, and the rest of it nothing. */
  function FoldedTo(w: Work, j: nat, n: nat): string
    requires WorkOk(w) && j < |w.sig|
  {
    if j < n && Collates(w, j) then "lower(" + NameText(w, NameStart(w, j), j + 1) + ")"
    else if ComparedBefore(w, j, n) then MARKER
    else if FoldedBefore(w, j, n) || CollationBefore(w, j, n) then ""
    else Text(w, j)
  }

  ghost predicate TextsFolded(w0: Work, w: Work, n: nat)
    requires WorkOk(w0) && WorkOk(w) && w.sig == w0.sig
  {
    forall j :: 0 <= j < |w0.sig| ==> Text(w, j) == FoldedTo(w0, j, n)
  }

  // ---------- the name that is folded ----------

  function Concat(w: Work, a: nat, b: nat): string
    requires WorkOk(w) && a <= b
  {
    if a == b then "" else Concat(w, a, b - 1) + Text(w, b - 1)
  }

  lemma {:induction false} SameConcat(w: Work, v: Work, a: nat, b: nat)
    requires WorkOk(w) && WorkOk(v) && a <= b && forall k: int :: a <= k < b ==> Text(w, k) == Text(v, k)
    ensures Concat(w, a, b) == Concat(v, a, b)
  {
    hide Text;
    if a < b { SameConcat(w, v, a, b - 1); }
  }

  lemma ConcatTwo(w: Work, a: nat, b: nat)
    requires WorkOk(w) && a + 2 <= b
    ensures Concat(w, a, b) == (Concat(w, a, b - 2) + Text(w, b - 2)) + Text(w, b - 1)
  {
    hide Text;
    assert Concat(w, a, b - 1) == Concat(w, a, b - 2) + Text(w, b - 2);
  }

  lemma Qualified(before: string, qualifier: string, identifier: string)
    ensures before + (qualifier + "." + identifier) == ((before + qualifier) + ".") + identifier
  {
  }

  predicate Qualifies(w: Work, start: nat)
    requires WorkOk(w) && start < |w.sig|
  {
    start >= 2 && Text(w, start - 1) == "." && IsWord(w, start - 2)
  }

  lemma QualifyUnfolds(w: Work, start: nat, identifier: string)
    requires WorkOk(w) && start < |w.sig|
    ensures if Qualifies(w, start)
            then Qualify(w, start, identifier).1
                 == Qualify(Put(Put(w, start - 2, ""), start - 1, ""), start - 2, Text(w, start - 2) + "." + identifier).1
                 && NameStart(w, start) == NameStart(w, start - 2)
            else Qualify(w, start, identifier).1 == identifier && NameStart(w, start) == start
  {
    hide Put, Text;
  }

  lemma {:induction false} QualifiedName(w: Work, start: nat, identifier: string)
    requires WorkOk(w) && Sound(w) && start < |w.sig|
    ensures Qualify(w, start, identifier).1 == Concat(w, NameStart(w, start), start) + identifier
    decreases start
  {
    hide Sound, Put, Text, Qualify, NameStart;
    QualifyUnfolds(w, start, identifier);
    if Qualifies(w, start) {
      hide Concat;
      QualifierBlanks(w, start);
      var after, first := Put(Put(w, start - 2, ""), start - 1, ""), NameStart(w, start - 2);
      QualifiedName(after, start - 2, Text(w, start - 2) + "." + identifier);
      SameConcat(w, after, first, start - 2);
      Qualified(Concat(w, first, start - 2), Text(w, start - 2), identifier);
      ConcatTwo(w, first, start);
    } else {
      assert "" + identifier == identifier;
    }
  }

  lemma ColumnText(w: Work, n: nat)
    requires WorkOk(w) && Sound(w) && Collates(w, n)
    ensures Text(CollateAt(w, n), n) == "lower(" + Concat(w, NameStart(w, n), n + 1) + ")"
  {
    hide Sound, Put, Text, Qualify, NameStart;
    QualifiedName(w, n, Text(w, n));
    var (q, identifier) := Qualify(w, n, Text(w, n));
    var w1 := Put(q, n, "lower(" + identifier + ")");
    var w2 := Put(w1, n + 2, MARKER);
    PutText(q, n, "lower(" + identifier + ")");
    PutText(w1, n + 2, MARKER);
    PutText(w2, n + 3, "");
    PutText(Put(w2, n + 3, ""), n + 4, "");
  }

  // ---------- one round ----------

  lemma InNameOf(w0: Work, w: Work, n: nat, k: nat)
    requires WorkOk(w0) && WorkOk(w) && Folding(w0, w, n) && n < |w0.sig| && Collates(w0, n) && NameStart(w0, n) <= k <= n
    ensures !(k < n && Collates(w0, k)) && !ComparedBefore(w0, k, n) && !FoldedBefore(w0, k, n)
    ensures CollationBefore(w0, k, n) <==> CollationBefore(w0, k, |w0.sig|)
  {
    hide Sound, Text, TokenFolding;
    NamesAreWords(w0, n);
    if k < n {
      NamesAreApart(w0, w, n, k + 1);
    } else {
      FoldedGrows(w0, n, n);
    }
    if k >= 2 && Collates(w0, k - 2) { NotAWord(w0, k); }
  }

  lemma NameToken(w0: Work, w: Work, n: nat, k: nat)
    requires WorkOk(w0) && WorkOk(w) && Folding(w0, w, n) && n < |w0.sig| && Collates(w0, n) && NameStart(w0, n) <= k <= n
    ensures FoldedTo(w0, k, n) == if CollationBefore(w0, k, |w0.sig|) then "" else Text(w0, k)
  {
    InNameOf(w0, w, n, k);
    hide Sound, Text, Collates, NameStart, FoldedBefore, CollationBefore, TokenFolding;
  }

  lemma {:induction false} NameIs(w0: Work, w: Work, n: nat, a: nat, b: nat)
    requires WorkOk(w0) && WorkOk(w) && Folding(w0, w, n) && TextsFolded(w0, w, n) && n < |w0.sig| && Collates(w0, n)
    requires NameStart(w0, n) <= a <= b <= n + 1
    ensures Concat(w, a, b) == NameText(w0, a, b)
    decreases b
  {
    hide Sound, Text, TokenFolding, Collates, NameStart, FoldedTo, CollationBefore;
    if a < b {
      NameIs(w0, w, n, a, b - 1);
      NameToken(w0, w, n, b - 1);
      assert Text(w, b - 1) == FoldedTo(w0, b - 1, n);
    }
  }

  lemma RoundText(w0: Work, w: Work, n: nat, column: string, j: nat)
    requires WorkOk(w0) && WorkOk(w) && Folding(w0, w, n) && Collates(w0, n) && Collates(w, n) && j < |w0.sig|
    requires NameStart(w, n) == NameStart(w0, n) && Text(w, j) == FoldedTo(w0, j, n)
    requires column == "lower(" + NameText(w0, NameStart(w0, n), n + 1) + ")"
    ensures FoldedText(w, n, column, j) == FoldedTo(w0, j, n + 1)
  {
    hide Sound, Text, TokenFolding, NameText, FoldedBefore;
    FoldedGrows(w0, j, n);
    if NameStart(w0, n) <= j <= n { InNameOf(w0, w, n, j); }
  }

  lemma RoundFolds(w0: Work, w: Work, n: nat)
    requires WorkOk(w0) && WorkOk(w) && Folding(w0, w, n) && TextsFolded(w0, w, n)
    ensures CollateAt(w, n).sig == w0.sig && TextsFolded(w0, CollateAt(w, n), n + 1)
  {
    hide Sound, Text, TokenFolding, NameStart, FoldedBefore, FoldedText, FoldedTo, NameText, CollateAt;
    SameComparisons(w0, w, n);
    SameTokens(w0, w, n);
    var after := CollateAt(w, n);
    if Collates(w, n) {
      NamesAreWords(w0, n);
      SameNames(w0, w, n, n);
      var column := CollateAtTexts(w, n);
      ColumnText(w, n);
      NameIs(w0, w, n, NameStart(w0, n), n + 1);
      ColumnIsColumn(w, n, column);
      forall j | 0 <= j < |w0.sig| ensures Text(after, j) == FoldedTo(w0, j, n + 1) {
        RoundText(w0, w, n, column, j);
      }
    } else {
      NoRound(w, n);
      forall j | 0 <= j < |w0.sig| ensures Text(after, j) == FoldedTo(w0, j, n + 1) {
        IdleText(w0, j, n);
      }
    }
  }

  lemma ColumnIsColumn(w: Work, n: nat, column: string)
    requires WorkOk(w) && n < |w.sig|
    ensures FoldedText(w, n, column, n) == column
  {
  }

  lemma NoRound(w: Work, n: nat)
    requires WorkOk(w) && !Collates(w, n)
    ensures CollateAt(w, n) == w
  {
  }

  lemma IdleText(w0: Work, j: nat, n: nat)
    requires WorkOk(w0) && j < |w0.sig| && !Collates(w0, n)
    ensures FoldedTo(w0, j, n + 1) == FoldedTo(w0, j, n)
  {
    hide Text, NameText, FoldedBefore;
    FoldedGrows(w0, j, n);
  }

  lemma {:induction false} LoopFolds(w0: Work, w: Work, n: nat)
    requires WorkOk(w0) && WorkOk(w) && Folding(w0, w, n) && TextsFolded(w0, w, n) && n <= |w.sig|
    ensures TextsFolded(w0, Collate(w, n), |w.sig|)
    decreases |w.sig| - n
  {
    hide Folding, TextsFolded;
    SameTokens(w0, w, n);
    CollateAtFolds(w0, w, n);
    RoundFolds(w0, w, n);
    if n + 4 < |w.sig| {
      LoopFolds(w0, CollateAt(w, n), n + 1);
    } else if n < |w.sig| {
      assert CollateAt(w, n) == w;
      assert Collate(w, n + 1) == w;
      LoopFolds(w0, w, n + 1);
    }
  }

  /** The loop over comparisons leaves every token with the text told of it. */
  lemma CollateTexts(lexed: Lexed, j: nat)
    requires LexedOk(lexed) && j < |Start(lexed).sig|
    ensures Text(Collate(Start(lexed), 0), j) == FoldedTo(Start(lexed), j, |Start(lexed).sig|)
  {
    StartFolding(lexed);
    StartTexts(lexed);
    hide Folding, FoldedTo, Collate;
    LoopFolds(Start(lexed), Start(lexed), 0);
  }

  lemma StartTexts(lexed: Lexed)
    ensures TextsFolded(Start(lexed), Start(lexed), 0)
  {
    hide Start, Text;
    var w := Start(lexed);
    forall j | 0 <= j < |w.sig| ensures Text(w, j) == FoldedTo(w, j, 0) { FoldedGrows(w, j, 0); }
  }
}
