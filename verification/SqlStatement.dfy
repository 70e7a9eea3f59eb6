/** The rewritten statement as one text: where protected text and parameters end up in it. */
module SqlStatement {
  import opened Wrappers
  import opened SqlMarkers
  import opened SqlRewrite
  import opened SqlSafety
  import opened SqlTokens

  // ---------- trimming ----------

  predicate Blank(s: string) {
    forall k :: 0 <= k < |s| ==> IsSpace(s[k])
  }

  predicate BlankOrSemicolon(s: string) {
    forall k :: 0 <= k < |s| ==> IsSpace(s[k]) || s[k] == ';'
  }

  lemma {:induction false} TrimLeftCuts(s: string) returns (a: nat)
    ensures a <= |s| && TrimLeft(s) == s[a..] && Blank(s[..a]) && (a < |s| ==> !IsSpace(s[a]))
    decreases |s|
  {
    if s != "" && IsSpace(s[0]) {
      a := TrimLeftCuts(s[1..]);
      a := a + 1;
      assert s[1..][a - 1..] == s[a..] && s[..a] == [s[0]] + s[1..][..a - 1];
    } else {
      a := 0;
    }
  }

  lemma {:induction false} TrimRightCuts(s: string) returns (b: nat)
    ensures b <= |s| && TrimRight(s) == s[..b] && Blank(s[b..]) && (b > 0 ==> !IsSpace(s[b - 1]))
    decreases |s|
  {
    if s != "" && IsSpace(s[|s| - 1]) {
      var shorter := s[..|s| - 1];
      b := TrimRightCuts(shorter);
      assert shorter[..b] == s[..b] && s[b..] == shorter[b..] + [s[|s| - 1]];
    } else {
      b := |s|;
    }
  }

  /** What stands at n, where the white space behind begins, and at `cut`, where a semicolon
      in front of it goes with it. */
  predicate OneSemicolon(s: string, n: nat, cut: nat)
    requires n <= |s|
  {
    if n > 0 && s[n - 1] == ';' then cut == n - 1 else cut == n
  }

  /** A semicolon at the end goes, with the white space behind it. */
  lemma SemicolonCuts(s: string, n: nat) returns (cut: nat)
    requires n <= |s| && Blank(s[n..])
    ensures cut <= n && DropSemicolon(s[..n]) == s[..cut] && BlankOrSemicolon(s[cut..]) && OneSemicolon(s, n, cut)
  {
    hide IsSpace;
    var trimmed := s[..n];
    if n > 0 && trimmed[n - 1] == ';' {
      cut := n - 1;
      assert trimmed[..cut] == s[..cut];
      forall k | 0 <= k < |s[cut..]| ensures IsSpace(s[cut..][k]) || s[cut..][k] == ';' {
        if k > 0 { assert s[cut..][k] == s[n..][k - 1]; }
      }
    } else {
      cut := n;
      assert DropSemicolon(trimmed) == trimmed;
    }
  }

  /** Of s, the text from a to n is what is left without the white space around it. */
  predicate TrimsTo(s: string, a: nat, n: nat) {
    && a <= n <= |s| && Blank(s[..a]) && Blank(s[n..])
    && (a < |s| ==> !IsSpace(s[a])) && (a < n ==> !IsSpace(s[n - 1]))
  }

  /** The body is the joined text less all white space in front and behind, and then less one
      semicolon at the end. */
  lemma BodyCuts(texts: seq<string>) returns (a: nat, n: nat, b: nat)
    ensures TrimsTo(Join(texts), a, n) && b == (if a < n && Join(texts)[n - 1] == ';' then n - 1 else n)
    ensures a <= b <= |Join(texts)| && Body(texts) == Join(texts)[a..b]
    ensures Blank(Join(texts)[..a]) && BlankOrSemicolon(Join(texts)[b..])
  {
    hide Join, TrimLeft, TrimRight, DropSemicolon, Blank, BlankOrSemicolon, IsSpace;
    var s := Join(texts);
    a := TrimLeftCuts(s);
    var left := s[a..];
    var kept := TrimRightCuts(left);
    var cut := SemicolonCuts(left, kept);
    n := a + kept;
    b := a + cut;
    assert left[..cut] == s[a..b] && left[cut..] == s[b..] && left[kept..] == s[n..];
    if kept > 0 { assert left[kept - 1] == s[n - 1]; }
  }

  // ---------- tokens in the body ----------

  function Offset(texts: seq<string>, p: nat): nat
    requires p <= |texts|
  {
    |Join(texts[..p])|
  }

  /** Neither end of the text can be trimmed. */
  predicate Solid(text: string) {
    text != "" && !IsSpace(text[0]) && !IsSpace(text[|text| - 1]) && text[|text| - 1] != ';'
  }

  /** Token p stands in the body at its offset less the `skipped` white space. */
  predicate Appears(texts: seq<string>, body: string, skipped: nat, p: nat)
    requires p < |texts|
  {
    && skipped <= Offset(texts, p) && Offset(texts, p) - skipped + |texts[p]| <= |body|
    && body[Offset(texts, p) - skipped..Offset(texts, p) - skipped + |texts[p]|] == texts[p]
  }

  lemma JoinAround(texts: seq<string>, p: nat)
    requires p < |texts|
    ensures Join(texts) == Join(texts[..p]) + (texts[p] + Join(texts[p + 1..]))
  {
    var tail := texts[p..];
    assert texts == texts[..p] + tail;
    JoinConcat(texts[..p], tail);
    assert tail != [] && tail[0] == texts[p] && tail[1..] == texts[p + 1..];
  }

  lemma Between(x: string, y: string, z: string)
    ensures (x + (y + z))[|x|..|x| + |y|] == y
  {
  }

  lemma TokenInJoin(texts: seq<string>, p: nat)
    requires p < |texts|
    ensures Offset(texts, p) + |texts[p]| <= |Join(texts)|
    ensures Join(texts)[Offset(texts, p)..Offset(texts, p) + |texts[p]|] == texts[p]
  {
    hide Join;
    JoinAround(texts, p);
    Between(Join(texts[..p]), texts[p], Join(texts[p + 1..]));
  }

  lemma SolidAppears(texts: seq<string>, a: nat, b: nat, p: nat)
    requires p < |texts| && Solid(texts[p])
    requires a <= b <= |Join(texts)| && Body(texts) == Join(texts)[a..b]
    requires Blank(Join(texts)[..a]) && BlankOrSemicolon(Join(texts)[b..])
    ensures Appears(texts, Body(texts), a, p)
  {
    hide Join, Body;
    TokenInJoin(texts, p);
    var s := Join(texts);
    var (o, n) := (Offset(texts, p), |texts[p]|);
    assert s[o] == s[o..o + n][0] && s[o + n - 1] == s[o..o + n][n - 1];
    forall k | 0 <= k < a ensures IsSpace(s[k]) {
      assert s[..a][k] == s[k];
    }
    forall k | b <= k < |s| ensures IsSpace(s[k]) || s[k] == ';' {
      assert s[b..][k - b] == s[k];
    }
    assert s[a..b][o - a..o - a + n] == s[o..o + n];
  }

  /** Every solid token stands in the body, unchanged and in order. */
  lemma SolidTokensAppear(texts: seq<string>) returns (skipped: nat)
    ensures forall p :: 0 <= p < |texts| && Solid(texts[p]) ==> Appears(texts, Body(texts), skipped, p)
  {
    var a, _, b := BodyCuts(texts);
    skipped := a;
    forall p | 0 <= p < |texts| && Solid(texts[p]) ensures Appears(texts, Body(texts), skipped, p) {
      SolidAppears(texts, a, b, p);
    }
  }

  lemma QuotedIsSolid(t: Token)
    requires IsQuoted(t)
    ensures Solid(t.text)
  {
  }

  lemma {:induction false} DecimalDigits(n: nat)
    ensures Decimal(n) != "" && forall c :: c in Decimal(n) ==> '0' <= c <= '9'
  {
    if n >= 10 { DecimalDigits(n / 10); }
  }

  lemma NumberedIsSolid(text: string, k: nat)
    requires Numbered(text, k)
    ensures Solid(text)
  {
    DecimalDigits(k);
    assert Decimal(k)[|Decimal(k)| - 1] in Decimal(k);
  }

  predicate TokenIsFaithful(lexed: Lexed, texts: seq<string>, body: string, skipped: nat, p: nat)
    requires p < |texts| == |lexed|
  {
    && (IsQuoted(lexed[p]) ==> texts[p] == lexed[p].text && Appears(texts, body, skipped, p))
    && (Question(lexed, p) ==> Numbered(texts[p], Questions(lexed, p) + StrayMarkers(lexed, p) + 1) && Appears(texts, body, skipped, p))
  }

  /** Quoted text is untouched and each question mark has its number, in the body. */
  ghost predicate Faithful(lexed: Lexed, texts: seq<string>, body: string, skipped: nat) {
    |texts| == |lexed| && forall p :: 0 <= p < |lexed| ==> TokenIsFaithful(lexed, texts, body, skipped, p)
  }

  lemma OutputParts(r: Pass, conflict: string, returningIdentity: bool)
    requires WorkOk(r.w)
    ensures Body(r.w.texts) <= Output(r, conflict, returningIdentity).sql
    ensures Output(r, conflict, returningIdentity).parameters == r.count
    ensures returningIdentity ==>
      || Output(r, conflict, true).sql == Output(r, conflict, false).sql
      || (Output(r, conflict, true).identity.Some?
          && Output(r, conflict, true).sql == Output(r, conflict, false).sql + " RETURNING " + Output(r, conflict, true).identity.value)
  {
    hide Body, Returns;
    var identity, head := Identity(r.inserted, returningIdentity), Body(r.w.texts) + conflict;
    assert head + "" == head;
    if identity.Some? { assert head + (" RETURNING " + identity.value) == (head + " RETURNING ") + identity.value; }
  }

  lemma TokenFaithful(lexed: Lexed, texts: seq<string>, body: string, skipped: nat, p: nat)
    requires p < |texts| == |lexed| && (Solid(texts[p]) ==> Appears(texts, body, skipped, p))
    requires lexed[p].kind == Protected ==> texts[p] == lexed[p].text
    requires Question(lexed, p) ==> Numbered(texts[p], Questions(lexed, p) + StrayMarkers(lexed, p) + 1)
    ensures TokenIsFaithful(lexed, texts, body, skipped, p)
  {
    hide Appears, Solid, Numbered, Questions;
    if IsQuoted(lexed[p]) { QuotedIsSolid(lexed[p]); }
    if Question(lexed, p) { NumberedIsSolid(texts[p], Questions(lexed, p) + StrayMarkers(lexed, p) + 1); }
  }

  /** In the statement sent to PostgreSQL, every string, quoted identifier and dollar-quoted
      text stands verbatim and in order, and each unprotected ? stands as its number; and the
      reported number of parameters is that of the question marks and stray markers. */
  lemma StatementKeepsProtectedText(sql: string, returningIdentity: bool, lexed: Lexed) returns (skipped: nat)
    requires Lex(sql, 0) == Ok(lexed)
    ensures PostgresSql(sql, returningIdentity).Ok?
    ensures Body(Rewritten(lexed).w.texts) <= PostgresSql(sql, returningIdentity).value.sql
    ensures PostgresSql(sql, returningIdentity).value.parameters == Questions(lexed, |lexed|) + StrayMarkers(lexed, |lexed|)
    ensures Faithful(lexed, Rewritten(lexed).w.texts, Body(Rewritten(lexed).w.texts), skipped)
  {
    LexIsLossless(sql, 0);
    hide Lex, Rewritten, Conflict, Output;
    RewrittenDone(lexed);
    OutputParts(Rewritten(lexed), Conflict(lexed), returningIdentity);
    skipped := DoneIsFaithful(Rewritten(lexed));
  }

  lemma DoneLengths(r: Pass)
    requires Done(r, |r.w.sig|)
    ensures |r.w.texts| == |r.w.lexed| && r.count == Questions(r.w.lexed, |r.w.lexed|) + StrayMarkers(r.w.lexed, |r.w.lexed|)
  {
  }

  lemma DoneIsFaithful(r: Pass) returns (skipped: nat)
    requires Done(r, |r.w.sig|)
    ensures r.count == Questions(r.w.lexed, |r.w.lexed|) + StrayMarkers(r.w.lexed, |r.w.lexed|) && |r.w.texts| == |r.w.lexed|
    ensures Faithful(r.w.lexed, r.w.texts, Body(r.w.texts), skipped)
  {
    hide Done, Body, Appears, Solid, TokenIsFaithful, IsQuoted, Numbered, Questions, Question;
    DoneLengths(r);
    skipped := SolidTokensAppear(r.w.texts);
    forall p | 0 <= p < |r.w.lexed| ensures TokenIsFaithful(r.w.lexed, r.w.texts, Body(r.w.texts), skipped, p) {
      DoneMeans(r, p);
      TokenFaithful(r.w.lexed, r.w.texts, Body(r.w.texts), skipped, p);
    }
  }

  /** Asking for the identity of an inserted row adds at most a RETURNING clause behind the
      statement, for the same parameters. */
  lemma ReturningOnlyAppends(sql: string)
    requires Lex(sql, 0).Ok?
    ensures PostgresSql(sql, false).Ok? && PostgresSql(sql, true).Ok?
    ensures PostgresSql(sql, true).value.parameters == PostgresSql(sql, false).value.parameters
    ensures
      || PostgresSql(sql, true).value.sql == PostgresSql(sql, false).value.sql
      || (PostgresSql(sql, true).value.identity.Some?
          && PostgresSql(sql, true).value.sql == PostgresSql(sql, false).value.sql + " RETURNING " + PostgresSql(sql, true).value.identity.value)
  {
    hide Lex, Rewritten, Conflict, Output;
    OutputParts(Rewritten(Lex(sql, 0).value), Conflict(Lex(sql, 0).value), true);
    OutputParts(Rewritten(Lex(sql, 0).value), Conflict(Lex(sql, 0).value), false);
  }
}
