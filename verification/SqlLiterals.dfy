/** Where the tokenizer takes literals and comments to end, told on how they are written. */
module SqlLiterals {
  import opened SqlTokens
  import opened Wrappers

  // ---------- strings and quoted identifiers ----------

  /** What stands between quotes: a character, a doubled quote, or, where the backslash escapes,
      any character behind one. */
  datatype Piece = Plain(c: char) | Doubled | Escaped(c: char)

  function Spelled(p: Piece, quote: char): string {
    match p
    case Plain(c) => [c]
    case Doubled => [quote, quote]
    case Escaped(c) => ['\\', c]
  }

  function Inside(pieces: seq<Piece>, quote: char): string {
    if pieces == [] then "" else Spelled(pieces[0], quote) + Inside(pieces[1..], quote)
  }

  predicate PieceOk(p: Piece, quote: char, escapes: bool) {
    match p
    case Plain(c) => c != quote && (escapes ==> c != '\\')
    case Doubled => true
    case Escaped(_) => escapes
  }

  predicate PiecesOk(pieces: seq<Piece>, quote: char, escapes: bool) {
    forall p :: p in pieces ==> PieceOk(p, quote, escapes)
  }

  /** From i on, s holds `text`. */
  predicate Holds(s: string, i: nat, text: string) {
    i + |text| <= |s| && s[i..i + |text|] == text
  }

  lemma HoldsParts(s: string, i: nat, a: string, b: string)
    ensures Holds(s, i, a + b) <==> Holds(s, i, a) && Holds(s, i + |a|, b)
  {
    if Holds(s, i, a + b) {
      assert s[i..i + |a|] == s[i..i + |a + b|][..|a|];
      assert s[i + |a|..i + |a| + |b|] == s[i..i + |a + b|][|a|..];
    }
    if Holds(s, i, a) && Holds(s, i + |a|, b) {
      assert s[i..i + |a + b|] == s[i..i + |a|] + s[i + |a|..i + |a| + |b|];
    }
  }

  /** The quote at i closes: the next character is no further quote. */
  predicate Closes(s: string, i: nat, quote: char) {
    i < |s| && s[i] == quote && !(i + 1 < |s| && s[i + 1] == quote)
  }

  lemma OnePiece(s: string, i: nat, p: Piece, quote: char, escapes: bool)
    requires PieceOk(p, quote, escapes) && Holds(s, i, Spelled(p, quote)) && quote != '\\'
    ensures QuoteEnd(s, i, quote, escapes) == QuoteEnd(s, i + |Spelled(p, quote)|, quote, escapes)
  {
    var text := Spelled(p, quote);
    assert s[i] == s[i..i + |text|][0];
    if |text| == 2 { assert s[i + 1] == s[i..i + |text|][1]; }
  }

  lemma {:induction false} PiecesPass(s: string, i: nat, pieces: seq<Piece>, quote: char, escapes: bool)
    requires PiecesOk(pieces, quote, escapes) && Holds(s, i, Inside(pieces, quote)) && quote != '\\'
    ensures QuoteEnd(s, i, quote, escapes) == QuoteEnd(s, i + |Inside(pieces, quote)|, quote, escapes)
    decreases |pieces|
  {
    hide QuoteEnd;
    if pieces != [] {
      HoldsParts(s, i, Spelled(pieces[0], quote), Inside(pieces[1..], quote));
      OnePiece(s, i, pieces[0], quote, escapes);
      PiecesPass(s, i + |Spelled(pieces[0], quote)|, pieces[1..], quote, escapes);
    }
  }

  lemma ClosingQuote(s: string, i: nat, quote: char, escapes: bool)
    requires Closes(s, i, quote) && quote != '\\'
    ensures QuoteEnd(s, i, quote, escapes) == Some(i + 1)
  {
  }

  lemma EndGoesOn(s: string, i: nat, quote: char, escapes: bool)
    requires QuoteEnd(s, i, quote, escapes).Some? && !Closes(s, i, quote)
    ensures i < |s| && (escapes && s[i] == '\\' ==> i + 1 < |s|) && (s[i] == quote && !(escapes && s[i] == '\\') ==> i + 1 < |s| && s[i + 1] == quote)
  {
  }

  lemma FirstPiece(s: string, i: nat, quote: char, escapes: bool) returns (p: Piece)
    requires quote != '\\' && QuoteEnd(s, i, quote, escapes).Some? && !Closes(s, i, quote)
    ensures PieceOk(p, quote, escapes) && Holds(s, i, Spelled(p, quote)) && |Spelled(p, quote)| > 0
    ensures QuoteEnd(s, i, quote, escapes) == QuoteEnd(s, i + |Spelled(p, quote)|, quote, escapes)
  {
    hide QuoteEnd;
    EndGoesOn(s, i, quote, escapes);
    p := if escapes && s[i] == '\\' then Escaped(s[i + 1]) else if s[i] == quote then Doubled else Plain(s[i]);
    OnePiece(s, i, p, quote, escapes);
  }

  lemma HoldsNothing(s: string, i: nat, quote: char, escapes: bool)
    requires Closes(s, i, quote)
    ensures Holds(s, i, "") && i < |s|
  {
  }

  /** The pieces up to the end that is found. */
  lemma {:induction false} PiecesFound(s: string, i: nat, quote: char, escapes: bool) returns (pieces: seq<Piece>)
    requires quote != '\\' && QuoteEnd(s, i, quote, escapes).Some?
    ensures PiecesOk(pieces, quote, escapes) && Holds(s, i, Inside(pieces, quote))
    ensures Closes(s, i + |Inside(pieces, quote)|, quote) && QuoteEnd(s, i, quote, escapes) == Some(i + |Inside(pieces, quote)| + 1)
    decreases |s| + 2 - i
  {
    hide Inside, QuoteEnd, Holds, Closes, PieceOk, Spelled;
    if Closes(s, i, quote) {
      pieces := [];
      HoldsNothing(s, i, quote, escapes);
      NothingInside(quote);
      ClosingQuote(s, i, quote, escapes);
    } else {
      var p := FirstPiece(s, i, quote, escapes);
      var rest := PiecesFound(s, i + |Spelled(p, quote)|, quote, escapes);
      pieces := [p] + rest;
      InsideMore(p, rest, quote);
      HoldsParts(s, i, Spelled(p, quote), Inside(rest, quote));
    }
  }

  lemma NothingInside(quote: char)
    ensures Inside([], quote) == ""
  {
  }

  lemma InsideMore(p: Piece, rest: seq<Piece>, quote: char)
    ensures Inside([p] + rest, quote) == Spelled(p, quote) + Inside(rest, quote)
  {
    assert ([p] + rest)[1..] == rest;
  }

  /** A literal is written here: quotes around well-formed pieces, the backslash escaping only in
      a string behind E, itself no part of a longer word. */
  ghost predicate Literal(s: string, i: nat, pieces: seq<Piece>) {
    && i < |s| && (s[i] == '\'' || s[i] == '"' || s[i] == '`')
    && PiecesOk(pieces, s[i], s[i] == '\'' && i >= 1 && (s[i - 1] == 'e' || s[i - 1] == 'E') && !(i >= 2 && InWord(s[i - 2])))
    && Holds(s, i + 1, Inside(pieces, s[i])) && Closes(s, i + 1 + |Inside(pieces, s[i])|, s[i])
  }

  lemma Begins(s: string, sub: string, i: nat)
    requires |sub| == 2
    ensures StartsAt(s, sub, i) ==> i + 2 <= |s| && s[i] == sub[0] && s[i + 1] == sub[1]
  {
    if StartsAt(s, sub, i) { assert s[i..i + 2][0] == s[i] && s[i..i + 2][1] == s[i + 1]; }
  }

  lemma AtQuote(s: string, i: nat)
    requires i < |s| && (s[i] == '\'' || s[i] == '"' || s[i] == '`')
    ensures var end := QuoteEnd(s, i + 1, s[i], IsEString(s, i));
      NextToken(s, i) == if end.None? then Err(UnterminatedString) else Ok(Cut(end.value, Protected))
  {
    Begins(s, "--", i);
    Begins(s, "/*", i);
  }

  /** A literal is one protected token, up to its closing quote. */
  lemma LiteralIsOneToken(s: string, i: nat, pieces: seq<Piece>)
    requires Literal(s, i, pieces)
    ensures NextToken(s, i) == Ok(Cut(i + |Inside(pieces, s[i])| + 2, Protected))
  {
    hide QuoteEnd, Inside, NextToken, StartsAt;
    PiecesPass(s, i + 1, pieces, s[i], IsEString(s, i));
    ClosingQuote(s, i + 1 + |Inside(pieces, s[i])|, s[i], IsEString(s, i));
    AtQuote(s, i);
  }

  /** Where a quote opens, the token is a literal, and there is an error exactly where no
      literal is written. */
  lemma QuotesOpenLiterals(s: string, i: nat)
    requires i < |s| && (s[i] == '\'' || s[i] == '"' || s[i] == '`')
    ensures NextToken(s, i).Ok? <==> exists pieces :: Literal(s, i, pieces)
    ensures NextToken(s, i).Err? ==> NextToken(s, i).error == UnterminatedString
  {
    hide QuoteEnd, Inside, StartsAt, NextToken, Closes;
    AtQuote(s, i);
    if QuoteEnd(s, i + 1, s[i], IsEString(s, i)).Some? {
      var pieces := PiecesFound(s, i + 1, s[i], IsEString(s, i));
      assert Literal(s, i, pieces);
    }
    if pieces :| Literal(s, i, pieces) { LiteralIsOneToken(s, i, pieces); }
  }

  // ---------- block comments ----------

  /** The inside of a comment: characters, and comments within it. */
  datatype Remark = Over | Char(c: char, rest: Remark) | Inner(body: Remark, rest: Remark)

  function Remarks(r: Remark): string {
    match r
    case Over => ""
    case Char(c, rest) => [c] + Remarks(rest)
    case Inner(body, rest) => "/*" + (Remarks(body) + ("*/" + Remarks(rest)))
  }

  /** The remark stands at i, and its characters neither open nor close a comment there. */
  predicate Stands(s: string, i: nat, r: Remark)
    decreases r
  {
    match r
    case Over => true
    case Char(c, rest) => i < |s| && s[i] == c && !StartsAt(s, "/*", i) && !StartsAt(s, "*/", i) && Stands(s, i + 1, rest)
    case Inner(body, rest) =>
      && StartsAt(s, "/*", i) && Stands(s, i + 2, body)
      && StartsAt(s, "*/", i + 2 + |Remarks(body)|) && Stands(s, i + 4 + |Remarks(body)|, rest)
  }

  lemma Opens(s: string, i: nat, depth: nat)
    requires StartsAt(s, "/*", i) && depth > 0
    ensures i + 2 <= |s| && BlockEnd(s, i, depth) == BlockEnd(s, i + 2, depth + 1)
  {
  }

  lemma Shuts(s: string, i: nat, depth: nat)
    requires StartsAt(s, "*/", i) && depth > 0
    ensures i + 2 <= |s| && BlockEnd(s, i, depth) == BlockEnd(s, i + 2, depth - 1)
  {
    Begins(s, "/*", i);
  }

  lemma GoesOn(s: string, i: nat, depth: nat)
    requires i < |s| && depth > 0 && !StartsAt(s, "/*", i) && !StartsAt(s, "*/", i)
    ensures BlockEnd(s, i, depth) == BlockEnd(s, i + 1, depth)
  {
  }

  lemma RemarkSizes(c: char, body: Remark, rest: Remark)
    ensures |Remarks(Over)| == 0 && |Remarks(Char(c, rest))| == |Remarks(rest)| + 1
    ensures |Remarks(Inner(body, rest))| == |Remarks(body)| + |Remarks(rest)| + 4
  {
  }

  lemma {:induction false} RemarkPasses(s: string, i: nat, r: Remark, depth: nat)
    requires i <= |s| && Stands(s, i, r) && depth > 0
    ensures i + |Remarks(r)| <= |s| && BlockEnd(s, i, depth) == BlockEnd(s, i + |Remarks(r)|, depth)
    decreases r
  {
    hide BlockEnd, StartsAt, Remarks;
    match r
    case Over => RemarkSizes(' ', r, r);
    case Char(c, rest) =>
      RemarkSizes(c, rest, rest);
      GoesOn(s, i, depth);
      RemarkPasses(s, i + 1, rest, depth);
    case Inner(body, rest) =>
      RemarkSizes(' ', body, rest);
      Opens(s, i, depth);
      RemarkPasses(s, i + 2, body, depth + 1);
      Shuts(s, i + 2 + |Remarks(body)|, depth + 1);
      RemarkPasses(s, i + 4 + |Remarks(body)|, rest, depth);
  }

  lemma AtComment(s: string, i: nat)
    requires StartsAt(s, "/*", i)
    ensures i + 2 <= |s|
    ensures var end := BlockEnd(s, i + 2, 1);
      NextToken(s, i) == if end.None? then Err(UnterminatedComment) else Ok(Cut(end.value, Protected))
  {
    hide BlockEnd, QuoteEnd, TagEnd, Find, RunEnd;
    Begins(s, "/*", i);
    Begins(s, "--", i);
  }

  /** A comment with comments in it is one protected token, up to the mark that closes it. */
  lemma CommentIsOneToken(s: string, i: nat, r: Remark)
    requires StartsAt(s, "/*", i) && Stands(s, i + 2, r) && StartsAt(s, "*/", i + 2 + |Remarks(r)|)
    ensures NextToken(s, i) == Ok(Cut(i + 4 + |Remarks(r)|, Protected))
  {
    hide BlockEnd, NextToken, StartsAt, Stands, Remarks;
    AtComment(s, i);
    RemarkPasses(s, i + 2, r, 1);
    Shuts(s, i + 2 + |Remarks(r)|, 1);
    DepthZero(s, i + 4 + |Remarks(r)|);
  }

  /** Here ends the comment that contains i: its remark, and the mark that closes it. */
  predicate ShutBehind(s: string, i: nat, r: Remark) {
    Stands(s, i, r) && StartsAt(s, "*/", i + |Remarks(r)|)
  }

  lemma InsideOf(s: string, i: nat, depth: nat)
    requires i <= |s| && depth > 0 && BlockEnd(s, i, depth).Some?
    ensures i < |s|
  {
  }

  lemma EmptyRemark(s: string, i: nat)
    requires StartsAt(s, "*/", i)
    ensures ShutBehind(s, i, Over) && |Remarks(Over)| == 0
  {
  }

  lemma LongerRemark(s: string, i: nat, rest: Remark)
    requires i < |s| && !StartsAt(s, "/*", i) && !StartsAt(s, "*/", i) && ShutBehind(s, i + 1, rest)
    ensures ShutBehind(s, i, Char(s[i], rest)) && |Remarks(Char(s[i], rest))| == |Remarks(rest)| + 1
  {
    hide StartsAt;
  }

  lemma InnerRemark(s: string, i: nat, body: Remark, rest: Remark)
    requires StartsAt(s, "/*", i) && ShutBehind(s, i + 2, body) && ShutBehind(s, i + 4 + |Remarks(body)|, rest)
    ensures ShutBehind(s, i, Inner(body, rest)) && |Remarks(Inner(body, rest))| == |Remarks(body)| + |Remarks(rest)| + 4
  {
    hide StartsAt, Remarks;
    RemarkSizes(' ', body, rest);
  }

  lemma {:induction false} RemarkFound(s: string, i: nat, depth: nat) returns (r: Remark)
    requires i <= |s| && depth > 0 && BlockEnd(s, i, depth).Some?
    ensures ShutBehind(s, i, r) && i + |Remarks(r)| + 2 <= |s|
    ensures BlockEnd(s, i, depth) == BlockEnd(s, i + |Remarks(r)| + 2, depth - 1)
    decreases |s| - i
  {
    hide BlockEnd, StartsAt, Stands, Remarks, ShutBehind;
    InsideOf(s, i, depth);
    if StartsAt(s, "/*", i) {
      Opens(s, i, depth);
      var body := RemarkFound(s, i + 2, depth + 1);
      var rest := RemarkFound(s, i + 4 + |Remarks(body)|, depth);
      r := Inner(body, rest);
      InnerRemark(s, i, body, rest);
    } else if StartsAt(s, "*/", i) {
      r := Over;
      Shuts(s, i, depth);
      EmptyRemark(s, i);
    } else {
      GoesOn(s, i, depth);
      var rest := RemarkFound(s, i + 1, depth);
      r := Char(s[i], rest);
      LongerRemark(s, i, rest);
    }
  }

  /** The comment that opens at i is closed, with this remark in it. */
  predicate CommentAt(s: string, i: nat, r: Remark) {
    ShutBehind(s, i + 2, r)
  }

  /** Where a comment opens there is an error exactly if nothing closes it. */
  lemma CommentsAreClosed(s: string, i: nat)
    requires StartsAt(s, "/*", i)
    ensures NextToken(s, i).Ok? <==> exists r :: CommentAt(s, i, r)
    ensures NextToken(s, i).Err? ==> NextToken(s, i).error == UnterminatedComment
  {
    hide BlockEnd, NextToken, StartsAt, Stands, Remarks;
    AtComment(s, i);
    if BlockEnd(s, i + 2, 1).Some? {
      var r := RemarkFound(s, i + 2, 1);
      assert CommentAt(s, i, r);
    }
    if r :| CommentAt(s, i, r) { CommentIsOneToken(s, i, r); }
  }

  lemma DepthZero(s: string, i: nat)
    requires i <= |s|
    ensures BlockEnd(s, i, 0) == Some(i)
  {
  }

  // ---------- everything else ----------

  /** A line comment reaches to the end of its line. */
  lemma LineCommentEnds(s: string, i: nat)
    requires StartsAt(s, "--", i)
    ensures NextToken(s, i).Ok? && NextToken(s, i).value.kind == Protected
    ensures var end := NextToken(s, i).value.end;
      (end == |s| || s[end] == '\n') && forall k :: i <= k < end ==> s[k] != '\n'
  {
    Begins(s, "--", i);
    Begins(s, "/*", i);
  }

  /** A dollar, a name or nothing, and a dollar. */
  predicate IsTag(s: string, i: nat, e: nat) {
    && i + 2 <= e <= |s| && s[i] == '$' && s[e - 1] == '$' && (s[i + 1] == '$' ==> e == i + 2)
    && (s[i + 1] == '$' || StartsWord(s[i + 1])) && forall k :: i < k < e - 1 ==> InWord(s[k])
  }

  lemma TagMeans(s: string, i: nat, e: nat)
    ensures TagEnd(s, i) == Some(e) <==> IsTag(s, i, e)
  {
    if i + 1 < |s| && s[i] == '$' && StartsWord(s[i + 1]) {
      var end := RunEnd(s, i + 1, InWord);
      assert IsTag(s, i, e) ==> e - 1 <= end;
      hide RunEnd;
    }
  }

  /** Dollar-quoted text reaches to the first repetition of its tag. */
  lemma DollarTextEnds(s: string, i: nat)
    requires i < |s| && TagEnd(s, i).Some?
    ensures var tag := s[i..TagEnd(s, i).value];
      match NextToken(s, i)
      case Ok(cut) =>
        && cut.kind == Protected && cut.end - |tag| >= i + |tag| && Holds(s, cut.end - |tag|, tag)
        && forall k :: i + |tag| <= k < cut.end - |tag| ==> !Holds(s, k, tag)
      case Err(e) => e == UnterminatedDollar && forall k :: i + |tag| <= k ==> !Holds(s, k, tag)
  {
    hide RunEnd, QuoteEnd, BlockEnd, Find;
    assert s[i] == '$';
    Begins(s, "--", i);
    Begins(s, "/*", i);
    forall k: nat ensures Holds(s, k, s[i..TagEnd(s, i).value]) <==> StartsAt(s, s[i..TagEnd(s, i).value], k) {}
    hide Holds, StartsAt, TagEnd;
  }

  predicate Letter(c: char) {
    'A' <= c <= 'Z' || 'a' <= c <= 'z' || c == '_'
  }

  predicate LetterOrDigit(c: char) {
    Letter(c) || '0' <= c <= '9'
  }

  lemma ClassesMean(c: char)
    ensures StartsWord(c) <==> Letter(c)
    ensures InWord(c) <==> LetterOrDigit(c)
    ensures IsQuote(c) <==> c == '\'' || c == '"' || c == '`'
    ensures c == ' ' || c == '\t' || c == '\n' || c == '\r' ==> IsSpace(c)
    ensures IsSpace(c) ==> !LetterOrDigit(c) && !IsQuote(c) && c != '$' && c != '-' && c != '/' && c != '?' && c != '.'
  {
  }

  /** Words and white space are as long as they can be, and everything else is one character. */
  lemma RunsAreLongest(s: string, i: nat)
    requires i < |s| && NextToken(s, i).Ok? && NextToken(s, i).value.kind != Protected
    ensures var cut := NextToken(s, i).value;
      match cut.kind
      case Space => (forall k :: i <= k < cut.end ==> IsSpace(s[k])) && !(cut.end < |s| && IsSpace(s[cut.end]))
      case Word => Letter(s[i]) && (forall k :: i <= k < cut.end ==> LetterOrDigit(s[k])) && !(cut.end < |s| && LetterOrDigit(s[cut.end]))
      case _ => cut.end == i + 1 && !IsSpace(s[i]) && !Letter(s[i]) && !IsQuote(s[i])
  {
    forall k | i <= k < |s| ensures (StartsWord(s[k]) <==> Letter(s[k])) && (InWord(s[k]) <==> LetterOrDigit(s[k])) { ClassesMean(s[k]); }
    hide QuoteEnd, BlockEnd, Find, TagEnd, StartsAt;
  }
}
