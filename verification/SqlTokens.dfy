/** The SQL tokenizer: what it cuts, and that it loses nothing. */
module SqlTokens {
  import opened Wrappers

  datatype Kind = Word | Space | Protected | Symbol

  datatype Token = Token(text: string, kind: Kind)

  datatype LexError = UnterminatedComment | UnterminatedString | UnterminatedDollar

  predicate IsSpace(c: char) {
    || c == ' ' || '\t' <= c <= '\r' || c == '\U{00a0}' || c == '\U{1680}' || '\U{2000}' <= c <= '\U{200a}'
    || c == '\U{2028}' || c == '\U{2029}' || c == '\U{202f}' || c == '\U{205f}' || c == '\U{3000}' || c == '\U{feff}'
  }

  predicate StartsWord(c: char) {
    'A' <= c <= 'Z' || 'a' <= c <= 'z' || c == '_'
  }

  predicate InWord(c: char) {
    StartsWord(c) || '0' <= c <= '9'
  }

  predicate IsQuote(c: char) {
    c == '\'' || c == '"' || c == '`'
  }

  predicate NotNewline(c: char) {
    c != '\n'
  }

  predicate StartsAt(s: string, sub: string, i: nat) {
    i + |sub| <= |s| && s[i..i + |sub|] == sub
  }

  // ---------- where a token ends ----------

  function RunEnd(s: string, i: nat, f: char -> bool): (end: nat)
    requires i <= |s|
    ensures i <= end <= |s| && (forall k :: i <= k < end ==> f(s[k])) && (end < |s| ==> !f(s[end]))
    decreases |s| - i
  {
    if i < |s| && f(s[i]) then RunEnd(s, i + 1, f) else i
  }

  /** Block comments nest. */
  function BlockEnd(s: string, i: nat, depth: nat): (end: Option<nat>)
    requires i <= |s|
    ensures end.Some? ==> i <= end.value <= |s|
    decreases |s| - i
  {
    if depth == 0 then Some(i)
    else if i == |s| then None
    else if StartsAt(s, "/*", i) then BlockEnd(s, i + 2, depth + 1)
    else if StartsAt(s, "*/", i) then BlockEnd(s, i + 2, depth - 1)
    else BlockEnd(s, i + 1, depth)
  }

  /** A doubled quote stands for itself; in an E-string so does any escaped character. */
  function QuoteEnd(s: string, i: nat, quote: char, escaped: bool): (end: Option<nat>)
    ensures end.Some? ==> i < end.value <= |s| && s[end.value - 1] == quote
    decreases |s| + 2 - i
  {
    if i >= |s| then None
    else if escaped && s[i] == '\\' then QuoteEnd(s, i + 2, quote, escaped)
    else if s[i] != quote then QuoteEnd(s, i + 1, quote, escaped)
    else if i + 1 < |s| && s[i + 1] == quote then QuoteEnd(s, i + 2, quote, escaped)
    else Some(i + 1)
  }

  predicate IsEString(s: string, i: nat)
    requires i < |s|
  {
    && s[i] == '\'' && i >= 1 && (s[i - 1] == 'e' || s[i - 1] == 'E')
    && !(i >= 2 && InWord(s[i - 2]))
  }

  /** The end of a dollar tag that starts at i, if one does. */
  function TagEnd(s: string, i: nat): (end: Option<nat>)
    ensures end.Some? ==> i + 2 <= end.value <= |s| && s[i] == '$' && s[end.value - 1] == '$'
  {
    if i + 1 >= |s| || s[i] != '$' then None
    else if s[i + 1] == '$' then Some(i + 2)
    else if !StartsWord(s[i + 1]) then None
    else
      var end := RunEnd(s, i + 1, InWord);
      if end < |s| && s[end] == '$' then Some(end + 1) else None
  }

  function Find(s: string, sub: string, i: nat): (at: Option<nat>)
    ensures at.Some? ==> i <= at.value && StartsAt(s, sub, at.value)
    ensures forall k :: i <= k && (at.Some? ==> k < at.value) ==> !StartsAt(s, sub, k)
    decreases |s| + 1 - i
  {
    if i > |s| then None else if StartsAt(s, sub, i) then Some(i) else Find(s, sub, i + 1)
  }

  datatype Cut = Cut(end: nat, kind: Kind)

  function NextToken(s: string, i: nat): (r: Result<Cut, LexError>)
    requires i < |s|
    ensures r.Ok? ==> i < r.value.end <= |s|
  {
    if IsSpace(s[i]) then Ok(Cut(RunEnd(s, i + 1, IsSpace), Space))
    else if StartsAt(s, "--", i) then Ok(Cut(RunEnd(s, i + 2, NotNewline), Protected))
    else if StartsAt(s, "/*", i) then
      var end := BlockEnd(s, i + 2, 1);
      if end.None? then Err(UnterminatedComment) else Ok(Cut(end.value, Protected))
    else if IsQuote(s[i]) then
      var end := QuoteEnd(s, i + 1, s[i], IsEString(s, i));
      if end.None? then Err(UnterminatedString) else Ok(Cut(end.value, Protected))
    else if TagEnd(s, i).Some? then
      var tag := TagEnd(s, i).value;
      var close := Find(s, s[i..tag], tag);
      if close.None? then Err(UnterminatedDollar) else Ok(Cut(close.value + (tag - i), Protected))
    else if StartsWord(s[i]) then Ok(Cut(RunEnd(s, i + 1, InWord), Word))
    else Ok(Cut(i + 1, Symbol))
  }

  function Lex(s: string, i: nat): Result<seq<Token>, LexError>
    requires i <= |s|
    decreases |s| - i
  {
    if i == |s| then Ok([])
    else
      var cut := NextToken(s, i);
      if cut.Err? then Err(cut.error)
      else
        var rest := Lex(s, cut.value.end);
        if rest.Err? then rest else Ok([Token(s[i..cut.value.end], cut.value.kind)] + rest.value)
  }

  // ---------- what tokens look like ----------

  predicate IsComment(text: string) {
    StartsAt(text, "--", 0) || StartsAt(text, "/*", 0)
  }

  /** String, quoted identifier or dollar-quoted text. */
  predicate IsQuoted(t: Token) {
    && t.kind == Protected && |t.text| >= 2
    && (IsQuote(t.text[0]) || t.text[0] == '$') && (IsQuote(t.text[|t.text| - 1]) || t.text[|t.text| - 1] == '$')
  }

  predicate TokenOk(t: Token) {
    match t.kind
    case Word => |t.text| > 0 && StartsWord(t.text[0]) && forall c :: c in t.text ==> InWord(c)
    case Space => |t.text| > 0 && forall c :: c in t.text ==> IsSpace(c)
    case Protected => |t.text| >= 2 && (IsComment(t.text) || IsQuoted(t))
    case Symbol => |t.text| == 1 && !StartsWord(t.text[0]) && !IsSpace(t.text[0])
  }

  function Join(ts: seq<string>): string {
    if ts == [] then "" else ts[0] + Join(ts[1..])
  }

  function Texts(ts: seq<Token>): (r: seq<string>)
    ensures |r| == |ts| && forall i :: 0 <= i < |ts| ==> r[i] == ts[i].text
  {
    if ts == [] then [] else [ts[0].text] + Texts(ts[1..])
  }

  lemma RunOk(s: string, i: nat, end: nat, f: char -> bool)
    requires i < end <= |s| && f(s[i]) && forall k :: i < k < end ==> f(s[k])
    ensures forall c :: c in s[i..end] ==> f(c)
  {
    forall c | c in s[i..end] ensures f(c) {
      var k :| 0 <= k < end - i && s[i..end][k] == c;
      assert s[i..end][k] == s[i + k];
    }
  }

  lemma CommentOk(s: string, i: nat, end: nat)
    requires i + 2 <= end <= |s| && (StartsAt(s, "--", i) || StartsAt(s, "/*", i))
    ensures TokenOk(Token(s[i..end], Protected))
  {
    assert s[i..end][0..2] == s[i..i + 2];
  }

  lemma QuotedOk(s: string, i: nat, end: nat)
    requires i + 2 <= end <= |s| && (IsQuote(s[i]) || s[i] == '$') && (IsQuote(s[end - 1]) || s[end - 1] == '$')
    ensures TokenOk(Token(s[i..end], Protected))
  {
    assert s[i..end][0] == s[i] && s[i..end][end - i - 1] == s[end - 1];
  }

  /** The closing tag ends with a dollar sign like the opening one. */
  lemma DollarEnds(s: string, i: nat, tag: nat, close: nat)
    requires i + 2 <= tag <= |s| && s[tag - 1] == '$' && StartsAt(s, s[i..tag], close)
    ensures close + (tag - i) <= |s| && s[close + (tag - i) - 1] == '$'
  {
    assert s[close..close + (tag - i)][tag - i - 1] == s[i..tag][tag - i - 1];
  }

  lemma NextTokenOk(s: string, i: nat)
    requires i < |s| && NextToken(s, i).Ok?
    ensures var cut := NextToken(s, i).value; TokenOk(Token(s[i..cut.end], cut.kind))
  {
    hide TokenOk, StartsAt;
    var end := NextToken(s, i).value.end;
    if IsSpace(s[i]) {
      SpaceOk(s, i, end);
    } else if StartsAt(s, "--", i) {
      TwoCharacters(s, "--", i);
      CommentOk(s, i, end);
    } else if StartsAt(s, "/*", i) {
      TwoCharacters(s, "/*", i);
      CommentOk(s, i, end);
    } else if IsQuote(s[i]) {
      QuotedOk(s, i, end);
    } else if TagEnd(s, i).Some? {
      var tag := TagEnd(s, i).value;
      var close := Find(s, s[i..tag], tag).value;
      DollarEnds(s, i, tag, close);
      QuotedOk(s, i, end);
    } else if StartsWord(s[i]) {
      WordOk(s, i, end);
    } else {
      SymbolOk(s, i);
    }
  }

  lemma TwoCharacters(s: string, sub: string, i: nat)
    requires StartsAt(s, sub, i)
    ensures i + |sub| <= |s|
  {
  }

  lemma SpaceOk(s: string, i: nat, end: nat)
    requires i < end <= |s| && IsSpace(s[i]) && forall k :: i < k < end ==> IsSpace(s[k])
    ensures TokenOk(Token(s[i..end], Space))
  {
    RunOk(s, i, end, IsSpace);
  }

  lemma WordOk(s: string, i: nat, end: nat)
    requires i < end <= |s| && StartsWord(s[i]) && forall k :: i < k < end ==> InWord(s[k])
    ensures TokenOk(Token(s[i..end], Word))
  {
    RunOk(s, i, end, InWord);
  }

  lemma SymbolOk(s: string, i: nat)
    requires i < |s| && !StartsWord(s[i]) && !IsSpace(s[i])
    ensures TokenOk(Token(s[i..i + 1], Symbol))
  {
    assert s[i..i + 1][0] == s[i];
  }

  /** Nothing is lost: the texts of the tokens, put together, are the input; and every token
      is of the shape its kind promises. */
  lemma {:induction false} LexIsLossless(s: string, i: nat)
    requires i <= |s| && Lex(s, i).Ok?
    ensures Join(Texts(Lex(s, i).value)) == s[i..]
    ensures forall t :: t in Lex(s, i).value ==> TokenOk(t)
    decreases |s| - i
  {
    hide NextToken, TokenOk;
    if i < |s| {
      var cut := NextToken(s, i).value;
      NextTokenOk(s, i);
      LexIsLossless(s, cut.end);
      var first, rest := Token(s[i..cut.end], cut.kind), Lex(s, cut.end).value;
      assert Lex(s, i).value == [first] + rest;
      assert ([first] + rest)[1..] == rest;
      assert s[i..cut.end] + s[cut.end..] == s[i..];
    }
  }

  lemma {:induction false} JoinConcat(a: seq<string>, b: seq<string>)
    ensures Join(a + b) == Join(a) + Join(b)
    decreases |a|
  {
    if a == [] {
      assert a + b == b;
    } else {
      assert (a + b)[1..] == a[1..] + b;
      JoinConcat(a[1..], b);
    }
  }

  // ---------- the loops ----------

  method ScanRun(s: string, i: nat, f: char -> bool) returns (end: nat)
    requires i <= |s|
    ensures end == RunEnd(s, i, f)
  {
    end := i;
    while end < |s| && f(s[end])
      invariant i <= end <= |s| && RunEnd(s, i, f) == RunEnd(s, end, f)
    {
      end := end + 1;
    }
  }

  method ScanBlock(s: string, index: nat) returns (r: Option<nat>)
    requires index + 2 <= |s|
    ensures r == BlockEnd(s, index + 2, 1)
  {
    var depth, end := 1, index + 2;
    while end < |s| && depth > 0
      invariant end <= |s| && BlockEnd(s, index + 2, 1) == BlockEnd(s, end, depth)
      decreases |s| - end
    {
      if StartsAt(s, "/*", end) { depth, end := depth + 1, end + 2; }
      else if StartsAt(s, "*/", end) { depth, end := depth - 1, end + 2; }
      else { end := end + 1; }
    }
    r := if depth > 0 then None else Some(end);
  }

  method ScanQuote(s: string, index: nat) returns (r: Option<nat>)
    requires index < |s|
    ensures r == QuoteEnd(s, index + 1, s[index], IsEString(s, index))
  {
    var quote, end, closed := s[index], index + 1, false;
    var escaped := IsEString(s, index);
    while end < |s| && !closed
      invariant !closed ==> QuoteEnd(s, index + 1, quote, escaped) == QuoteEnd(s, end, quote, escaped)
      invariant closed ==> QuoteEnd(s, index + 1, quote, escaped) == Some(end)
      decreases !closed, |s| + 2 - end
    {
      if escaped && s[end] == '\\' { end := end + 2; }
      else if s[end] != quote { end := end + 1; }
      else if end + 1 < |s| && s[end + 1] == quote { end := end + 2; }
      else { end, closed := end + 1, true; }
    }
    r := if closed then Some(end) else None;
  }

  method IndexOf(s: string, sub: string, i: nat) returns (at: Option<nat>)
    ensures at == Find(s, sub, i)
  {
    var k := i;
    while k <= |s|
      invariant Find(s, sub, i) == Find(s, sub, k)
      decreases |s| + 1 - k
    {
      if StartsAt(s, sub, k) { return Some(k); }
      k := k + 1;
    }
    at := None;
  }

  method Cutting(s: string, i: nat) returns (r: Result<Cut, LexError>)
    requires i < |s|
    ensures r == NextToken(s, i)
  {
    if IsSpace(s[i]) {
      var end := ScanRun(s, i + 1, IsSpace);
      return Ok(Cut(end, Space));
    }
    if StartsAt(s, "--", i) {
      var end := ScanRun(s, i + 2, NotNewline);
      return Ok(Cut(end, Protected));
    }
    if StartsAt(s, "/*", i) {
      var end := ScanBlock(s, i);
      return if end.None? then Err(UnterminatedComment) else Ok(Cut(end.value, Protected));
    }
    if IsQuote(s[i]) {
      var end := ScanQuote(s, i);
      return if end.None? then Err(UnterminatedString) else Ok(Cut(end.value, Protected));
    }
    var tag := TagEnd(s, i);
    if tag.Some? {
      var close := IndexOf(s, s[i..tag.value], tag.value);
      return if close.None? then Err(UnterminatedDollar) else Ok(Cut(close.value + (tag.value - i), Protected));
    }
    if StartsWord(s[i]) {
      var end := ScanRun(s, i + 1, InWord);
      return Ok(Cut(end, Word));
    }
    r := Ok(Cut(i + 1, Symbol));
  }

  /** The tokenizer ends on every input, and finds exactly what Lex describes. */
  method Tokenize(s: string) returns (r: Result<seq<Token>, LexError>)
    ensures r == Lex(s, 0)
    ensures r.Ok? ==> Join(Texts(r.value)) == s && forall t :: t in r.value ==> TokenOk(t)
  {
    var tokens: seq<Token> := [];
    var index := 0;
    if Lex(s, 0).Ok? { assert tokens + Lex(s, 0).value == Lex(s, 0).value; }
    while index < |s|
      invariant index <= |s|
      invariant Lex(s, 0) == if Lex(s, index).Err? then Lex(s, index) else Ok(tokens + Lex(s, index).value)
      decreases |s| - index
    {
      var cut := Cutting(s, index);
      if cut.Err? { return Err(cut.error); }
      ghost var here := Token(s[index..cut.value.end], cut.value.kind);
      if Lex(s, cut.value.end).Ok? {
        assert tokens + ([here] + Lex(s, cut.value.end).value) == (tokens + [here]) + Lex(s, cut.value.end).value;
      }
      tokens := tokens + [Token(s[index..cut.value.end], cut.value.kind)];
      index := cut.value.end;
    }
    assert tokens + [] == tokens;
    LexIsLossless(s, 0);
    assert s[0..] == s;
    r := Ok(tokens);
  }
}
