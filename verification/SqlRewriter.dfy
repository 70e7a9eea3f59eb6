/** The rewriter's loops: tokens whose texts are changed in place. */
module SqlRewriter {
  import opened Wrappers
  import opened SqlTokens
  import opened SqlRewrite

  lemma QualifyUnfolds(w: Work, start: nat, identifier: string)
    requires WorkOk(w) && start < |w.sig|
    ensures Qualify(w, start, identifier) ==
      if start >= 2 && Text(w, start - 1) == "." && IsWord(w, start - 2) then
        Qualify(Put(Put(w, start - 2, ""), start - 1, ""), start - 2, Text(w, start - 2) + "." + identifier)
      else (w, identifier)
  {
  }

  class Rewriter {
    const lexed: Lexed
    const sig: seq<nat>
    const texts: array<string>
    var parameters: nat
    var insertedTable: Option<string>

    function Now(): Work
      reads texts
    {
      Work(lexed, sig, texts[..])
    }

    ghost predicate Valid()
      reads texts
    {
      WorkOk(Now())
    }

    constructor (lexed: Lexed)
      ensures this.lexed == lexed && Valid() && Now() == Start(lexed) && parameters == 0 && insertedTable == None
      ensures fresh(texts)
    {
      this.lexed := lexed;
      this.sig := Significant(lexed, 0);
      var start := Texts(lexed);
      this.texts := new string[|lexed|](i requires 0 <= i < |start| => start[i]);
      parameters, insertedTable := 0, None;
      new;
      SignificantInOrder(lexed, 0);
      assert texts[..] == Texts(lexed);
    }

    function TextAt(j: int): string
      requires Valid()
      reads texts
      ensures TextAt(j) == Text(Now(), j)
    {
      if 0 <= j < |sig| then texts[sig[j]] else ""
    }

    method Set(j: nat, text: string)
      requires Valid() && j < |sig|
      modifies texts
      ensures Valid() && Now() == Put(old(Now()), j, text)
    {
      texts[sig[j]] := text;
      assert texts[..] == old(texts[..])[sig[j] := text];
    }

    method AbsorbQualifier(start: nat, identifier: string) returns (longer: string)
      requires Valid() && 2 <= start < |sig| && Text(Now(), start - 1) == "." && IsWord(Now(), start - 2)
      modifies texts
      ensures Valid() && Qualify(old(Now()), start, identifier) == Qualify(Now(), start - 2, longer)
    {
      hide Qualify, Put;
      QualifyUnfolds(Now(), start, identifier);
      longer := TextAt(start - 2) + "." + identifier;
      Set(start - 2, "");
      Set(start - 1, "");
    }

    method QualifyName(index: nat) returns (identifier: string)
      requires Valid() && index < |sig|
      modifies texts
      ensures Valid() && (Now(), identifier) == Qualify(old(Now()), index, Text(old(Now()), index))
    {
      hide Qualify, Put, Text;
      identifier := TextAt(index);
      var start: nat := index;
      while start >= 2 && TextAt(start - 1) == "." && lexed[sig[start - 2]].kind == Word
        invariant Valid() && start <= index
        invariant Qualify(old(Now()), index, Text(old(Now()), index)) == Qualify(Now(), start, identifier)
      {
        identifier := AbsorbQualifier(start, identifier);
        start := start - 2;
      }
      QualifyUnfolds(Now(), start, identifier);
    }

    method FoldAt(index: nat)
      requires Valid() && index + 4 < |sig|
      modifies texts
      ensures Valid() && Now() == CollateAt(old(Now()), index)
    {
      hide Qualify, Put;
      if lexed[sig[index]].kind == Word && TextAt(index + 1) == "=" && TextAt(index + 2) == "?"
         && Upper(TextAt(index + 3)) == "COLLATE" && Upper(TextAt(index + 4)) == "NOCASE" {
        var identifier := QualifyName(index);
        Set(index, "lower(" + identifier + ")");
        Set(index + 2, "LOWER_PARAMETER");
        Set(index + 3, "");
        Set(index + 4, "");
      }
    }

    /** `name = ? COLLATE NOCASE` becomes `lower(name) = lower(?)`. */
    method FoldCase()
      requires Valid()
      modifies texts
      ensures Valid() && Now() == Collate(old(Now()), 0)
    {
      hide CollateAt;
      var index := 0;
      while index + 4 < |sig|
        invariant Valid() && Collate(old(Now()), 0) == Collate(Now(), index)
        decreases |sig| - index
      {
        FoldAt(index);
        index := index + 1;
      }
    }

    method FindIgnore() returns (at: Option<nat>)
      requires Valid()
      ensures at == IgnoreIndex(Now(), 0)
    {
      hide Upper;
      var i := 0;
      while i < |sig|
        invariant Valid() && IgnoreIndex(Now(), 0) == IgnoreIndex(Now(), i)
        decreases |sig| - i
      {
        if Upper(TextAt(i)) == "INSERT" && Upper(TextAt(i + 1)) == "OR" && Upper(TextAt(i + 2)) == "IGNORE" { return Some(i); }
        i := i + 1;
      }
      at := None;
    }

    method DropOrIgnore() returns (found: bool)
      requires Valid()
      modifies texts
      ensures Valid() && Now() == DropIgnore(old(Now())) && found == IgnoreIndex(old(Now()), 0).Some?
    {
      hide Put;
      var at := FindIgnore();
      found := at.Some?;
      if at.Some? && at.value + 2 < |sig| {
        Set(at.value + 1, "");
        Set(at.value + 2, "");
      }
    }

    method Finish(conflict: string, returningIdentity: bool) returns (out: Statement)
      requires Valid()
      ensures out == Output(State(), conflict, returningIdentity)
    {
      hide Join, TrimLeft, TrimRight, DropSemicolon;
      var text := JoinTexts(texts[..]);
      var converted := DropSemicolon(TrimRight(TrimLeft(text))) + conflict;
      var identity := Identity(insertedTable, returningIdentity);
      var returning := "";
      if identity.Some? && !Returns(Now()) { returning := " RETURNING " + identity.value; }
      out := Statement(converted + returning, parameters, identity);
    }

    ghost function State(): Pass
      reads this, texts
    {
      Pass(Now(), parameters, insertedTable)
    }

    method NumberToken(i: nat)
      requires Valid() && i < |sig|
      modifies texts, this`parameters
      ensures Valid() && State() == Number(old(State()), i)
    {
      var text := TextAt(i);
      if text == "?" || text == "LOWER_PARAMETER" {
        parameters := parameters + 1;
        Set(i, if text == "?" then "$" + Decimal(parameters) else "lower($" + Decimal(parameters) + ")");
      }
    }

    method QuoteToken(i: nat)
      requires Valid() && i < |sig|
      modifies texts
      ensures Valid() && Now() == Quote(old(Now()), i)
    {
      if lexed[sig[i]].kind == Word && Upper(TextAt(i - 1)) == "AS" && MixedCase(TextAt(i)) { Set(i, "\"" + TextAt(i) + "\""); }
    }

    method UnlimitToken(i: nat)
      requires Valid() && i < |sig|
      modifies texts
      ensures Valid() && Now() == Unlimit(old(Now()), i)
    {
      if i + 3 < |sig| && Upper(TextAt(i)) == "LIMIT" && TextAt(i + 1) == "-" && TextAt(i + 2) == "1" && Upper(TextAt(i + 3)) == "OFFSET" {
        Set(i, "");
        Set(i + 1, "");
        Set(i + 2, "");
      }
    }

    method NameToken(i: nat) returns (over: bool)
      requires Valid() && i < |sig|
      modifies texts, this`insertedTable
      ensures Valid() && (State(), over) == Name(old(State()), i)
    {
      hide Put;
      var previous := Upper(TextAt(i - 1));
      over := false;
      if lexed[sig[i]].kind == Word && previous in TABLE_INTRODUCERS {
        if TextAt(i + 1) == "." || (previous == "UPDATE" && Upper(TextAt(i - 2)) == "DO") { return true; }
        if previous == "INTO" { insertedTable := Some(Lower(TextAt(i))); }
        Set(i, "groundwork." + TextAt(i));
      }
    }

    /** One round of the main loop. */
    method RewriteToken(i: nat)
      requires Valid() && i < |sig|
      modifies texts, this
      ensures Valid() && State() == PassAt(old(State()), i)
    {
      hide Number, Quote, Name, Unlimit;
      NumberToken(i);
      QuoteToken(i);
      var over := NameToken(i);
      if !over { UnlimitToken(i); }
    }

    method RewriteTokens()
      requires Valid()
      modifies texts, this
      ensures Valid() && State() == Passes(old(State()), 0)
    {
      hide PassAt;
      var index := 0;
      while index < |sig|
        invariant Valid() && index <= |sig| && Passes(old(State()), 0) == Passes(State(), index)
        decreases |sig| - index
      {
        RewriteToken(index);
        index := index + 1;
      }
    }
  }

  method JoinTexts(texts: seq<string>) returns (s: string)
    ensures s == Join(texts)
  {
    s := "";
    var i := |texts|;
    assert texts[i..] == [];
    while i > 0
      invariant 0 <= i <= |texts| && s == Join(texts[i..])
    {
      i := i - 1;
      assert texts[i..][0] == texts[i] && texts[i..][1..] == texts[i + 1..];
      s := texts[i] + s;
    }
    assert texts[0..] == texts;
  }

  method Translate(sql: string, returningIdentity: bool) returns (r: Result<Statement, LexError>)
    ensures r == PostgresSql(sql, returningIdentity)
  {
    hide Lex, Collate, DropIgnore, Passes, Output, Start;
    var lexed := Tokenize(sql);
    if lexed.Err? { return Err(lexed.error); }
    var rewriter := new Rewriter(lexed.value);
    rewriter.FoldCase();
    var ignored := rewriter.DropOrIgnore();
    rewriter.RewriteTokens();
    var out := rewriter.Finish(if ignored then " ON CONFLICT DO NOTHING" else "", returningIdentity);
    r := Ok(out);
  }
}
