/** The rewriting of SQLite statements into PostgreSQL ones, on the texts of the tokens. */
module SqlRewrite {
  import opened Letters
  import opened SqlTokens
  import opened Wrappers

  type Lexed = seq<Token>

  /** Tokens the rules look at: neither white space nor comments. */
  predicate Meaningful(t: Token) {
    t.kind != Space && !(t.kind == Protected && IsComment(t.text))
  }

  function Significant(lexed: Lexed, i: nat): seq<nat>
    requires i <= |lexed|
    decreases |lexed| - i
  {
    if i == |lexed| then []
    else if Meaningful(lexed[i]) then [i] + Significant(lexed, i + 1)
    else Significant(lexed, i + 1)
  }

  lemma {:induction false} SignificantInOrder(lexed: Lexed, i: nat)
    requires i <= |lexed|
    ensures forall j :: 0 <= j < |Significant(lexed, i)| ==>
      i <= Significant(lexed, i)[j] < |lexed| && Meaningful(lexed[Significant(lexed, i)[j]])
    ensures forall j, k :: 0 <= j < k < |Significant(lexed, i)| ==> Significant(lexed, i)[j] < Significant(lexed, i)[k]
    ensures forall p :: i <= p < |lexed| && Meaningful(lexed[p]) ==> p in Significant(lexed, i)
    decreases |lexed| - i
  {
    if i < |lexed| { SignificantInOrder(lexed, i + 1); }
  }

  /** The tokens, which of them are significant, and their texts as rewritten so far. */
  datatype Work = Work(lexed: Lexed, sig: seq<nat>, texts: seq<string>)

  predicate WorkOk(w: Work) {
    && |w.texts| == |w.lexed|
    && (forall j :: 0 <= j < |w.sig| ==> w.sig[j] < |w.lexed|)
    && (forall j, k :: 0 <= j < k < |w.sig| ==> w.sig[j] < w.sig[k])
  }

  function Text(w: Work, j: int): string
    requires WorkOk(w)
  {
    if 0 <= j < |w.sig| then w.texts[w.sig[j]] else ""
  }

  predicate IsWord(w: Work, j: nat)
    requires WorkOk(w) && j < |w.sig|
  {
    w.lexed[w.sig[j]].kind == Word
  }

  function Put(w: Work, j: nat, text: string): (r: Work)
    requires WorkOk(w) && j < |w.sig|
    ensures WorkOk(r) && r.lexed == w.lexed && r.sig == w.sig
    ensures forall p :: 0 <= p < |w.texts| ==> r.texts[p] == if p == w.sig[j] then text else w.texts[p]
  {
    w.(texts := w.texts[w.sig[j] := text])
  }

  function Upper(s: string): (r: string)
    ensures |r| == |s| && forall i :: 0 <= i < |s| ==> r[i] == UpperChar(s[i])
  {
    if s == "" then "" else [UpperChar(s[0])] + Upper(s[1..])
  }

  function LowerChar(c: char): char {
    if 'A' <= c <= 'Z' then (c as int + 32) as char else c
  }

  function Lower(s: string): string {
    if s == "" then "" else [LowerChar(s[0])] + Lower(s[1..])
  }

  function Decimal(n: nat): string {
    if n < 10 then [('0' as int + n) as char] else Decimal(n / 10) + [('0' as int + n % 10) as char]
  }

  // ---------- COLLATE NOCASE ----------

  predicate Collates(w: Work, i: nat)
    requires WorkOk(w)
  {
    && i + 4 < |w.sig| && IsWord(w, i) && Text(w, i + 1) == "=" && Text(w, i + 2) == "?"
    && Upper(Text(w, i + 3)) == "COLLATE" && Upper(Text(w, i + 4)) == "NOCASE"
  }

  /** Qualifiers in front of the identifier move into it. */
  function Qualify(w: Work, start: nat, identifier: string): (r: (Work, string))
    requires WorkOk(w) && start < |w.sig|
    ensures WorkOk(r.0) && r.0.lexed == w.lexed && r.0.sig == w.sig
    decreases start
  {
    if start >= 2 && Text(w, start - 1) == "." && IsWord(w, start - 2) then
      Qualify(Put(Put(w, start - 2, ""), start - 1, ""), start - 2, Text(w, start - 2) + "." + identifier)
    else (w, identifier)
  }

  function CollateAt(w: Work, i: nat): (r: Work)
    requires WorkOk(w)
    ensures WorkOk(r) && r.lexed == w.lexed && r.sig == w.sig
  {
    if !Collates(w, i) then w
    else
      var (qualified, identifier) := Qualify(w, i, Text(w, i));
      Put(Put(Put(Put(qualified, i, "lower(" + identifier + ")"), i + 2, "LOWER_PARAMETER"), i + 3, ""), i + 4, "")
  }

  function Collate(w: Work, i: nat): (r: Work)
    requires WorkOk(w)
    ensures WorkOk(r) && r.lexed == w.lexed && r.sig == w.sig
    decreases |w.sig| - i
  {
    if i + 4 < |w.sig| then Collate(CollateAt(w, i), i + 1) else w
  }

  // ---------- INSERT OR IGNORE ----------

  predicate Ignores(w: Work, i: nat)
    requires WorkOk(w)
  {
    i < |w.sig| && Upper(Text(w, i)) == "INSERT" && Upper(Text(w, i + 1)) == "OR" && Upper(Text(w, i + 2)) == "IGNORE"
  }

  function IgnoreIndex(w: Work, i: nat): (r: Option<nat>)
    requires WorkOk(w)
    ensures r.Some? ==> Ignores(w, r.value)
    decreases |w.sig| - i
  {
    if i >= |w.sig| then None else if Ignores(w, i) then Some(i) else IgnoreIndex(w, i + 1)
  }

  function DropIgnore(w: Work): (r: Work)
    requires WorkOk(w)
    ensures WorkOk(r) && r.lexed == w.lexed && r.sig == w.sig
  {
    var at := IgnoreIndex(w, 0);
    if at.None? || at.value + 2 >= |w.sig| then w else Put(Put(w, at.value + 1, ""), at.value + 2, "")
  }

  // ---------- parameters, names and limits ----------

  predicate MixedCase(s: string) {
    (exists c :: c in s && 'a' <= c <= 'z') && (exists c :: c in s && 'A' <= c <= 'Z')
  }

  const TABLE_INTRODUCERS: set<string> := {"FROM", "JOIN", "INTO", "UPDATE", "REFERENCES"}

  datatype Pass = Pass(w: Work, count: nat, inserted: Option<string>)

  predicate Marks(text: string) {
    text == "?" || text == "LOWER_PARAMETER"
  }

  function Parameter(text: string, k: nat): string {
    if text == "?" then "$" + Decimal(k) else "lower($" + Decimal(k) + ")"
  }

  function Number(s: Pass, i: nat): (r: Pass)
    requires WorkOk(s.w) && i < |s.w.sig|
    ensures WorkOk(r.w) && r.w.lexed == s.w.lexed && r.w.sig == s.w.sig
  {
    if Marks(Text(s.w, i)) then s.(w := Put(s.w, i, Parameter(Text(s.w, i), s.count + 1)), count := s.count + 1) else s
  }

  function Quote(w: Work, i: nat): (r: Work)
    requires WorkOk(w) && i < |w.sig|
    ensures WorkOk(r) && r.lexed == w.lexed && r.sig == w.sig
  {
    if IsWord(w, i) && Upper(Text(w, i - 1)) == "AS" && MixedCase(Text(w, i)) then Put(w, i, "\"" + Text(w, i) + "\"") else w
  }

  /** A table name follows: not a schema that is written out, not DO UPDATE. */
  predicate NamesTable(w: Work, i: nat)
    requires WorkOk(w) && i < |w.sig|
  {
    IsWord(w, i) && Upper(Text(w, i - 1)) in TABLE_INTRODUCERS
  }

  predicate Exempt(w: Work, i: nat)
    requires WorkOk(w) && i < |w.sig|
  {
    Text(w, i + 1) == "." || (Upper(Text(w, i - 1)) == "UPDATE" && Upper(Text(w, i - 2)) == "DO")
  }

  function Unlimit(w: Work, i: nat): (r: Work)
    requires WorkOk(w) && i < |w.sig|
    ensures WorkOk(r) && r.lexed == w.lexed && r.sig == w.sig
  {
    if i + 3 < |w.sig| && Upper(Text(w, i)) == "LIMIT" && Text(w, i + 1) == "-" && Text(w, i + 2) == "1" && Upper(Text(w, i + 3)) == "OFFSET"
    then Put(Put(Put(w, i, ""), i + 1, ""), i + 2, "") else w
  }

  /** A table gets its schema; an exempt name ends the round. */
  function Name(s: Pass, i: nat): (r: (Pass, bool))
    requires WorkOk(s.w) && i < |s.w.sig|
    ensures WorkOk(r.0.w) && r.0.w.lexed == s.w.lexed && r.0.w.sig == s.w.sig
  {
    if !NamesTable(s.w, i) then (s, false)
    else if Exempt(s.w, i) then (s, true)
    else
      (Pass(Put(s.w, i, "groundwork." + Text(s.w, i)), s.count,
            if Upper(Text(s.w, i - 1)) == "INTO" then Some(Lower(Text(s.w, i))) else s.inserted), false)
  }

  function PassAt(s: Pass, i: nat): (r: Pass)
    requires WorkOk(s.w) && i < |s.w.sig|
    ensures WorkOk(r.w) && r.w.lexed == s.w.lexed && r.w.sig == s.w.sig
  {
    var numbered := Number(s, i);
    var (named, over) := Name(numbered.(w := Quote(numbered.w, i)), i);
    if over then named else named.(w := Unlimit(named.w, i))
  }

  function Passes(s: Pass, i: nat): (r: Pass)
    requires WorkOk(s.w)
    ensures WorkOk(r.w) && r.w.lexed == s.w.lexed && r.w.sig == s.w.sig
    decreases |s.w.sig| - i
  {
    if i < |s.w.sig| then Passes(PassAt(s, i), i + 1) else s
  }

  // ---------- the statement ----------

  function TrimLeft(s: string): string {
    if s != "" && IsSpace(s[0]) then TrimLeft(s[1..]) else s
  }

  function TrimRight(s: string): string {
    if s != "" && IsSpace(s[|s| - 1]) then TrimRight(s[..|s| - 1]) else s
  }

  /** Of a trimmed text, a semicolon that only white space follows is its last character. */
  function DropSemicolon(s: string): string {
    if s != "" && s[|s| - 1] == ';' then s[..|s| - 1] else s
  }

  function Body(texts: seq<string>): string {
    DropSemicolon(TrimRight(TrimLeft(Join(texts))))
  }

  const IDENTITY_COLUMNS: map<string, string> :=
    map["audit_logs" := "id", "project_collaboration_events" := "id", "project_operations" := "id",
        "organization_audit" := "id", "project_sync_operations" := "sequence"]

  predicate Returns(w: Work)
    requires WorkOk(w)
  {
    exists j :: 0 <= j < |w.sig| && IsWord(w, j) && Upper(Text(w, j)) == "RETURNING"
  }

  datatype Statement = Statement(sql: string, parameters: nat, identity: Option<string>)

  function Start(lexed: Lexed): (w: Work)
    ensures WorkOk(w)
  {
    SignificantInOrder(lexed, 0);
    Work(lexed, Significant(lexed, 0), Texts(lexed))
  }

  function Ready(lexed: Lexed): (w: Work)
    ensures WorkOk(w) && w.lexed == lexed && w.sig == Significant(lexed, 0)
  {
    DropIgnore(Collate(Start(lexed), 0))
  }

  function Rewritten(lexed: Lexed): (r: Pass)
    ensures WorkOk(r.w) && r.w.lexed == lexed && r.w.sig == Significant(lexed, 0)
  {
    Passes(Pass(Ready(lexed), 0, None), 0)
  }

  function Conflict(lexed: Lexed): string {
    if IgnoreIndex(Collate(Start(lexed), 0), 0).Some? then " ON CONFLICT DO NOTHING" else ""
  }

  function Identity(inserted: Option<string>, returningIdentity: bool): Option<string> {
    if returningIdentity && inserted.Some? && inserted.value in IDENTITY_COLUMNS then Some(IDENTITY_COLUMNS[inserted.value]) else None
  }

  function Returning(identity: Option<string>, written: bool): string {
    if identity.Some? && !written then " RETURNING " + identity.value else ""
  }

  function Output(r: Pass, conflict: string, returningIdentity: bool): Statement
    requires WorkOk(r.w)
  {
    var identity := Identity(r.inserted, returningIdentity);
    Statement((Body(r.w.texts) + conflict) + Returning(identity, Returns(r.w)), r.count, identity)
  }

  function Convert(lexed: Lexed, returningIdentity: bool): Statement {
    Output(Rewritten(lexed), Conflict(lexed), returningIdentity)
  }

  function PostgresSql(sql: string, returningIdentity: bool): Result<Statement, LexError> {
    var lexed := Lex(sql, 0);
    if lexed.Err? then Err(lexed.error) else Ok(Convert(lexed.value, returningIdentity))
  }
}
