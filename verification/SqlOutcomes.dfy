/** What the rewriter makes of a statement, on the tokens of the statement: the text of every
    token, the conflict clause, and the identity that is returned. */
module SqlOutcomes {
  import opened Letters
  import opened SqlFolding
  import opened SqlMarkers
  import opened SqlRewrite
  import opened SqlSafety
  import opened SqlStatement
  import opened SqlTexts
  import opened SqlTokens
  import opened Wrappers

  // ---------- the whole loop ----------

  lemma CountedSlots(lexed: Lexed, s: Pass, i: nat)
    requires Done(s, i) && TextsTo(lexed, s, i) && i < Significants(lexed)
    ensures s.count == Slots(lexed, Start(lexed).sig[i])
  {
    hide Slots, TextAfter, Inserted, Sound, MarksAre, NumberedTo, Start;
  }

  lemma LoopSize(lexed: Lexed, s: Pass, i: nat)
    requires TextsTo(lexed, s, i)
    ensures WorkOk(s.w) && |s.w.sig| == Significants(lexed) && i <= Significants(lexed)
  {
    hide TextAfter, Inserted, Start;
  }

  lemma {:induction false} LoopTexts(lexed: Lexed, s: Pass, i: nat)
    requires LexedOk(lexed) && WorkOk(s.w) && TextsTo(lexed, s, i) && Done(s, i)
    ensures TextsTo(lexed, Passes(s, i), Significants(lexed))
    decreases Significants(lexed) - i
  {
    hide TextsTo, Done, PassAt, Slots, Significants, Start;
    LoopSize(lexed, s, i);
    if i < Significants(lexed) {
      CountedSlots(lexed, s, i);
      RoundKeeps(lexed, s, i);
      PassAtDone(s, i);
      LoopTexts(lexed, PassAt(s, i), i + 1);
    }
  }

  lemma FirstPending(lexed: Lexed, j: nat)
    ensures TextAfter(lexed, j, 0) == Settled(lexed, j)
  {
    hide Settled, LimitAt;
  }

  lemma ReadyToLoop(lexed: Lexed)
    requires LexedOk(lexed)
    ensures TextsTo(lexed, Pass(Ready(lexed), 0, None), 0)
  {
    hide Settled, Text, TextAfter, Collate, DropIgnore;
    var w := Ready(lexed);
    forall j: nat | j < Significants(lexed) ensures Text(w, j) == TextAfter(lexed, j, 0) {
      ReadyTexts(lexed, j);
      FirstPending(lexed, j);
    }
  }

  lemma RewrittenTexts(lexed: Lexed)
    requires LexedOk(lexed)
    ensures TextsTo(lexed, Rewritten(lexed), Significants(lexed))
  {
    hide TextsTo, Done, Ready, Kept, Significants;
    ReadyKept(lexed);
    BeforeFirst(Ready(lexed));
    ReadyToLoop(lexed);
    LoopTexts(lexed, Pass(Ready(lexed), 0, None), 0);
  }

  /** Every token in the end: white space and comments are as they were, and each other token
      is what is told of it. */
  ghost predicate Becomes(lexed: Lexed, texts: seq<string>) {
    && |texts| == |lexed|
    && (forall p :: 0 <= p < |lexed| && !Meaningful(lexed[p]) ==> texts[p] == lexed[p].text)
    && forall j: nat :: j < Significants(lexed) ==> Start(lexed).sig[j] < |texts| && texts[Start(lexed).sig[j]] == Final(lexed, j)
  }

  lemma FinalTexts(lexed: Lexed)
    requires LexedOk(lexed)
    ensures Becomes(lexed, Rewritten(lexed).w.texts)
    ensures Rewritten(lexed).inserted == Inserted(lexed, Significants(lexed))
  {
    hide Rewritten, Final, Inserted, Significant, Counted, MarksAre, NumberedTo, IsComment;
    RewrittenTexts(lexed);
    RewrittenDone(lexed);
    var w := Rewritten(lexed).w;
    forall j: nat | j < Significants(lexed)
      ensures Start(lexed).sig[j] < |w.texts| && w.texts[Start(lexed).sig[j]] == Final(lexed, j)
    {
      assert Text(w, j) == TextAfter(lexed, j, Significants(lexed));
    }
  }

  // ---------- the statement ----------

  ghost predicate InsertsOrIgnores(lexed: Lexed) {
    exists i: nat :: OrIgnore(lexed, i)
  }

  lemma ConflictMeans(lexed: Lexed)
    requires LexedOk(lexed)
    ensures Conflict(lexed) == if InsertsOrIgnores(lexed) then " ON CONFLICT DO NOTHING" else ""
  {
    hide Collate, Start, OrIgnore, Ignores;
    IgnoreIndexIsFirst(lexed, 0);
  }

  /** The column that identifies an inserted row. */
  function IdentityColumn(table: string): Option<string> {
    if table == "audit_logs" || table == "project_collaboration_events" || table == "project_operations" || table == "organization_audit"
    then Some("id")
    else if table == "project_sync_operations" then Some("sequence")
    else None
  }

  lemma ColumnsAre(table: string)
    ensures IdentityColumn(table) == if table in IDENTITY_COLUMNS then Some(IDENTITY_COLUMNS[table]) else None
  {
  }

  /** A RETURNING clause is written out. */
  ghost predicate ReturnsAlready(lexed: Lexed) {
    exists j: nat :: j < Significants(lexed) && WordAt(lexed, j) && Upper(Final(lexed, j)) == "RETURNING"
  }

  lemma ReturnsMeans(lexed: Lexed)
    requires LexedOk(lexed)
    ensures Returns(Rewritten(lexed).w) <==> ReturnsAlready(lexed)
  {
    hide Rewritten, Final, Upper, LimitAt, Settled;
    RewrittenTexts(lexed);
    var w := Rewritten(lexed).w;
    forall j: nat | j < Significants(lexed) ensures Text(w, j) == Final(lexed, j) && (IsWord(w, j) <==> WordAt(lexed, j)) {
      assert Text(w, j) == TextAfter(lexed, j, Significants(lexed));
    }
    hide TextsTo, WordAt, IsWord, Text;
  }

  ghost function IdentityOf(lexed: Lexed, returningIdentity: bool): Option<string> {
    if returningIdentity && Inserted(lexed, Significants(lexed)).Some?
    then IdentityColumn(Inserted(lexed, Significants(lexed)).value) else None
  }

  /** What follows the rewritten tokens. */
  ghost function Ending(lexed: Lexed, returningIdentity: bool): string {
    (if InsertsOrIgnores(lexed) then " ON CONFLICT DO NOTHING" else "")
    + if IdentityOf(lexed, returningIdentity).Some? && !ReturnsAlready(lexed)
      then " RETURNING " + IdentityOf(lexed, returningIdentity).value else ""
  }

  lemma OutputIs(r: Pass, conflict: string, returningIdentity: bool)
    requires WorkOk(r.w)
    ensures var identity := Identity(r.inserted, returningIdentity);
      Output(r, conflict, returningIdentity)
      == Statement(Body(r.w.texts) + (conflict + Returning(identity, Returns(r.w))), r.count, identity)
  {
    hide Body, Returns, Returning, Identity;
    var identity := Identity(r.inserted, returningIdentity);
    var (x, y, z) := (Body(r.w.texts), conflict, Returning(identity, Returns(r.w)));
    assert (x + y) + z == x + (y + z);
  }

  lemma EndingIs(lexed: Lexed, returningIdentity: bool)
    requires LexedOk(lexed)
    ensures var identity := Identity(Rewritten(lexed).inserted, returningIdentity);
      identity == IdentityOf(lexed, returningIdentity)
      && Conflict(lexed) + Returning(identity, Returns(Rewritten(lexed).w)) == Ending(lexed, returningIdentity)
  {
    hide Rewritten, Conflict, Inserted, Returns, ReturnsAlready, InsertsOrIgnores, IDENTITY_COLUMNS, IdentityColumn;
    FinalTexts(lexed);
    ConflictMeans(lexed);
    ReturnsMeans(lexed);
    if Rewritten(lexed).inserted.Some? { ColumnsAre(Rewritten(lexed).inserted.value); }
  }

  /** An accepted statement consists of what becomes of its tokens, less the white space at
      both ends and one semicolon; then ` ON CONFLICT DO NOTHING` exactly when it inserts or
      ignores; then, when asked for, the identity of the inserted row. */
  lemma StatementIs(sql: string, returningIdentity: bool, lexed: Lexed) returns (texts: seq<string>, a: nat, n: nat)
    requires Lex(sql, 0) == Ok(lexed)
    ensures Becomes(lexed, texts) && TrimsTo(Join(texts), a, n)
    ensures var r := PostgresSql(sql, returningIdentity);
      && r.Ok? && r.value.identity == IdentityOf(lexed, returningIdentity)
      && r.value.sql == Join(texts)[a..if a < n && Join(texts)[n - 1] == ';' then n - 1 else n] + Ending(lexed, returningIdentity)
  {
    LexIsLossless(sql, 0);
    hide Lex, Rewritten, Conflict, Output, Body, TrimsTo, Join, Becomes, Ending, IdentityOf, Identity, Returning, Returns;
    FinalTexts(lexed);
    OutputIs(Rewritten(lexed), Conflict(lexed), returningIdentity);
    EndingIs(lexed, returningIdentity);
    texts := Rewritten(lexed).w.texts;
    var b: nat;
    a, n, b := BodyCuts(texts);
  }
}
