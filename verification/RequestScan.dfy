/** The one-pass scan of a broker request, before any JSON value is built. */
module RequestScan {
  import opened Numbers
  import opened Wrappers

  const QUOTE: byte := 34
  const COMMA: byte := 44
  const COLON: byte := 58
  const OPEN_ARRAY: byte := 91
  const BACKSLASH: byte := 92
  const CLOSE_ARRAY: byte := 93
  const OPEN_OBJECT: byte := 123
  const CLOSE_OBJECT: byte := 125
  const MAX_DEPTH := 2
  const MAX_FIELDS := 12

  // ---------- the scanner ----------

  datatype Scan = Refused | Scan(quoted: bool, escaped: bool, depth: int, fields: nat)

  const START := Scan(false, false, 0, 0)

  function Step(s: Scan, b: byte): Scan {
    if s.Refused? then s
    else if s.quoted then
      if s.escaped then s.(escaped := false)
      else if b == BACKSLASH then s.(escaped := true)
      else if b == QUOTE then s.(quoted := false)
      else s
    else if b == QUOTE then s.(quoted := true)
    else if b == OPEN_ARRAY || b == CLOSE_ARRAY then Refused
    else if b == OPEN_OBJECT then if s.depth + 1 > MAX_DEPTH then Refused else s.(depth := s.depth + 1)
    else if b == CLOSE_OBJECT then s.(depth := s.depth - 1)
    else if b == COLON then if s.fields + 1 > MAX_FIELDS then Refused else s.(fields := s.fields + 1)
    else s
  }

  function Run(s: Scan, raw: Bytes): Scan
    decreases |raw|
  {
    if raw == [] then s else Run(Step(s, raw[0]), raw[1..])
  }

  lemma {:induction false} RunConcat(s: Scan, a: Bytes, b: Bytes)
    ensures Run(s, a + b) == Run(Run(s, a), b)
    decreases |a|
  {
    if a == [] {
      assert a + b == b;
    } else {
      assert (a + b)[1..] == a[1..] + b;
      RunConcat(Step(s, a[0]), a[1..], b);
    }
  }

  lemma {:induction false} RefusedStays(raw: Bytes)
    ensures Run(Refused, raw) == Refused
  {
    if raw != [] { RefusedStays(raw[1..]); }
  }

  lemma RunOne(s: Scan, b: byte)
    ensures Run(s, [b]) == Step(s, b)
  {
    assert [b][1..] == [];
    assert Run(Step(s, b), []) == Step(s, b);
  }

  /** On any bytes, JSON or not, a bracket outside a string refuses the request for good. */
  lemma BracketsAreRefused(before: Bytes, b: byte, after: Bytes)
    requires b == '[' as int as byte || b == ']' as int as byte
    requires !Run(START, before).Refused? && !Run(START, before).quoted
    ensures Run(START, before + [b] + after) == Refused
  {
    RunConcat(START, before, [b]);
    RunOne(Run(START, before), b);
    RunConcat(START, before + [b], after);
    RefusedStays(after);
  }

  method ScanRequest(raw: Bytes) returns (accepted: bool)
    ensures accepted == !Run(START, raw).Refused?
  {
    var quoted, escaped := false, false;
    var depth: int, fields: nat := 0, 0;
    for i := 0 to |raw|
      invariant Run(START, raw) == Run(Scan(quoted, escaped, depth, fields), raw[i..])
    {
      var value := raw[i];
      assert raw[i..][1..] == raw[i + 1..];
      RefusedStays(raw[i + 1..]);
      if quoted {
        if escaped { escaped := false; }
        else if value == BACKSLASH { escaped := true; }
        else if value == QUOTE { quoted := false; }
      } else if value == QUOTE {
        quoted := true;
      } else if value == OPEN_ARRAY || value == CLOSE_ARRAY {
        return false;
      } else if value == OPEN_OBJECT {
        depth := depth + 1;
        if depth > MAX_DEPTH { return false; }
      } else if value == CLOSE_OBJECT {
        depth := depth - 1;
      } else if value == COLON {
        fields := fields + 1;
        if fields > MAX_FIELDS { return false; }
      }
    }
    accepted := true;
  }

  // ---------- JSON texts (RFC 8259, sections 2 to 7) ----------

  /** A character of a string: itself, or one behind a backslash. \uXXXX is an escaped u and
      four plain digits. */
  datatype Char = Plain(b: byte) | Escape(b: byte)

  /** A value with the white space that stands inside it. */
  datatype Json =
    | Atom(text: Bytes)
    | Text(chars: seq<Char>)
    | Array(blank: Bytes, items: Items)
    | Object(blank: Bytes, members: Members)

  datatype Items = NoItems | Item(before: Bytes, value: Json, after: Bytes, rest: Items)

  datatype Members =
    | NoMembers
    | Member(before: Bytes, key: seq<Char>, behindKey: Bytes, beforeValue: Bytes, value: Json, after: Bytes, rest: Members)

  predicate Blank(s: Bytes) {
    forall i :: 0 <= i < |s| ==> s[i] == 32 || s[i] == 9 || s[i] == 10 || s[i] == 13
  }

  /** Bytes of numbers, true, false and null. */
  predicate AtomByte(b: byte) {
    48 <= b <= 57 || b == 43 || b == 45 || b == 46 || b == 69 || 97 <= b <= 122
  }

  predicate WellFormedText(chars: seq<Char>) {
    forall i :: 0 <= i < |chars| && chars[i].Plain? ==> chars[i].b >= 32 && chars[i].b != QUOTE && chars[i].b != BACKSLASH
  }

  predicate WellFormed(v: Json) {
    match v
    case Atom(text) => forall i :: 0 <= i < |text| ==> AtomByte(text[i])
    case Text(chars) => WellFormedText(chars)
    case Array(blank, items) => Blank(blank) && WellFormedItems(items)
    case Object(blank, members) => Blank(blank) && WellFormedMembers(members)
  }

  predicate WellFormedItems(items: Items) {
    items.Item? ==> Blank(items.before) && WellFormed(items.value) && Blank(items.after) && WellFormedItems(items.rest)
  }

  predicate WellFormedMembers(m: Members) {
    m.Member? ==>
      && Blank(m.before) && WellFormedText(m.key) && Blank(m.behindKey) && Blank(m.beforeValue)
      && WellFormed(m.value) && Blank(m.after) && WellFormedMembers(m.rest)
  }

  function RenderChars(chars: seq<Char>): Bytes {
    if chars == [] then []
    else (match chars[0] case Plain(b) => [b] case Escape(b) => [BACKSLASH, b]) + RenderChars(chars[1..])
  }

  function RenderText(chars: seq<Char>): Bytes {
    [QUOTE] + (RenderChars(chars) + [QUOTE])
  }

  function Render(v: Json): Bytes {
    match v
    case Atom(text) => text
    case Text(chars) => RenderText(chars)
    case Array(blank, items) => [OPEN_ARRAY] + ((if items.NoItems? then blank else RenderItems(items)) + [CLOSE_ARRAY])
    case Object(blank, members) => [OPEN_OBJECT] + ((if members.NoMembers? then blank else RenderMembers(members)) + [CLOSE_OBJECT])
  }

  function RenderItems(items: Items): Bytes {
    if items.NoItems? then []
    else items.before + (Render(items.value) + (items.after + (if items.rest.NoItems? then [] else [COMMA] + RenderItems(items.rest))))
  }

  function RenderMembers(m: Members): Bytes {
    if m.NoMembers? then []
    else
      m.before + (RenderText(m.key) + (m.behindKey + ([COLON] + (m.beforeValue + (Render(m.value)
      + (m.after + (if m.rest.NoMembers? then [] else [COMMA] + RenderMembers(m.rest))))))))
  }

  // ---------- what the scan is for ----------

  predicate HasArray(v: Json) {
    match v
    case Atom(_) => false
    case Text(_) => false
    case Array(_, _) => true
    case Object(_, members) => AnyArray(members)
  }

  predicate AnyArray(m: Members) {
    m.Member? && (HasArray(m.value) || AnyArray(m.rest))
  }

  /** How deep objects are nested (arrays are refused wherever they stand). */
  function Nesting(v: Json): nat {
    match v
    case Atom(_) => 0
    case Text(_) => 0
    case Array(_, _) => 0
    case Object(_, members) => 1 + Deepest(members)
  }

  function Deepest(m: Members): nat {
    if m.NoMembers? then 0 else Larger(Nesting(m.value), Deepest(m.rest))
  }

  function Fields(v: Json): nat {
    match v
    case Atom(_) => 0
    case Text(_) => 0
    case Array(_, _) => 0
    case Object(_, members) => AllFields(members)
  }

  function AllFields(m: Members): nat {
    if m.NoMembers? then 0 else 1 + Fields(m.value) + AllFields(m.rest)
  }

  // ---------- the scan finds it ----------

  function Outside(depth: int, fields: nat): Scan {
    Scan(false, false, depth, fields)
  }

  /** Accepted so far, or refused. */
  function Verdict(ok: bool, depth: int, fields: nat): Scan {
    if ok then Outside(depth, fields) else Refused
  }

  lemma {:induction false} RunBlank(s: Bytes, depth: int, fields: nat)
    requires Blank(s)
    ensures Run(Outside(depth, fields), s) == Outside(depth, fields)
  {
    if s != [] { RunBlank(s[1..], depth, fields); }
  }

  lemma {:induction false} RunAtom(s: Bytes, depth: int, fields: nat)
    requires forall i :: 0 <= i < |s| ==> AtomByte(s[i])
    ensures Run(Outside(depth, fields), s) == Outside(depth, fields)
  {
    if s != [] { RunAtom(s[1..], depth, fields); }
  }

  /** Inside a string nothing counts: brackets, colons, braces and escaped quotes. */
  lemma {:induction false} RunChars(chars: seq<Char>, depth: int, fields: nat)
    requires WellFormedText(chars)
    ensures Run(Scan(true, false, depth, fields), RenderChars(chars)) == Scan(true, false, depth, fields)
    decreases |chars|
  {
    if chars != [] {
      var s, rest := Scan(true, false, depth, fields), RenderChars(chars[1..]);
      RunChars(chars[1..], depth, fields);
      match chars[0]
      case Plain(b) =>
        RunConcat(s, [b], rest);
        RunOne(s, b);
      case Escape(b) =>
        assert [BACKSLASH, b] == [BACKSLASH] + [b];
        RunConcat(s, [BACKSLASH], [b]);
        RunOne(s, BACKSLASH);
        RunOne(s.(escaped := true), b);
        RunConcat(s, [BACKSLASH, b], rest);
    }
  }

  lemma RunText(chars: seq<Char>, depth: int, fields: nat)
    requires WellFormedText(chars)
    ensures Run(Outside(depth, fields), RenderText(chars)) == Outside(depth, fields)
  {
    var inside := Scan(true, false, depth, fields);
    RunConcat(Outside(depth, fields), [QUOTE], RenderChars(chars) + [QUOTE]);
    RunOne(Outside(depth, fields), QUOTE);
    RunConcat(inside, RenderChars(chars), [QUOTE]);
    RunChars(chars, depth, fields);
    RunOne(inside, QUOTE);
  }

  lemma {:induction false} RunValue(v: Json, depth: nat, fields: nat)
    requires WellFormed(v) && depth <= MAX_DEPTH && fields <= MAX_FIELDS
    ensures Run(Outside(depth, fields), Render(v)) ==
      Verdict(!HasArray(v) && depth + Nesting(v) <= MAX_DEPTH && fields + Fields(v) <= MAX_FIELDS, depth, fields + Fields(v))
    decreases v
  {
    hide Run, RenderText, RenderItems, RenderMembers;
    match v
    case Atom(text) => RunAtom(text, depth, fields);
    case Text(chars) => RunText(chars, depth, fields);
    case Array(blank, items) =>
      var rest := (if items.NoItems? then blank else RenderItems(items)) + [CLOSE_ARRAY];
      RunConcat(Outside(depth, fields), [OPEN_ARRAY], rest);
      RunOne(Outside(depth, fields), OPEN_ARRAY);
      RefusedStays(rest);
    case Object(blank, members) =>
      var inner := if members.NoMembers? then blank else RenderMembers(members);
      if depth + 1 <= MAX_DEPTH {
        if members.NoMembers? { RunBlank(blank, depth + 1, fields); } else { RunMembers(members, depth + 1, fields); }
      }
      var ok := !AnyArray(members) && depth + 1 + Deepest(members) <= MAX_DEPTH && fields + AllFields(members) <= MAX_FIELDS;
      RunBraces(inner, depth, fields, ok, fields + AllFields(members));
  }

  /** What stands between braces is scanned one level deeper. */
  lemma RunBraces(inner: Bytes, depth: nat, fields: nat, ok: bool, found: nat)
    requires depth + 1 <= MAX_DEPTH ==> Run(Outside(depth + 1, fields), inner) == Verdict(ok, depth + 1, found)
    ensures Run(Outside(depth, fields), [OPEN_OBJECT] + (inner + [CLOSE_OBJECT])) == Verdict(depth + 1 <= MAX_DEPTH && ok, depth, found)
  {
    hide Run;
    RunConcat(Outside(depth, fields), [OPEN_OBJECT], inner + [CLOSE_OBJECT]);
    RunOne(Outside(depth, fields), OPEN_OBJECT);
    if depth + 1 > MAX_DEPTH {
      RefusedStays(inner + [CLOSE_OBJECT]);
    } else {
      RunConcat(Outside(depth + 1, fields), inner, [CLOSE_OBJECT]);
      RunOne(Outside(depth + 1, found), CLOSE_OBJECT);
      RunOne(Refused, CLOSE_OBJECT);
    }
  }

  /** A key, up to its colon. */
  lemma RunKey(m: Members, value: Bytes, depth: nat, fields: nat)
    requires m.Member? && WellFormedMembers(m)
    ensures Run(Outside(depth, fields), m.before + (RenderText(m.key) + (m.behindKey + ([COLON] + value)))) ==
      if fields + 1 > MAX_FIELDS then Refused else Run(Outside(depth, fields + 1), value)
  {
    hide Run, RenderText;
    var s := Outside(depth, fields);
    RunConcat(s, m.before, RenderText(m.key) + (m.behindKey + ([COLON] + value)));
    RunBlank(m.before, depth, fields);
    RunConcat(s, RenderText(m.key), m.behindKey + ([COLON] + value));
    RunText(m.key, depth, fields);
    RunConcat(s, m.behindKey, [COLON] + value);
    RunBlank(m.behindKey, depth, fields);
    RunConcat(s, [COLON], value);
    RunOne(s, COLON);
    RefusedStays(value);
  }

  lemma {:induction false} RunMembers(m: Members, depth: nat, fields: nat)
    requires m.Member? && WellFormedMembers(m) && depth <= MAX_DEPTH && fields <= MAX_FIELDS
    ensures Run(Outside(depth, fields), RenderMembers(m)) ==
      Verdict(!AnyArray(m) && depth + Deepest(m) <= MAX_DEPTH && fields + AllFields(m) <= MAX_FIELDS, depth, fields + AllFields(m))
    decreases m
  {
    hide Run, Render, RenderText, Step;
    var tail := if m.rest.NoMembers? then [] else [COMMA] + RenderMembers(m.rest);
    var afterValue := m.after + tail;
    RunKey(m, m.beforeValue + (Render(m.value) + afterValue), depth, fields);
    if fields + 1 <= MAX_FIELDS {
      var s := Outside(depth, fields + 1);
      RunConcat(s, m.beforeValue, Render(m.value) + afterValue);
      RunBlank(m.beforeValue, depth, fields + 1);
      RunConcat(s, Render(m.value), afterValue);
      RunValue(m.value, depth, fields + 1);
      if Run(s, Render(m.value)).Refused? {
        RefusedStays(afterValue);
      } else {
        RunRest(m, depth, fields + 1 + Fields(m.value), tail);
      }
    }
  }

  lemma {:induction false} RunRest(m: Members, depth: nat, fields: nat, tail: Bytes)
    requires m.Member? && WellFormedMembers(m) && depth <= MAX_DEPTH && fields <= MAX_FIELDS
    requires tail == if m.rest.NoMembers? then [] else [COMMA] + RenderMembers(m.rest)
    ensures Run(Outside(depth, fields), m.after + tail) ==
      Verdict(!AnyArray(m.rest) && depth + Deepest(m.rest) <= MAX_DEPTH && fields + AllFields(m.rest) <= MAX_FIELDS, depth, fields + AllFields(m.rest))
    decreases m, 0
  {
    var s := Outside(depth, fields);
    RunConcat(s, m.after, tail);
    RunBlank(m.after, depth, fields);
    if m.rest.Member? {
      RunConcat(s, [COMMA], RenderMembers(m.rest));
      RunOne(s, COMMA);
      RunMembers(m.rest, depth, fields);
    }
  }

  /** Of any JSON text, however it is spaced and whatever its strings contain, the scan
      accepts exactly those with no array, objects nested at most twice, and at most twelve
      members overall. */
  lemma ScanAcceptsExactly(before: Bytes, v: Json, after: Bytes)
    requires Blank(before) && WellFormed(v) && Blank(after)
    ensures !Run(START, before + (Render(v) + after)).Refused? <==>
      !HasArray(v) && Nesting(v) <= MAX_DEPTH && Fields(v) <= MAX_FIELDS
  {
    RunConcat(START, before, Render(v) + after);
    RunBlank(before, 0, 0);
    RunConcat(START, Render(v), after);
    RunValue(v, 0, 0);
    RefusedStays(after);
    RunBlank(after, 0, Fields(v));
  }
}
