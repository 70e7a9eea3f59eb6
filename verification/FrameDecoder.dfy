/** Reading one length-prefixed frame from a stream that arrives in pieces of any size. */
module FrameDecoder {
  import opened Wrappers

  const MAX_FRAME := 48 * 1024 * 1024

  datatype Outcome = Delivered(payload: Bytes) | Failed

  function BigEndian(h: Bytes): nat
    requires |h| == 4
  {
    ((h[0] as nat * 256 + h[1] as nat) * 256 + h[2] as nat) * 256 + h[3] as nat
  }

  function Concat(pieces: seq<Bytes>): Bytes {
    if pieces == [] then [] else Concat(pieces[..|pieces| - 1]) + pieces[|pieces| - 1]
  }

  /** `settled` says whether the exchange is over, and how. `readable` is whether a payload is
      the UTF-8 text of a JSON value. */
  class Decoder {
    const readable: Bytes -> bool
    var header: Bytes
    var expected: Option<nat>
    var received: nat
    var chunks: seq<Bytes>
    var settled: Option<Outcome>
    ghost var arrived: Bytes

    constructor (readable: Bytes -> bool)
      ensures this.readable == readable && Valid() && settled == None && arrived == []
    {
      this.readable := readable;
      header, expected, received, chunks, settled, arrived := [], None, 0, [], None, [];
    }

    /** Until the exchange is over, the header and the chunks are what has arrived. */
    ghost predicate Valid()
      reads this
    {
      && (settled.None? ==>
            && |header| <= 4 && received == |Concat(chunks)|
            && arrived == header + Concat(chunks)
            && (expected.None? ==> |header| < 4 && chunks == [])
            && (expected.Some? ==> |header| == 4 && expected.value == BigEndian(header) && 1 <= expected.value <= MAX_FRAME && received < expected.value))
      && (settled.Some? && settled.value.Delivered? ==> FirstFrame(arrived, settled.value.payload) && readable(settled.value.payload))
    }

    /** The first error or value settles the exchange; later ones are ignored. */
    method Finish(outcome: Outcome)
      modifies this`settled
      ensures settled == if old(settled).None? then Some(outcome) else old(settled)
    {
      if settled.Some? { return; }
      settled := Some(outcome);
    }

    method Unavailable()
      requires Valid()
      modifies this`settled
      ensures Valid() && settled == if old(settled).None? then Some(Failed) else old(settled)
    {
      Finish(Failed);
    }

    /** The end, an error, a timeout or a cancellation. */
    method OnEnd()
      requires Valid()
      modifies this`settled
      ensures Valid() && settled == if old(settled).None? then Some(Failed) else old(settled)
    {
      if settled.None? { Unavailable(); }
    }

    /** Expecting: the length is known, and the frame is not complete. */
    ghost predicate Expecting()
      reads this
    {
      && settled.None? && |header| == 4 && expected == Some(BigEndian(header)) && 1 <= BigEndian(header) <= MAX_FRAME
      && received == |Concat(chunks)| < BigEndian(header)
    }

    /** The part of a piece that belongs to the length prefix; gives the rest. */
    method TakeHeader(incoming: Bytes) returns (bytes: Bytes)
      requires Valid() && settled.None? && expected.None?
      modifies this`header, this`expected, this`settled
      ensures header + bytes == old(arrived) + incoming && |header| <= 4 && (|header| < 4 ==> bytes == [])
      ensures |header| < 4 ==> settled.None? && expected.None?
      ensures |header| == 4 ==> expected == Some(BigEndian(header))
      ensures |header| == 4 ==> settled == if 1 <= BigEndian(header) <= MAX_FRAME then None else Some(Failed)
    {
      assert Concat([]) == [];
      var needed := 4 - |header|;
      var taken := if needed < |incoming| then needed else |incoming|;
      header, bytes := header + incoming[..taken], incoming[taken..];
      if |header| != 4 { return; }
      expected := Some(BigEndian(header));
      if expected.value < 1 || expected.value > MAX_FRAME { Finish(Failed); }
    }

    /** The part of a piece behind the prefix. */
    method TakeBody(bytes: Bytes)
      requires Expecting() && arrived == (header + Concat(chunks)) + bytes
      modifies this`received, this`chunks, this`settled
      ensures Valid() && settled == Verdict(arrived, readable)
    {
      assert arrived[..4] == header && arrived[4..] == Concat(chunks) + bytes;
      received := received + |bytes|;
      if received > expected.value {
        Finish(Failed);
        return;
      }
      assert (chunks + [bytes])[..|chunks|] == chunks;
      chunks := chunks + [bytes];
      assert arrived == header + Concat(chunks) && arrived[4..] == Concat(chunks);
      if received == expected.value {
        var payload := Joined(chunks);
        if readable(payload) { Finish(Delivered(payload)); } else { Finish(Failed); }
      }
    }

    method OnData(incoming: Bytes)
      requires Valid()
      modifies this
      ensures Valid()
      ensures old(settled).Some? ==> settled == old(settled) && arrived == old(arrived)
      ensures old(settled).None? ==> arrived == old(arrived) + incoming && settled == Verdict(arrived, readable)
    {
      if settled.Some? { return; }
      var bytes := incoming;
      if expected.None? {
        assert Concat([]) == [];
        bytes := TakeHeader(incoming);
        arrived := arrived + incoming;
        assert |header| == 4 ==> arrived[..4] == header;
        if settled.Some? || |header| != 4 { return; }
      } else {
        arrived := arrived + incoming;
      }
      TakeBody(bytes);
    }

    method Joined(pieces: seq<Bytes>) returns (r: Bytes)
      ensures r == Concat(pieces)
    {
      r := [];
      assert pieces[..0] == [];
      for i := 0 to |pieces|
        invariant r == Concat(pieces[..i])
      {
        assert pieces[..i + 1][..i] == pieces[..i];
        r := r + pieces[i];
      }
      assert pieces[..|pieces|] == pieces;
    }

    /** A whole stream, then its end. */
    method Receive(pieces: seq<Bytes>) returns (outcome: Outcome)
      requires Valid() && settled == None && arrived == []
      modifies this
      ensures outcome == Reads(pieces, readable)
    {
      for i := 0 to |pieces|
        invariant Valid()
        invariant settled.None? ==> arrived == Concat(pieces[..i])
        invariant settled == After(pieces[..i], readable)
      {
        assert pieces[..i + 1][..i] == pieces[..i];
        OnData(pieces[i]);
      }
      assert pieces[..|pieces|] == pieces;
      OnEnd();
      outcome := settled.value;
    }
  }

  // ---------- what the bytes mean ----------

  /** The declared length, once four bytes are there. */
  function Declared(s: Bytes): nat
    requires |s| >= 4
  {
    BigEndian(s[..4])
  }

  /** `payload` is the declared number of bytes behind the prefix of s, and s ends there. */
  predicate FirstFrame(s: Bytes, payload: Bytes) {
    |s| >= 4 && 1 <= Declared(s) <= MAX_FRAME && |s| == 4 + Declared(s) && payload == s[4..]
  }

  /** How a stream that has brought exactly s so far is judged, if it is. */
  function Verdict(s: Bytes, readable: Bytes -> bool): Option<Outcome> {
    if |s| < 4 then None
    else if Declared(s) < 1 || Declared(s) > MAX_FRAME then Some(Failed)
    else if |s| < 4 + Declared(s) then None
    else if |s| == 4 + Declared(s) && readable(s[4..]) then Some(Delivered(s[4..]))
    else Some(Failed)
  }

  /** The first verdict after any piece stands. */
  function After(pieces: seq<Bytes>, readable: Bytes -> bool): Option<Outcome> {
    if pieces == [] then None
    else
      var before := After(pieces[..|pieces| - 1], readable);
      if before.Some? then before else Verdict(Concat(pieces), readable)
  }

  function Reads(pieces: seq<Bytes>, readable: Bytes -> bool): Outcome {
    var settled := After(pieces, readable);
    if settled.Some? then settled.value else Failed
  }

  // ---------- any cutting of a frame delivers it ----------

  lemma {:induction false} NoVerdictBefore(pieces: seq<Bytes>, readable: Bytes -> bool, frame: Bytes)
    requires Concat(pieces) < frame && |frame| >= 4 && 1 <= Declared(frame) <= MAX_FRAME && |frame| == 4 + Declared(frame)
    ensures After(pieces, readable) == None
    decreases |pieces|
  {
    if pieces != [] {
      var before := pieces[..|pieces| - 1];
      assert Concat(before) <= Concat(pieces);
      NoVerdictBefore(before, readable, frame);
      if |Concat(pieces)| >= 4 { assert Concat(pieces)[..4] == frame[..4]; }
    }
  }

  /** However an exact frame is cut into pieces, empty ones included, its payload is delivered,
      or refused if it is not readable. */
  lemma {:induction false} AnyCutDelivers(pieces: seq<Bytes>, readable: Bytes -> bool, frame: Bytes)
    requires Concat(pieces) == frame && |frame| >= 4 && 1 <= Declared(frame) <= MAX_FRAME && |frame| == 4 + Declared(frame)
    ensures Reads(pieces, readable) == if readable(frame[4..]) then Delivered(frame[4..]) else Failed
    decreases |pieces|
  {
    var before := pieces[..|pieces| - 1];
    if Concat(before) == frame {
      AnyCutDelivers(before, readable, frame);
      assert Verdict(frame, readable).Some?;
      WholeIsSettled(before, readable, frame);
    } else {
      NoVerdictBefore(before, readable, frame);
    }
  }

  lemma {:induction false} WholeIsSettled(pieces: seq<Bytes>, readable: Bytes -> bool, frame: Bytes)
    requires Concat(pieces) == frame && Verdict(frame, readable).Some?
    ensures After(pieces, readable).Some?
  {
    assert pieces != [];
  }

  /** A stream that ends before the frame does always fails. */
  lemma EarlyEndFails(pieces: seq<Bytes>, readable: Bytes -> bool, frame: Bytes)
    requires Concat(pieces) < frame && |frame| >= 4 && 1 <= Declared(frame) <= MAX_FRAME && |frame| == 4 + Declared(frame)
    ensures Reads(pieces, readable) == Failed
  {
    NoVerdictBefore(pieces, readable, frame);
  }

  lemma {:induction false} Prefixes(pieces: seq<Bytes>, k: nat)
    requires k <= |pieces|
    ensures Concat(pieces[..k]) <= Concat(pieces)
    decreases |pieces|
  {
    if k == |pieces| {
      assert pieces[..k] == pieces;
    } else {
      Prefixes(pieces[..|pieces| - 1], k);
      assert pieces[..|pieces| - 1][..k] == pieces[..k];
    }
  }

  /** A piece ends exactly where the frame does. */
  ghost predicate EndsWithPiece(pieces: seq<Bytes>, k: nat)
    requires k <= |pieces|
  {
    |Concat(pieces[..k])| >= 4 && |Concat(pieces[..k])| == 4 + Declared(Concat(pieces[..k])) && 1 <= Declared(Concat(pieces[..k])) <= MAX_FRAME
  }

  lemma {:induction false} SettledAt(pieces: seq<Bytes>, readable: Bytes -> bool) returns (j: nat)
    requires After(pieces, readable).Some?
    ensures j <= |pieces| && Verdict(Concat(pieces[..j]), readable) == After(pieces, readable)
    decreases |pieces|
  {
    var before := pieces[..|pieces| - 1];
    if After(before, readable).Some? {
      j := SettledAt(before, readable);
      assert before[..j] == pieces[..j];
    } else {
      j := |pieces|;
      assert pieces[..j] == pieces;
    }
  }

  lemma SameEnd(p: Bytes, c: Bytes, readable: Bytes -> bool)
    requires p <= c && Verdict(p, readable).Some?
    requires |c| >= 4 && 1 <= Declared(c) <= MAX_FRAME && |c| == 4 + Declared(c)
    ensures p == c
  {
    hide BigEndian;
    assert |p| >= 4 && p[..4] == c[..4];
  }

  /** Once settled, a later end of the frame is the same end. */
  lemma SettledBeforeEnd(pieces: seq<Bytes>, readable: Bytes -> bool)
    requires pieces != [] && After(pieces[..|pieces| - 1], readable).Some? && EndsWithPiece(pieces, |pieces|)
    ensures After(pieces, readable) == Verdict(Concat(pieces), readable)
  {
    var before := pieces[..|pieces| - 1];
    assert After(pieces, readable) == After(before, readable);
    hide After, Concat, Verdict, Declared;
    var j := SettledAt(before, readable);
    assert before[..j] == pieces[..j] && pieces[..|pieces|] == pieces;
    Prefixes(pieces, j);
    SameEnd(Concat(pieces[..j]), Concat(pieces), readable);
  }

  /** A payload is delivered exactly when some piece ends where the declared frame ends, and it
      is readable; it is then the declared number of bytes behind the prefix. Bytes behind it
      in the same piece make the exchange fail, in later pieces they are ignored. */
  lemma {:induction false} DeliversExactly(pieces: seq<Bytes>, readable: Bytes -> bool, payload: Bytes)
    ensures Reads(pieces, readable) == Delivered(payload) <==>
      exists k :: 0 <= k <= |pieces| && EndsWithPiece(pieces, k) && payload == Concat(pieces[..k])[4..] && readable(payload)
    decreases |pieces|
  {
    hide BigEndian;
    if pieces == [] {
      assert forall k :: 0 <= k <= |pieces| ==> pieces[..k] == [];
    } else {
      var before := pieces[..|pieces| - 1];
      DeliversExactly(before, readable, payload);
      forall k | 0 <= k <= |before| ensures EndsWithPiece(pieces, k) <==> EndsWithPiece(before, k) {
        assert before[..k] == pieces[..k];
      }
      assert forall k :: 0 <= k <= |before| ==> before[..k] == pieces[..k];
      assert pieces[..|pieces|] == pieces;
      if After(before, readable).Some? && EndsWithPiece(pieces, |pieces|) { SettledBeforeEnd(pieces, readable); }
    }
  }

  // ---------- bytes and pieces ----------

  /** The prefix reads back the length that was written big-endian. */
  lemma PrefixIsRead(n: nat)
    requires n < 0x1_0000_0000
    ensures BigEndian([(n / 0x100_0000) as byte, (n / 0x1_0000 % 0x100) as byte, (n / 0x100 % 0x100) as byte, (n % 0x100) as byte]) == n
  {
    assert n / 0x1_0000 / 0x100 == n / 0x100_0000 && n / 0x100 / 0x100 == n / 0x1_0000;
  }

  /** The stream is the pieces put together, in order. */
  lemma {:induction false} PiecesAreTheStream(a: seq<Bytes>, b: seq<Bytes>, piece: Bytes)
    ensures Concat([piece]) == piece && Concat(a + b) == Concat(a) + Concat(b)
    decreases |b|
  {
    assert [piece][..0] == [] && Concat([]) == [];
    if b == [] {
      assert a + b == a;
    } else {
      assert (a + b)[..|a + b| - 1] == a + b[..|b| - 1];
      PiecesAreTheStream(a, b[..|b| - 1], piece);
    }
  }

  lemma OneLength(p: Bytes, c: Bytes)
    requires p <= c && |p| >= 4
    ensures Declared(p) == Declared(c)
  {
    assert p[..4] == c[..4];
  }

  /** A length of nothing, or of more than 48 MiB, fails the exchange as soon as it is there. */
  lemma BadLengthFails(pieces: seq<Bytes>, readable: Bytes -> bool)
    requires |Concat(pieces)| >= 4 && (Declared(Concat(pieces)) < 1 || Declared(Concat(pieces)) > MAX_FRAME)
    ensures After(pieces, readable) == Some(Failed)
  {
    hide Declared, Concat;
    if pieces == [] {
      Nothing();
    } else if After(pieces[..|pieces| - 1], readable).Some? {
      var j := SettledAt(pieces, readable);
      Prefixes(pieces, j);
      if |Concat(pieces[..j])| >= 4 { OneLength(Concat(pieces[..j]), Concat(pieces)); }
    }
  }

  lemma Nothing()
    ensures Concat([]) == []
  {
  }
}
