/** Base32 of TOTP secrets: RFC 4648, section 6, without padding. The accumulator of the
    loops is a 32-bit integer that is never masked. */
module Base32 {
  import opened Letters
  import opened Wrappers

  const ALPHABET := "ABCDEFGHIJKLMNOPQRSTUVWXYZ234567"

  const WORD := 0x1_0000_0000

  // ---------- numbers as digits ----------

  /** Big-endian value of digits in the given base. */
  function Value(digits: seq<nat>, base: nat): nat {
    if digits == [] then 0 else Value(digits[..|digits| - 1], base) * base + digits[|digits| - 1]
  }

  predicate DigitsOf(digits: seq<nat>, base: nat) {
    forall i :: 0 <= i < |digits| ==> digits[i] < base
  }

  lemma ValueAppend(digits: seq<nat>, d: nat, base: nat)
    ensures Value(digits + [d], base) == Value(digits, base) * base + d
  {
    assert (digits + [d])[..|digits|] == digits;
  }

  /** The same number of bytes and the same value: the same bytes. */
  lemma {:induction false} ValueInjective(a: seq<nat>, b: seq<nat>)
    requires DigitsOf(a, 256) && DigitsOf(b, 256) && |a| == |b| && Value(a, 256) == Value(b, 256)
    ensures a == b
    decreases |a|
  {
    if a != [] {
      ValueInjective(a[..|a| - 1], b[..|b| - 1]);
      assert a == a[..|a| - 1] + [a[|a| - 1]] && b == b[..|b| - 1] + [b[|b| - 1]];
    }
  }

  // ---------- letters and bytes ----------

  function Index(c: char): Option<nat> {
    if 'A' <= c <= 'Z' then Some(c as nat - 'A' as nat)
    else if '2' <= c <= '7' then Some(c as nat - '2' as nat + 26)
    else None
  }

  predicate Removed(c: char) {
    c == '=' || c == ' ' || '\t' <= c <= '\r'
  }

  /** The value of a character that counts. */
  function Digit(c: char): (d: Option<nat>)
    ensures d.Some? ==> d.value < 32
  {
    if Removed(c) then None else Index(UpperChar(c))
  }

  /** The values of the letters of a text, whatever else stands between them. */
  function Indexes(s: string): seq<nat> {
    if s == "" then []
    else
      var (before, c) := (Indexes(s[..|s| - 1]), s[|s| - 1]);
      if Digit(c).None? then before else before + [Digit(c).value]
  }

  function Numbers(b: Bytes): (r: seq<nat>)
    ensures |r| == |b|
  {
    if b == [] then [] else Numbers(b[..|b| - 1]) + [b[|b| - 1] as nat]
  }

  lemma {:induction false} NumbersAt(b: Bytes)
    ensures DigitsOf(Numbers(b), 256) && forall i :: 0 <= i < |b| ==> Numbers(b)[i] == b[i] as nat
    decreases |b|
  {
    if b != [] { NumbersAt(b[..|b| - 1]); }
  }

  lemma LetterIndex(i: nat)
    requires i < 32
    ensures var c := ALPHABET[i]; !Removed(c) && Index(UpperChar(c)) == Some(i)
  {
  }

  lemma IndexesAppend(s: string, i: nat)
    requires i < 32
    ensures Indexes(s + [ALPHABET[i]]) == Indexes(s) + [i]
  {
    LetterIndex(i);
    assert (s + [ALPHABET[i]])[..|s|] == s;
  }

  // ---------- 32-bit arithmetic ----------

  /** `(value << 8) | byte` */
  function Shift8(value: nat, b: nat): nat {
    (value * 256 + b) % WORD
  }

  /** `(value << 5) | index` */
  function Shift5(value: nat, index: nat): nat {
    (value * 32 + index) % WORD
  }

  // ---------- products, quotients ----------

  lemma Assoc(a: int, b: int, c: int)
    ensures (a * b) * c == a * (b * c)
  {
  }

  lemma Dist(a: int, b: int, c: int)
    ensures (a + b) * c == a * c + b * c && (a - b) * c == a * c - b * c
  {
  }

  lemma MulAtLeast(a: int, d: nat)
    ensures a >= 1 ==> a * d >= d
    ensures a <= -1 ==> a * d <= 0 - d
  {
    Dist(a - 1, 1, d);
    Dist(a + 1, 1, d);
  }

  lemma DivUnique(n: nat, q: nat, r: nat, d: nat)
    requires n == q * d + r && r < d
    ensures n / d == q && n % d == r
  {
    var (p, s) := (n / d, n % d);
    assert n == p * d + s && s < d;
    Dist(p, q, d);
    MulAtLeast(p - q, d);
  }

  lemma QuotientBelow(n: nat, d: nat, m: nat)
    requires d > 0 && n < m * d
    ensures n / d < m && n == (n / d) * d + n % d
  {
    var q := n / d;
    assert n == q * d + n % d;
    Dist(q, m, d);
    MulAtLeast(q - m, d);
  }

  lemma ShiftBelow(low: nat, d: nat, p: nat, w: nat)
    requires low < p && d < w
    ensures low * w + d < p * w
  {
    Dist(p, low, w);
    MulAtLeast(p - low, w);
  }

  lemma NotNegative(a: int, m: nat, low: nat)
    requires low < m && a * m + low >= 0
    ensures a >= 0
  {
    MulAtLeast(a, m);
  }

  /** Shifting in and wrapping around. */
  lemma InCore(value: int, w: int, d: int, p: int, low: int, above: int, k: int, t: int, r: int)
    requires value == above * p + low && value * w + d == t * (k * (p * w)) + r
    ensures r == (above - t * k) * (p * w) + (low * w + d)
  {
    Dist(above * p, low, w);
    Assoc(above, p, w);
    Assoc(t, k, p * w);
    Dist(above, t * k, p * w);
  }

  /** Taking the topmost part c off the low bits. */
  lemma OutCore(value: int, above: int, w: int, q: int, low: int, c: int, l: int, high: int)
    requires value == above * (q * w) + low && low == c * q + l
    ensures value == (above * w + c) * q + l
    ensures high * (q * w) + low == (high * w + c) * q + l
  {
    Assoc(above, w, q);
    Dist(above * w, c, q);
    Assoc(high, w, q);
    Dist(high * w, c, q);
  }

  lemma Top(value: nat, above: nat, w: nat, q: nat, c: nat, l: nat)
    requires value == (above * w + c) * q + l && l < q && c < w
    ensures (value / q) % w == c
  {
    DivUnique(value, above * w + c, l, q);
    DivUnique(above * w + c, above, c, w);
  }

  // ---------- the live bits ----------

  function Pow2(n: nat): (p: nat)
    ensures p > 0
  {
    if n == 0 then 1 else 2 * Pow2(n - 1)
  }

  lemma {:induction false} PowSum(a: nat, b: nat)
    ensures Pow2(a + b) == Pow2(a) * Pow2(b) && Pow2(a) > 0 && Pow2(b) > 0
    decreases a + b
  {
    if a > 0 {
      PowSum(a - 1, b);
      assert Pow2(a + b) == 2 * Pow2((a - 1) + b);
      assert 2 * (Pow2(a - 1) * Pow2(b)) == (2 * Pow2(a - 1)) * Pow2(b);
    } else if b > 0 {
      PowSum(0, b - 1);
    }
  }

  lemma Powers()
    ensures Pow2(5) == 32 && Pow2(8) == 256 && Pow2(32) == WORD
  {
    assert Pow2(5) == 32 && Pow2(8) == 8 * Pow2(5);
    PowSum(8, 8);
    PowSum(16, 16);
  }

  /** The lowest `bits` bits of the accumulator are the number `low`. Of the others, `above`,
      nothing is said: they are what has not yet wrapped away. */
  predicate Live(value: nat, bits: nat, low: nat, above: nat) {
    bits <= 12 && low < Pow2(bits) && value == above * Pow2(bits) + low
  }

  lemma Wrapped(value: nat, w: nat, d: nat, p: nat, low: nat, above: nat, k: nat) returns (rest: nat)
    requires value == above * p + low && low < p && d < w && k * (p * w) == WORD
    ensures (value * w + d) % WORD == rest * (p * w) + (low * w + d) && low * w + d < p * w
  {
    var (t, r) := ((value * w + d) / WORD, (value * w + d) % WORD);
    assert value * w + d == t * WORD + r;
    InCore(value, w, d, p, low, above, k, t, r);
    ShiftBelow(low, d, p, w);
    NotNegative(above - t * k, p * w, low * w + d);
    rest := above - t * k;
  }

  /** Shifting bits in moves the live ones up, and wraps none of them away. */
  lemma BitsIn(value: nat, bits: nat, low: nat, above: nat, width: nat, d: nat) returns (rest: nat)
    requires Live(value, bits, low, above) && bits + width <= 12 && d < Pow2(width)
    ensures Live((value * Pow2(width) + d) % WORD, bits + width, low * Pow2(width) + d, rest)
  {
    PowSum(bits, width);
    PowSum(32 - bits - width, bits + width);
    Powers();
    hide Pow2;
    rest := Wrapped(value, Pow2(width), d, Pow2(bits), low, above, Pow2(32 - bits - width));
  }

  /** The topmost live bits, read and taken off. */
  lemma BitsOut(value: nat, bits: nat, low: nat, above: nat, width: nat, high: nat) returns (rest: nat)
    requires Live(value, bits, low, above) && width <= bits
    ensures Pow2(bits - width) > 0 && Pow2(width) > 0
    ensures Live(value, bits - width, low % Pow2(bits - width), rest)
    ensures high * Pow2(bits) + low
      == (high * Pow2(width) + (value / Pow2(bits - width)) % Pow2(width)) * Pow2(bits - width) + low % Pow2(bits - width)
  {
    PowSum(bits - width, width);
    hide Pow2;
    var (q, w) := (Pow2(bits - width), Pow2(width));
    assert Pow2(bits) == q * w;
    rest := BitsOutBy(value, low, above, q, w, high);
  }

  lemma BitsOutBy(value: nat, low: nat, above: nat, q: nat, w: nat, high: nat) returns (rest: nat)
    requires q > 0 && w > 0 && low < q * w && value == above * (q * w) + low
    ensures low % q < q && value == rest * q + low % q
    ensures high * (q * w) + low == (high * w + (value / q) % w) * q + low % q
  {
    assert q * w == w * q;
    QuotientBelow(low, q, w);
    var c: nat, l: nat := low / q, low % q;
    OutCore(value, above, w, q, low, c, l, high);
    rest := above * w + c;
    Top(value, above, w, q, c, l);
  }

  /** The last letter: the bits that remain, filled up with zeros. */
  lemma LastLetter(value: nat, bits: nat, low: nat, above: nat, high: nat)
    requires Live(value, bits, low, above) && 0 < bits < 5
    ensures high * 32 + ((value * Pow2(5 - bits)) % WORD) % 32 == (high * Pow2(bits) + low) * Pow2(5 - bits)
  {
    PowSum(bits, 5 - bits);
    Powers();
    hide Pow2;
    var (p, u) := (Pow2(bits), Pow2(5 - bits));
    var (t, r) := ((value * u) / WORD, (value * u) % WORD);
    ShiftBelow(low, 0, p, u);
    InCore(value, u, 0, p, low, above, 134217728, t, r);
    NotNegative(above - t * 134217728, 32, low * u);
    DivUnique(r, above - t * 134217728, low * u, 32);
    Dist(high * p, low, u);
    Assoc(high, p, u);
  }

  // ---------- the loops ----------

  /** The meaning of a base32 text of n bytes: as many letters as the bits need, whose value is
      that of the bytes with zero bits behind. */
  ghost predicate Encodes(s: string, b: Bytes) {
    && |s| == (8 * |b| + 4) / 5 && |Indexes(s)| == |s|
    && Value(Indexes(s), 32) == Value(Numbers(b), 256) * Pow2(5 * |s| - 8 * |b|)
  }

  /** Letters put out and bits still live together are the bytes read so far. */
  ghost predicate Pending(s: string, value: nat, bits: nat, low: nat, above: nat, number: nat) {
    && |Indexes(s)| == |s| && value < WORD && Live(value, bits, low, above)
    && Value(Indexes(s), 32) * Pow2(bits) + low == number
  }

  /** `value = (value << 8) | byte`, with at most four bits live. */
  method TakeByte(ghost s: string, value: nat, ghost bits: nat, ghost low: nat, ghost above: nat, ghost number: nat, d: nat)
    returns (next: nat, ghost nextLow: nat, ghost nextAbove: nat)
    requires Pending(s, value, bits, low, above, number) && bits <= 4 && d < 256
    ensures next == Shift8(value, d)
    ensures Pending(s, next, bits + 8, nextLow, nextAbove, number * 256 + d)
  {
    Powers();
    nextAbove := BitsIn(value, bits, low, above, 8, d);
    PowSum(bits, 8);
    hide Pow2;
    next, nextLow := (value * 256 + d) % WORD, low * 256 + d;
    Assoc(Value(Indexes(s), 32), Pow2(bits), 256);
  }

  /** `out += ALPHABET[(value >>> (bits - 5)) & 31]` */
  method PutLetter(s: string, value: nat, bits: nat, ghost low: nat, ghost above: nat, ghost number: nat)
    returns (longer: string, ghost nextLow: nat, ghost nextAbove: nat)
    requires Pending(s, value, bits, low, above, number) && bits >= 5
    ensures |longer| == |s| + 1 && Pending(longer, value, bits - 5, nextLow, nextAbove, number)
  {
    Powers();
    nextAbove := BitsOut(value, bits, low, above, 5, Value(Indexes(s), 32));
    hide Pow2;
    var c := (value / Pow2(bits - 5)) % 32;
    IndexesAppend(s, c);
    ValueAppend(Indexes(s), c, 32);
    longer := s + [ALPHABET[c]];
    nextLow := low % Pow2(bits - 5);
  }

  /** `out += ALPHABET[(value << (5 - bits)) & 31]` */
  method PutLast(s: string, value: nat, bits: nat, ghost low: nat, ghost above: nat, ghost number: nat) returns (longer: string)
    requires Pending(s, value, bits, low, above, number) && 0 < bits < 5
    ensures |longer| == |s| + 1 && |Indexes(longer)| == |longer|
    ensures Value(Indexes(longer), 32) == number * Pow2(5 - bits)
  {
    LastLetter(value, bits, low, above, Value(Indexes(s), 32));
    hide Pow2;
    var c := ((value * Pow2(5 - bits)) % WORD) % 32;
    IndexesAppend(s, c);
    ValueAppend(Indexes(s), c, 32);
    longer := s + [ALPHABET[c]];
  }

  lemma NumbersAppend(b: Bytes, i: nat)
    requires i < |b|
    ensures Value(Numbers(b[..i + 1]), 256) == Value(Numbers(b[..i]), 256) * 256 + b[i] as nat
  {
    assert b[..i + 1][..i] == b[..i];
    ValueAppend(Numbers(b[..i]), b[i] as nat, 256);
  }

  method Encode(b: Bytes) returns (s: string)
    ensures Encodes(s, b)
  {
    hide Pending;
    var bits: nat, value: nat := 0, 0;
    s := "";
    ghost var low: nat, above: nat := 0, 0;
    PendingStart();
    assert b[..0] == [];
    for i := 0 to |b|
      invariant bits < 5 && 5 * |s| + bits == 8 * i
      invariant Pending(s, value, bits, low, above, Value(Numbers(b[..i]), 256))
    {
      NumbersAppend(b, i);
      value, low, above := TakeByte(s, value, bits, low, above, Value(Numbers(b[..i]), 256), b[i] as nat);
      bits := bits + 8;
      while bits >= 5
        invariant 5 * |s| + bits == 8 * (i + 1)
        invariant Pending(s, value, bits, low, above, Value(Numbers(b[..i + 1]), 256))
        decreases bits
      {
        s, low, above := PutLetter(s, value, bits, low, above, Value(Numbers(b[..i + 1]), 256));
        bits := bits - 5;
      }
    }
    assert b[..|b|] == b;
    if bits > 0 {
      s := PutLast(s, value, bits, low, above, Value(Numbers(b), 256));
    } else {
      PendingEnd(s, value, low, above, Value(Numbers(b), 256));
    }
  }

  lemma PendingStart()
    ensures Pending("", 0, 0, 0, 0, Value(Numbers([]), 256))
  {
  }

  lemma PendingEnd(s: string, value: nat, low: nat, above: nat, number: nat)
    requires Pending(s, value, 0, low, above, number)
    ensures |Indexes(s)| == |s| && Value(Indexes(s), 32) == number
  {
  }

  // ---------- decoding ----------

  /** The meaning of decoding: as many whole bytes as the letters hold, their value that of the
      letters less the bits left over. */
  ghost predicate Decodes(b: Bytes, s: string) {
    var digits := Indexes(s);
    && |b| == 5 * |digits| / 8
    && Value(Numbers(b), 256) == Value(digits, 32) / Pow2(5 * |digits| % 8)
  }

  ghost predicate Decoding(b: Bytes, value: nat, bits: nat, low: nat, above: nat, number: nat) {
    && value < WORD && Live(value, bits, low, above)
    && Value(Numbers(b), 256) * Pow2(bits) + low == number
  }

  /** `value = (value << 5) | index`, with at most seven bits live. */
  method TakeLetter(ghost b: Bytes, value: nat, ghost bits: nat, ghost low: nat, ghost above: nat, ghost number: nat, d: nat)
    returns (next: nat, ghost nextLow: nat, ghost nextAbove: nat)
    requires Decoding(b, value, bits, low, above, number) && bits <= 7 && d < 32
    ensures next == Shift5(value, d)
    ensures Decoding(b, next, bits + 5, nextLow, nextAbove, number * 32 + d)
  {
    Powers();
    nextAbove := BitsIn(value, bits, low, above, 5, d);
    PowSum(bits, 5);
    hide Pow2;
    next, nextLow := (value * 32 + d) % WORD, low * 32 + d;
    Assoc(Value(Numbers(b), 256), Pow2(bits), 32);
  }

  /** `bytes.push((value >>> (bits - 8)) & 0xff)` */
  method PutByte(b: Bytes, value: nat, bits: nat, ghost low: nat, ghost above: nat, ghost number: nat)
    returns (longer: Bytes, ghost nextLow: nat, ghost nextAbove: nat)
    requires Decoding(b, value, bits, low, above, number) && bits >= 8
    ensures |longer| == |b| + 1 && Decoding(longer, value, bits - 8, nextLow, nextAbove, number)
  {
    Powers();
    nextAbove := BitsOut(value, bits, low, above, 8, Value(Numbers(b), 256));
    hide Pow2;
    var c := (value / Pow2(bits - 8)) % 256;
    longer := b + [c as byte];
    assert longer[..|b|] == b;
    ValueAppend(Numbers(b), c, 256);
    nextLow := low % Pow2(bits - 8);
  }

  lemma IndexesNext(s: string, i: nat)
    requires i < |s|
    ensures Digit(s[i]) == None ==> Indexes(s[..i + 1]) == Indexes(s[..i])
    ensures Digit(s[i]).Some? ==> |Indexes(s[..i + 1])| == |Indexes(s[..i])| + 1
    ensures Digit(s[i]).Some? ==> Value(Indexes(s[..i + 1]), 32) == Value(Indexes(s[..i]), 32) * 32 + Digit(s[i]).value
  {
    assert s[..i + 1][..i] == s[..i];
    if Digit(s[i]).Some? { ValueAppend(Indexes(s[..i]), Digit(s[i]).value, 32); }
  }

  method Decode(s: string) returns (b: Bytes)
    ensures Decodes(b, s)
  {
    hide Decoding, Pow2, Indexes, Value, Digit;
    var bits: nat, value: nat := 0, 0;
    b := [];
    ghost var low: nat, above: nat := 0, 0;
    assert s[..0] == "";
    DecodingStart();
    NoIndexes();
    for i := 0 to |s|
      invariant bits < 8 && 8 * |b| + bits == 5 * |Indexes(s[..i])|
      invariant Decoding(b, value, bits, low, above, Value(Indexes(s[..i]), 32))
    {
      IndexesNext(s, i);
      var index := Digit(s[i]);
      if index.Some? {
        value, low, above := TakeLetter(b, value, bits, low, above, Value(Indexes(s[..i]), 32), index.value);
        bits := bits + 5;
        if bits >= 8 {
          b, low, above := PutByte(b, value, bits, low, above, Value(Indexes(s[..i + 1]), 32));
          bits := bits - 8;
        }
      }
    }
    assert s[..|s|] == s;
    DecodingEnd(b, value, bits, low, above, Value(Indexes(s), 32));
  }

  lemma NoIndexes()
    ensures Indexes("") == []
  {
  }

  lemma DecodingStart()
    ensures Decoding([], 0, 0, 0, 0, Value(Indexes(""), 32))
  {
  }

  lemma DecodingEnd(b: Bytes, value: nat, bits: nat, low: nat, above: nat, number: nat)
    requires Decoding(b, value, bits, low, above, number)
    ensures Pow2(bits) > 0 && Value(Numbers(b), 256) == number / Pow2(bits)
  {
    PowSum(bits, 0);
    DivUnique(number, Value(Numbers(b), 256), low, Pow2(bits));
  }

  // ---------- round trip ----------

  /** Decoding the encoding of any bytes gives them back, even with padding, blanks, lower
      case or foreign characters scattered through it. */
  lemma RoundTrip(b: Bytes, s: string, noisy: string, decoded: Bytes)
    requires Encodes(s, b) && Indexes(noisy) == Indexes(s) && Decodes(decoded, noisy)
    ensures decoded == b
  {
    var pad := 5 * |s| - 8 * |b|;
    PowSum(pad, 0);
    DivUnique(Value(Indexes(s), 32), Value(Numbers(b), 256), 0, Pow2(pad));
    assert 5 * |s| % 8 == pad && |decoded| == |b|;
    NumbersAt(b);
    NumbersAt(decoded);
    ValueInjective(Numbers(decoded), Numbers(b));
    forall i | 0 <= i < |b| ensures decoded[i] == b[i] {
      assert Numbers(decoded)[i] == Numbers(b)[i];
    }
  }

  method EncodeDecode(b: Bytes) returns (s: string, decoded: Bytes)
    ensures |s| == (8 * |b| + 4) / 5 && decoded == b
  {
    s := Encode(b);
    decoded := Decode(s);
    RoundTrip(b, s, s, decoded);
  }
}
