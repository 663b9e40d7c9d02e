/**
 The UTF-8 and UTF-16 converters of ASEncoding, on a little-endian host.
 Bit fields are written with `/` and `%`: the fields that the code joins with
 `|` never overlap.
 */
module Encoding {
  import opened Stacks
  import opened Characters

  type unit = u: int | 0 <= u < 65536

  /** A Unicode scalar value: any code point that is not a surrogate. */
  type Scalar = c: int | 0 <= c <= 0x10FFFF && !(0xD800 <= c <= 0xDFFF)

  // ---------------------------------------------------------------------
  // The two encodings (section 3 of RFC 3629, section 2.1 of RFC 2781)
  // ---------------------------------------------------------------------

  function Utf8Of(c: Scalar): (r: seq<byte>)
    ensures 1 <= |r| <= 4
  {
    if c < 0x80 then [c]
    else if c < 0x800 then [0xC0 + c / 64, 0x80 + c % 64]
    else if c < 0x10000 then [0xE0 + c / 4096, 0x80 + c / 64 % 64, 0x80 + c % 64]
    else [0xF0 + c / 262144, 0x80 + c / 4096 % 64, 0x80 + c / 64 % 64, 0x80 + c % 64]
  }

  function UnitBytes(u: unit, isBigEndian: bool): (r: seq<byte>)
    ensures |r| == 2
  {
    if isBigEndian then [u / 256, u % 256] else [u % 256, u / 256]
  }

  function Utf16Of(c: Scalar, isBigEndian: bool): (r: seq<byte>)
    ensures |r| == if c < 0x10000 then 2 else 4
  {
    if c < 0x10000 then UnitBytes(c, isBigEndian)
    else UnitBytes(0xD800 + (c - 0x10000) / 1024, isBigEndian) + UnitBytes(0xDC00 + (c - 0x10000) % 1024, isBigEndian)
  }

  function Utf8(cs: seq<Scalar>): seq<byte>
  {
    if |cs| == 0 then [] else Utf8Of(cs[0]) + Utf8(cs[1..])
  }

  function Utf16(cs: seq<Scalar>, isBigEndian: bool): seq<byte>
  {
    if |cs| == 0 then [] else Utf16Of(cs[0], isBigEndian) + Utf16(cs[1..], isBigEndian)
  }

  lemma {:induction false} Utf8Concat(a: seq<Scalar>, b: seq<Scalar>)
    ensures Utf8(a + b) == Utf8(a) + Utf8(b)
  {
    if |a| == 0 {
      assert a + b == b;
    } else {
      assert (a + b)[1..] == a[1..] + b;
      Utf8Concat(a[1..], b);
      assert Utf8Of(a[0]) + (Utf8(a[1..]) + Utf8(b)) == Utf8Of(a[0]) + Utf8(a[1..]) + Utf8(b);
    }
  }

  datatype Phase = Start | SecondOf4Bytes | Penultimate | Final

  /** `swap16bit` */
  function Swap16(u: unit): unit
  {
    u % 256 * 256 + u / 256
  }

  /** A `utf16` stored through a pointer on a little-endian host. */
  function StoreUnit(u: unit): seq<byte>
  {
    [u % 256, u / 256]
  }

  // ---------------------------------------------------------------------
  // UTF-8 to UTF-16
  // ---------------------------------------------------------------------

  /** The converter between bytes: its state and the partial code point `nCur`. */
  datatype Decoder = Decoder(phase: Phase, nCur: int)

  predicate DecoderFits(d: Decoder)
  {
    0 <= d.nCur < 0x200000 &&
    match d.phase
    case Start => true
    case SecondOf4Bytes => d.nCur % 262144 == 0
    case Penultimate => d.nCur % 4096 == 0
    case Final => d.nCur % 64 == 0
  }

  type Decoding = d: Decoder | DecoderFits(d) witness Decoder(Start, 0)

  /** Six bits more fit under the bits already there. */
  lemma {:induction false} UpperBits(n: int, bits: int)
    requires 0 <= n < 0x200000 && n % 262144 == 0 && 0 <= bits < 64
    ensures n + bits * 4096 < 0x200000 && (n + bits * 4096) % 4096 == 0
  {
    assert n + bits * 4096 == (n / 262144 * 64 + bits) * 4096;
  }

  lemma {:induction false} MiddleBits(n: int, bits: int)
    requires 0 <= n < 0x200000 && n % 4096 == 0 && 0 <= bits < 64
    ensures n + bits * 64 < 0x200000 && (n + bits * 64) % 64 == 0
  {
    assert n + bits * 64 == (n / 4096 * 64 + bits) * 64;
  }

  function DecodeByte(d: Decoding, b: byte): Decoding
  {
    match d.phase
    case Start =>
      if b >= 0xF0 then Decoder(SecondOf4Bytes, b % 8 * 262144)
      else if b >= 0xE0 then Decoder(Penultimate, b % 32 * 4096)
      else if b >= 0xC0 then Decoder(Final, b % 64 * 64)
      else Decoder(Start, b)
    case SecondOf4Bytes =>
      UpperBits(d.nCur, b % 64);
      Decoder(Penultimate, d.nCur + b % 64 * 4096)
    case Penultimate =>
      MiddleBits(d.nCur, b % 64);
      Decoder(Final, d.nCur + b % 64 * 64)
    case Final => Decoder(Start, d.nCur + b % 64)
  }

  function EmitUnit(u: unit, isBigEndian: bool): seq<byte>
  {
    StoreUnit(if isBigEndian then Swap16(u) else u)
  }

  function EmitCodePoint(codePoint: int, isBigEndian: bool): seq<byte>
    requires 0 <= codePoint < 0x200000
  {
    if codePoint >= 0x10000 then
      EmitUnit((codePoint - 0x10000) / 1024 + 0xD800, isBigEndian)
      + EmitUnit((codePoint - 0x10000) % 1024 + 0xDC00, isBigEndian)
    else EmitUnit(codePoint, isBigEndian)
  }

  function ToUtf16(d: Decoding, text: seq<byte>, isBigEndian: bool): seq<byte>
    decreases |text|
  {
    if |text| == 0 then []
    else
      var d1 := DecodeByte(d, text[0]);
      (if d1.phase == Start then EmitCodePoint(d1.nCur, isBigEndian) else []) + ToUtf16(d1, text[1..], isBigEndian)
  }

  lemma {:induction false} EmitIsUnitBytes(u: unit, isBigEndian: bool)
    ensures EmitUnit(u, isBigEndian) == UnitBytes(u, isBigEndian)
  {
  }

  lemma {:induction false} EmitsScalar(c: Scalar, isBigEndian: bool)
    ensures EmitCodePoint(c, isBigEndian) == Utf16Of(c, isBigEndian)
  {
    if c >= 0x10000 {
      EmitIsUnitBytes((c - 0x10000) / 1024 + 0xD800, isBigEndian);
      EmitIsUnitBytes((c - 0x10000) % 1024 + 0xDC00, isBigEndian);
    } else {
      EmitIsUnitBytes(c, isBigEndian);
    }
  }

  lemma {:induction false} DecodesOne(d: Decoding, b: byte, rest: seq<byte>, isBigEndian: bool)
    ensures var d1 := DecodeByte(d, b);
            ToUtf16(d, [b] + rest, isBigEndian) ==
            (if d1.phase == Start then EmitCodePoint(d1.nCur, isBigEndian) else []) + ToUtf16(d1, rest, isBigEndian)
  {
    assert ([b] + rest)[1..] == rest;
  }

  /** One UTF-8 character becomes its UTF-16 form, surrogate pair included. */
  lemma {:induction false} DecodesScalar(d: Decoding, c: Scalar, rest: seq<byte>, isBigEndian: bool)
    requires d.phase == Start
    ensures ToUtf16(d, Utf8Of(c) + rest, isBigEndian) == Utf16Of(c, isBigEndian) + ToUtf16(Decoder(Start, c), rest, isBigEndian)
  {
    EmitsScalar(c, isBigEndian);
    DecodesLead(d, c);
    DecodesLeadThenRest(d, c, Utf8Of(c)[0], Utf8Of(c)[1..], rest, isBigEndian);
    assert [Utf8Of(c)[0]] + Utf8Of(c)[1..] == Utf8Of(c);
  }

  lemma {:induction false} DecodesLeadThenRest(d: Decoding, c: Scalar, lead: byte, more: seq<byte>, rest: seq<byte>, isBigEndian: bool)
    requires var d1 := DecodeByte(d, lead);
             if c < 0x80 then d1 == Decoder(Start, c) && more == [] else d1.phase != Start && Expects(d1, c, more)
    ensures ToUtf16(d, [lead] + more + rest, isBigEndian)
            == EmitCodePoint(c, isBigEndian) + ToUtf16(Decoder(Start, c), rest, isBigEndian)
  {
    Assoc([lead], more, rest);
    DecodesOne(d, lead, more + rest, isBigEndian);
    if c < 0x80 {
      assert more + rest == rest;
    } else {
      DecodesRest(DecodeByte(d, lead), c, more, rest, isBigEndian);
    }
  }

  /** The continuation bytes that a decoder still expects, and the scalar they complete. */
  predicate Expects(d: Decoding, c: Scalar, more: seq<byte>)
  {
    match d.phase
    case Start => false
    case Final => d.nCur + c % 64 == c && more == [0x80 + c % 64]
    case Penultimate => d.nCur + c % 4096 == c && more == [0x80 + c / 64 % 64, 0x80 + c % 64]
    case SecondOf4Bytes => d.nCur + c % 262144 == c && more == [0x80 + c / 4096 % 64, 0x80 + c / 64 % 64, 0x80 + c % 64]
  }

  /** Six bits at a time. */
  lemma {:induction false} SixBits(c: nat)
    ensures c % 262144 == c / 4096 % 64 * 4096 + c % 4096
    ensures c % 4096 == c / 64 % 64 * 64 + c % 64
  {
    LowDigits(c);
    HighDigits(c);
  }

  lemma {:induction false} LowDigits(c: nat)
    ensures c % 4096 == c / 64 % 64 * 64 + c % 64
  {
    var q, r := c / 64, c % 64;
    assert c == q / 64 * 4096 + (q % 64 * 64 + r);
  }

  lemma {:induction false} HighDigits(c: nat)
    ensures c % 262144 == c / 4096 % 64 * 4096 + c % 4096
  {
    var q, r := c / 4096, c % 4096;
    assert c == q / 64 * 262144 + (q % 64 * 4096 + r);
  }

  lemma {:induction false} ContinuationBits(x: nat)
    requires x < 64
    ensures (0x80 + x) % 64 == x
  {
  }

  lemma {:induction false} DecodesContinuation(d: Decoding, c: Scalar, more: seq<byte>)
    requires Expects(d, c, more)
    ensures |more| > 0
    ensures d.phase == Final ==> |more| == 1 && DecodeByte(d, more[0]) == Decoder(Start, c)
    ensures d.phase != Final ==> Expects(DecodeByte(d, more[0]), c, more[1..])
  {
    SixBits(c);
    match d.phase
    case Final => ContinuationBits(c % 64);
    case Penultimate => ContinuationBits(c / 64 % 64);
    case SecondOf4Bytes => ContinuationBits(c / 4096 % 64);
    case Start =>
  }

  lemma {:induction false} DecodesRest(d: Decoding, c: Scalar, more: seq<byte>, rest: seq<byte>, isBigEndian: bool)
    requires Expects(d, c, more)
    ensures ToUtf16(d, more + rest, isBigEndian) == EmitCodePoint(c, isBigEndian) + ToUtf16(Decoder(Start, c), rest, isBigEndian)
    decreases |more|
  {
    DecodesContinuation(d, c, more);
    assert more + rest == [more[0]] + (more[1..] + rest);
    DecodesOne(d, more[0], more[1..] + rest, isBigEndian);
    if d.phase == Final {
      assert more[1..] + rest == rest;
    } else {
      DecodesRest(DecodeByte(d, more[0]), c, more[1..], rest, isBigEndian);
    }
  }

  lemma {:induction false} LeadBits(x: nat)
    ensures x < 64 ==> (0xC0 + x) % 64 == x
    ensures x < 32 ==> (0xE0 + x) % 32 == x
    ensures x < 8 ==> (0xF0 + x) % 8 == x
  {
  }

  lemma {:induction false} DecodesLead(d: Decoding, c: Scalar)
    requires d.phase == Start
    ensures var d1 := DecodeByte(d, Utf8Of(c)[0]);
            if c < 0x80 then d1 == Decoder(Start, c) else d1.phase != Start && Expects(d1, c, Utf8Of(c)[1..])
  {
    if 0x80 <= c < 0x800 {
      LeadBits(c / 64);
      assert c == c / 64 * 64 + c % 64;
    } else if 0x800 <= c < 0x10000 {
      LeadBits(c / 4096);
      assert c == c / 4096 * 4096 + c % 4096;
    } else if 0x10000 <= c {
      LeadBits(c / 262144);
      assert c == c / 262144 * 262144 + c % 262144;
    }
  }

  lemma {:induction false} Utf8BecomesUtf16(d: Decoding, cs: seq<Scalar>, isBigEndian: bool)
    requires d.phase == Start
    ensures ToUtf16(d, Utf8(cs), isBigEndian) == Utf16(cs, isBigEndian)
    decreases |cs|
  {
    if |cs| > 0 {
      DecodesScalar(d, cs[0], Utf8(cs[1..]), isBigEndian);
      Utf8BecomesUtf16(Decoder(Start, cs[0]), cs[1..], isBigEndian);
    }
  }

  // ---------------------------------------------------------------------
  // UTF-16 to UTF-8
  // ---------------------------------------------------------------------

  function UnitAt(bytes: seq<byte>, i: nat, isBigEndian: bool): unit
    requires i + 2 <= |bytes|
  {
    if isBigEndian then (bytes[i] as int) * 256 + bytes[i + 1] else (bytes[i + 1] as int) * 256 + bytes[i]
  }

  predicate IsLead(u: unit)
  {
    0xD800 <= u <= 0xDBFF
  }

  /** How many bytes the converter takes when it starts a character. */
  function Width(bytes: seq<byte>, isBigEndian: bool): nat
    requires |bytes| >= 2
  {
    if IsLead(UnitAt(bytes, 0, isBigEndian)) then 4 else 2
  }

  /** The code point that `nCur16` holds once a character is read. */
  function CodePointAt(bytes: seq<byte>, isBigEndian: bool): (r: int)
    requires |bytes| >= 2 && Width(bytes, isBigEndian) <= |bytes|
    ensures 0 <= r < 0x110000
  {
    var u := UnitAt(bytes, 0, isBigEndian);
    if IsLead(u) then u % 1024 * 1024 + UnitAt(bytes, 2, isBigEndian) % 1024 + 0x10000 else u
  }

  /** Every character that starts before `limit` lies wholly in `bytes`. */
  predicate Readable(bytes: seq<byte>, limit: int, isBigEndian: bool)
    decreases |bytes|
  {
    limit <= 0 ||
    (|bytes| >= 2 && Width(bytes, isBigEndian) <= |bytes| &&
     Readable(bytes[Width(bytes, isBigEndian)..], limit - Width(bytes, isBigEndian), isBigEndian))
  }

  function LeadByte(nCur16: int): byte
    requires 0 <= nCur16 < 0x110000
  {
    if nCur16 < 0x80 then nCur16
    else if nCur16 < 0x800 then 0xC0 + nCur16 / 64
    else if nCur16 < 0x10000 then 0xE0 + nCur16 / 4096
    else 0xF0 + nCur16 / 262144
  }

  /** The state after the lead byte of a code point. */
  function PhaseAfter(nCur16: int): Phase
  {
    if nCur16 < 0x80 then Start else if nCur16 < 0x800 then Final else if nCur16 < 0x10000 then Penultimate else SecondOf4Bytes
  }

  function Rank(phase: Phase): nat
  {
    match phase case Start => 0 case Final => 1 case Penultimate => 2 case SecondOf4Bytes => 3
  }

  function NextPhase(phase: Phase): Phase
    requires phase != Start
  {
    match phase case SecondOf4Bytes => Penultimate case Penultimate => Final case Final => Start
  }

  /** The continuation byte written in a phase. */
  function Continuation(phase: Phase, nCur16: int): byte
    requires phase != Start && 0 <= nCur16
  {
    match phase
    case SecondOf4Bytes => 0x80 + nCur16 / 4096 % 64
    case Penultimate => 0x80 + nCur16 / 64 % 64
    case Final => 0x80 + nCur16 % 64
  }

  /** The bytes written and the state kept for the next block; `limit` input bytes remain. */
  function ToUtf8(phase: Phase, nCur16: int, bytes: seq<byte>, limit: int, isBigEndian: bool): (seq<byte>, Phase)
    requires Readable(bytes, limit, isBigEndian) && 0 <= nCur16 < 0x110000
    decreases |bytes|, Rank(phase)
  {
    if limit <= 0 then ([], phase)
    else if phase == Start then
      var w := Width(bytes, isBigEndian);
      var c := CodePointAt(bytes, isBigEndian);
      var (rest, last) := ToUtf8(PhaseAfter(c), c, bytes[w..], limit - w, isBigEndian);
      ([LeadByte(c)] + rest, last)
    else
      var (rest, last) := ToUtf8(NextPhase(phase), nCur16, bytes, limit, isBigEndian);
      ([Continuation(phase, nCur16)] + rest, last)
  }

  /** The bytes a code point still owes in a phase. */
  function Owed(phase: Phase, nCur16: int): (r: seq<byte>)
    requires 0 <= nCur16
    ensures |r| == Rank(phase)
    decreases Rank(phase)
  {
    if phase == Start then [] else [Continuation(phase, nCur16)] + Owed(NextPhase(phase), nCur16)
  }

  /** What is left of a character after its first byte. */
  function Trail(c: Scalar): seq<byte>
  {
    Utf8Of(c)[1..]
  }

  lemma {:induction false} OwedIsTrail(c: Scalar)
    ensures Utf8Of(c) == [LeadByte(c)] + Owed(PhaseAfter(c), c)
    ensures Trail(c) == Owed(PhaseAfter(c), c)
  {
    assert Owed(Final, c) == [Continuation(Final, c)];
    assert Owed(Penultimate, c) == [Continuation(Penultimate, c)] + Owed(Final, c);
    assert Owed(SecondOf4Bytes, c) == [Continuation(SecondOf4Bytes, c)] + Owed(Penultimate, c);
  }

  /** Owed bytes are written before the next character, if there is more input. */
  lemma {:induction false} PaysOwed(phase: Phase, nCur16: int, bytes: seq<byte>, limit: int, isBigEndian: bool)
    requires Readable(bytes, limit, isBigEndian) && 0 <= nCur16 < 0x110000 && limit > 0
    ensures var (rest, last) := ToUtf8(Start, nCur16, bytes, limit, isBigEndian);
            ToUtf8(phase, nCur16, bytes, limit, isBigEndian) == (Owed(phase, nCur16) + rest, last)
    decreases Rank(phase)
  {
    var rest := ToUtf8(Start, nCur16, bytes, limit, isBigEndian).0;
    if phase == Start {
      assert [] + rest == rest;
    } else {
      PaysOwed(NextPhase(phase), nCur16, bytes, limit, isBigEndian);
      assert [Continuation(phase, nCur16)] + (Owed(NextPhase(phase), nCur16) + rest) == Owed(phase, nCur16) + rest;
    }
  }

  lemma {:induction false} ReadsUnit(u: unit, before: seq<byte>, rest: seq<byte>, isBigEndian: bool)
    ensures var bytes := before + UnitBytes(u, isBigEndian) + rest; UnitAt(bytes, |before|, isBigEndian) == u
  {
    var bytes := before + UnitBytes(u, isBigEndian) + rest;
    assert bytes[|before|] == UnitBytes(u, isBigEndian)[0] && bytes[|before| + 1] == UnitBytes(u, isBigEndian)[1];
  }

  lemma {:induction false} SurrogateBits(k: nat)
    requires k < 1024
    ensures (0xD800 + k) % 1024 == k && (0xDC00 + k) % 1024 == k
  {
  }

  lemma {:induction false} ReadsScalar(c: Scalar, rest: seq<byte>, isBigEndian: bool)
    ensures var bytes := Utf16Of(c, isBigEndian) + rest;
            Width(bytes, isBigEndian) == |Utf16Of(c, isBigEndian)| && CodePointAt(bytes, isBigEndian) == c &&
            bytes[Width(bytes, isBigEndian)..] == rest
  {
    var bytes := Utf16Of(c, isBigEndian) + rest;
    if c >= 0x10000 {
      ReadsPair((c - 0x10000) / 1024, (c - 0x10000) % 1024, rest, isBigEndian);
    } else {
      ReadsUnit(c, [], rest, isBigEndian);
      assert bytes == [] + UnitBytes(c, isBigEndian) + rest;
    }
  }

  lemma {:induction false} ReadsPair(high: nat, low: nat, rest: seq<byte>, isBigEndian: bool)
    requires high < 1024 && low < 1024
    ensures var bytes := UnitBytes(0xD800 + high, isBigEndian) + UnitBytes(0xDC00 + low, isBigEndian) + rest;
            Width(bytes, isBigEndian) == 4 && CodePointAt(bytes, isBigEndian) == high * 1024 + low + 0x10000
  {
    var a, b := UnitBytes(0xD800 + high, isBigEndian), UnitBytes(0xDC00 + low, isBigEndian);
    var bytes := a + b + rest;
    assert bytes == [] + a + (b + rest);
    ReadsUnit(0xD800 + high, [], b + rest, isBigEndian);
    ReadsUnit(0xDC00 + low, a, rest, isBigEndian);
    SurrogateBits(high);
    SurrogateBits(low);
  }

  lemma {:induction false} Utf16Readable(cs: seq<Scalar>, rest: seq<byte>, extra: int, isBigEndian: bool)
    requires Readable(rest, extra, isBigEndian)
    ensures Readable(Utf16(cs, isBigEndian) + rest, |Utf16(cs, isBigEndian)| + extra, isBigEndian)
    decreases |cs|
  {
    var more := Utf16(cs, isBigEndian) + rest;
    if |cs| == 0 {
      assert more == rest;
    } else {
      var tail := Utf16(cs[1..], isBigEndian) + rest;
      assert more == Utf16Of(cs[0], isBigEndian) + tail;
      ReadsScalar(cs[0], tail, isBigEndian);
      Utf16Readable(cs[1..], rest, extra, isBigEndian);
    }
  }

  /** A place between two characters of the UTF-16 form. */
  predicate BetweenCharacters(cs: seq<Scalar>, n: nat, isBigEndian: bool)
  {
    n == 0 || (|cs| > 0 && n >= |Utf16Of(cs[0], isBigEndian)| &&
               BetweenCharacters(cs[1..], n - |Utf16Of(cs[0], isBigEndian)|, isBigEndian))
  }

  /**
   Given the first `n` bytes of a text, the converter reads no byte past them if and
   only if they end between two characters: not in the middle of a unit, and not
   between the units of a surrogate pair.
   */
  lemma {:induction false} ReadsOnlyItsInput(cs: seq<Scalar>, n: nat, isBigEndian: bool)
    requires n <= |Utf16(cs, isBigEndian)|
    ensures Readable(Utf16(cs, isBigEndian)[..n], n, isBigEndian) <==> BetweenCharacters(cs, n, isBigEndian)
    decreases |cs|
  {
    if n > 0 {
      var first, rest := Utf16Of(cs[0], isBigEndian), Utf16(cs[1..], isBigEndian);
      var w := |first|;
      var bytes := Utf16(cs, isBigEndian)[..n];
      if n >= w {
        assert bytes == first + rest[..n - w];
        ReadsScalar(cs[0], rest[..n - w], isBigEndian);
        ReadsOnlyItsInput(cs[1..], n - w, isBigEndian);
      } else {
        CutInside(cs[0], n, isBigEndian);
        assert bytes == first[..n];
      }
    }
  }

  lemma {:induction false} CutInside(c: Scalar, n: nat, isBigEndian: bool)
    requires 0 < n < |Utf16Of(c, isBigEndian)|
    ensures !Readable(Utf16Of(c, isBigEndian)[..n], n, isBigEndian)
  {
    var whole := Utf16Of(c, isBigEndian);
    ReadsScalar(c, [], isBigEndian);
    assert whole + [] == whole;
    assert n >= 2 ==> UnitAt(whole[..n], 0, isBigEndian) == UnitAt(whole, 0, isBigEndian);
  }

  /** The text without the continuation bytes of its last character. */
  function Cut(cs: seq<Scalar>): seq<byte>
  {
    if |cs| == 0 then [] else Utf8(Pop(cs)) + [LeadByte(Top(cs))]
  }

  function LastPhase(cs: seq<Scalar>): Phase
  {
    if |cs| == 0 then Start else PhaseAfter(Top(cs))
  }

  /** A character is converted whole when more input follows it. */
  lemma {:induction false} EncodesScalar(c: Scalar, nCur16: int, rest: seq<byte>, extra: int, isBigEndian: bool)
    requires extra > 0 && Readable(rest, extra, isBigEndian) && 0 <= nCur16 < 0x110000
    requires Readable(Utf16Of(c, isBigEndian) + rest, |Utf16Of(c, isBigEndian)| + extra, isBigEndian)
    ensures var (more, last) := ToUtf8(Start, 0, rest, extra, isBigEndian);
            ToUtf8(Start, nCur16, Utf16Of(c, isBigEndian) + rest, |Utf16Of(c, isBigEndian)| + extra, isBigEndian)
            == (Utf8Of(c) + more, last)
  {
    ReadsScalar(c, rest, isBigEndian);
    OwedIsTrail(c);
    PaysOwed(PhaseAfter(c), c, rest, extra, isBigEndian);
    StartForgets(c, 0, rest, extra, isBigEndian);
    var more := ToUtf8(Start, 0, rest, extra, isBigEndian).0;
    assert [LeadByte(c)] + (Owed(PhaseAfter(c), c) + more) == Utf8Of(c) + more;
  }

  lemma {:induction false} StartForgets(x: int, y: int, bytes: seq<byte>, limit: int, isBigEndian: bool)
    requires Readable(bytes, limit, isBigEndian) && 0 <= x < 0x110000 && 0 <= y < 0x110000
    ensures ToUtf8(Start, x, bytes, limit, isBigEndian) == ToUtf8(Start, y, bytes, limit, isBigEndian)
  {
  }

  /** At the end of the input only the first byte of a character is written. */
  lemma {:induction false} CutsScalar(c: Scalar, nCur16: int, isBigEndian: bool)
    requires 0 <= nCur16 < 0x110000
    requires Readable(Utf16Of(c, isBigEndian), |Utf16Of(c, isBigEndian)|, isBigEndian)
    ensures ToUtf8(Start, nCur16, Utf16Of(c, isBigEndian), |Utf16Of(c, isBigEndian)|, isBigEndian)
            == ([LeadByte(c)], PhaseAfter(c))
  {
    var bytes := Utf16Of(c, isBigEndian);
    assert bytes + [] == bytes;
    ReadsScalar(c, [], isBigEndian);
    assert ToUtf8(PhaseAfter(c), c, [], 0, isBigEndian) == ([], PhaseAfter(c));
    assert [LeadByte(c)] + [] == [LeadByte(c)];
  }

  /** What the converter makes of a whole text: everything but the tail of its last character. */
  lemma {:induction false} ConvertsCut(cs: seq<Scalar>, nCur16: int, isBigEndian: bool)
    requires 0 <= nCur16 < 0x110000
    ensures var bytes := Utf16(cs, isBigEndian);
            Readable(bytes, |bytes|, isBigEndian) &&
            ToUtf8(Start, nCur16, bytes, |bytes|, isBigEndian) == (Cut(cs), LastPhase(cs))
    decreases |cs|
  {
    var bytes := Utf16(cs, isBigEndian);
    assert bytes + [] == bytes;
    Utf16Readable(cs, [], 0, isBigEndian);
    if |cs| == 1 {
      assert cs == [cs[0]];
      ConvertsLast(cs[0], nCur16, isBigEndian);
    } else if |cs| > 1 {
      var rest := Utf16(cs[1..], isBigEndian);
      ConvertsCut(cs[1..], 0, isBigEndian);
      EncodesScalar(cs[0], nCur16, rest, |rest|, isBigEndian);
      CutStep(cs);
    }
  }

  lemma {:induction false} ConvertsLast(c: Scalar, nCur16: int, isBigEndian: bool)
    requires 0 <= nCur16 < 0x110000
    ensures var bytes := Utf16([c], isBigEndian);
            Readable(bytes, |bytes|, isBigEndian) &&
            ToUtf8(Start, nCur16, bytes, |bytes|, isBigEndian) == (Cut([c]), LastPhase([c]))
  {
    var bytes := Utf16Of(c, isBigEndian);
    assert [c][1..] == [] && Pop([c]) == [];
    assert bytes + [] == bytes;
    assert Utf16([c], isBigEndian) == bytes;
    ReadsScalar(c, [], isBigEndian);
    CutsScalar(c, nCur16, isBigEndian);
    assert Cut([c]) == [] + [LeadByte(c)] == [LeadByte(c)];
  }

  lemma {:induction false} CutStep(cs: seq<Scalar>)
    requires |cs| > 1
    ensures Cut(cs) == Utf8Of(cs[0]) + Cut(cs[1..])
  {
    assert Pop(cs)[1..] == Pop(cs[1..]);
    assert Utf8(Pop(cs)) == Utf8Of(cs[0]) + Utf8(Pop(cs[1..]));
    assert Top(cs) == Top(cs[1..]);
  }

  lemma {:induction false} Utf8One(c: Scalar)
    ensures Utf8([c]) == Utf8Of(c)
  {
    assert [c][1..] == [] && Utf8Of(c) + [] == Utf8Of(c);
  }

  lemma {:induction false} CutIsPrefix(cs: seq<Scalar>)
    ensures |cs| == 0 ==> Cut(cs) == Utf8(cs)
    ensures |cs| > 0 ==> Utf8(cs) == Cut(cs) + Trail(Top(cs))
  {
    if |cs| > 0 {
      Utf8Snoc(Pop(cs), Top(cs));
      assert Pop(cs) + [Top(cs)] == cs;
      LeadAndTrail(Top(cs));
      Assoc(Utf8(Pop(cs)), [LeadByte(Top(cs))], Trail(Top(cs)));
    }
  }

  lemma {:induction false} Utf8Snoc(cs: seq<Scalar>, c: Scalar)
    ensures Utf8(cs + [c]) == Utf8(cs) + Utf8Of(c)
  {
    Utf8Concat(cs, [c]);
    Utf8One(c);
  }

  lemma {:induction false} Assoc<T>(a: seq<T>, b: seq<T>, c: seq<T>)
    ensures a + b + c == a + (b + c)
  {
  }

  lemma {:induction false} LeadAndTrail(c: Scalar)
    ensures Utf8Of(c) == [LeadByte(c)] + Trail(c) && |Trail(c)| == Rank(PhaseAfter(c))
  {
    OwedIsTrail(c);
  }

  /**
   Round trip: converting to UTF-16 and back restores a text, in either byte
   order, if and only if it is empty or ends in an ASCII character.
   */
  lemma {:induction false} RoundTrip(cs: seq<Scalar>, isBigEndian: bool)
    ensures var utf16 := ToUtf16(Decoder(Start, 0), Utf8(cs), isBigEndian);
            Readable(utf16, |utf16|, isBigEndian) &&
            (ToUtf8(Start, 0, utf16, |utf16|, isBigEndian).0 == Utf8(cs) <==> |cs| == 0 || Top(Utf8(cs)) < 0x80)
  {
    Utf8BecomesUtf16(Decoder(Start, 0), cs, isBigEndian);
    ConvertsCut(cs, 0, isBigEndian);
    CutIsPrefix(cs);
    if |cs| > 0 {
      assert Top(Utf8(cs)) == if |Trail(Top(cs))| == 0 then LeadByte(Top(cs)) else Top(Trail(Top(cs)));
      assert |Trail(Top(cs))| == 0 <==> Top(cs) < 0x80;
    }
  }

  /** One more input byte, taken from the terminator, completes the text and adds a zero byte. */
  lemma {:induction false} TerminatorFlushes(cs: seq<Scalar>, nCur16: int, isBigEndian: bool)
    requires 0 <= nCur16 < 0x110000
    ensures var bytes := Utf16(cs, isBigEndian);
            Readable(bytes + [0, 0], |bytes| + 1, isBigEndian) &&
            ToUtf8(Start, nCur16, bytes + [0, 0], |bytes| + 1, isBigEndian) == (Utf8(cs) + [0], Start)
    decreases |cs|
  {
    var bytes := Utf16(cs, isBigEndian);
    TerminatorConverts(nCur16, isBigEndian);
    Utf16Readable(cs, [0, 0], 1, isBigEndian);
    if |cs| == 0 {
      assert bytes + [0, 0] == [0, 0];
      assert Utf8(cs) + [0] == [0];
    } else {
      var tail := Utf16(cs[1..], isBigEndian);
      Assoc(Utf16Of(cs[0], isBigEndian), tail, [0, 0]);
      TerminatorFlushes(cs[1..], 0, isBigEndian);
      EncodesScalar(cs[0], nCur16, tail + [0, 0], |tail| + 1, isBigEndian);
      Assoc(Utf8Of(cs[0]), Utf8(cs[1..]), [0]);
    }
  }

  lemma {:induction false} TerminatorConverts(nCur16: int, isBigEndian: bool)
    requires 0 <= nCur16 < 0x110000
    ensures Readable([0, 0], 1, isBigEndian) && ToUtf8(Start, nCur16, [0, 0], 1, isBigEndian) == ([0], Start)
  {
    assert UnitAt([0, 0], 0, isBigEndian) == 0;
    assert ToUtf8(Start, 0, [0, 0][2..], -1, isBigEndian) == ([], Start);
    assert [LeadByte(0)] + [] == [0];
  }

  // ---------------------------------------------------------------------
  // Block by block
  // ---------------------------------------------------------------------

  function Flatten<T>(blocks: seq<seq<T>>): seq<T>
  {
    if |blocks| == 0 then [] else blocks[0] + Flatten(blocks[1..])
  }

  /** The blocks of a file; the state is kept between them, but not the partial code point. */
  function ToUtf8Blocks(phase: Phase, blocks: seq<seq<byte>>, isBigEndian: bool): seq<byte>
    requires forall b :: b in blocks ==> Readable(b, |b|, isBigEndian)
    decreases |blocks|
  {
    if |blocks| == 0 then []
    else
      var (out, last) := ToUtf8(phase, 0, blocks[0], |blocks[0]|, isBigEndian);
      out + ToUtf8Blocks(last, blocks[1..], isBigEndian)
  }

  /** Each block in UTF-16. */
  function Encoded(blocks: seq<seq<Scalar>>, isBigEndian: bool): (r: seq<seq<byte>>)
    ensures |r| == |blocks|
    ensures forall b :: b in r ==> Readable(b, |b|, isBigEndian)
  {
    if |blocks| == 0 then []
    else
      ConvertsCut(blocks[0], 0, isBigEndian);
      [Utf16(blocks[0], isBigEndian)] + Encoded(blocks[1..], isBigEndian)
  }

  /** What `utf16ToUtf8` makes of the UTF-16 form of a text given in one block. */
  function Converted(cs: seq<Scalar>, isBigEndian: bool): seq<byte>
  {
    ConvertsCut(cs, 0, isBigEndian);
    ToUtf8(Start, 0, Utf16(cs, isBigEndian), |Utf16(cs, isBigEndian)|, isBigEndian).0
  }

  /** The same with one byte of the terminator added to the input. */
  function ConvertedWithTerminator(cs: seq<Scalar>, isBigEndian: bool): seq<byte>
  {
    TerminatorFlushes(cs, 0, isBigEndian);
    ToUtf8(Start, 0, Utf16(cs, isBigEndian) + [0, 0], |Utf16(cs, isBigEndian)| + 1, isBigEndian).0
  }

  /** The continuation bytes of `c` are what the converter writes once it has lost the code point. */
  predicate TrailIsLost(c: Scalar)
  {
    Trail(c) == Owed(PhaseAfter(c), 0)
  }

  /** Each block but the last ends in a character with an all-zero trail, such as an ASCII one. */
  predicate CleanCuts(blocks: seq<seq<Scalar>>)
    requires forall b :: b in blocks ==> |b| > 0
  {
    forall i :: 0 <= i < |blocks| - 1 ==> TrailIsLost(Top(blocks[i]))
  }

  lemma {:induction false} AsciiIsLost(c: Scalar)
    ensures c < 0x80 ==> TrailIsLost(c)
    ensures TrailIsLost(c) <==> forall b :: b in Trail(c) ==> b == 0x80
  {
    OwedIsTrail(c);
    assert Owed(Final, 0) == [0x80];
    assert Owed(Penultimate, 0) == [0x80] + Owed(Final, 0);
    assert Owed(SecondOf4Bytes, 0) == [0x80] + Owed(Penultimate, 0);
    var t, o := Trail(c), Owed(PhaseAfter(c), 0);
    assert forall i :: 0 <= i < |o| ==> o[i] == 0x80;
    assert t == o ==> forall b :: b in t ==> b == 0x80;
    if forall b :: b in t ==> b == 0x80 {
      assert forall i :: 0 <= i < |t| ==> t[i] in t;
      assert t == o;
    }
  }

  lemma {:induction false} BlockOutput(phase: Phase, cs: seq<Scalar>, isBigEndian: bool)
    requires |cs| > 0
    ensures var bytes := Utf16(cs, isBigEndian);
            Readable(bytes, |bytes|, isBigEndian) &&
            ToUtf8(phase, 0, bytes, |bytes|, isBigEndian) == (Owed(phase, 0) + Cut(cs), LastPhase(cs))
  {
    ConvertsCut(cs, 0, isBigEndian);
    var bytes := Utf16(cs, isBigEndian);
    assert |bytes| > 0;
    PaysOwed(phase, 0, bytes, |bytes|, isBigEndian);
  }

  lemma {:induction false} CutConcat(a: seq<Scalar>, b: seq<Scalar>)
    requires |b| > 0
    ensures Cut(a + b) == Utf8(a) + Cut(b)
  {
    assert Pop(a + b) == a + Pop(b) && Top(a + b) == Top(b);
    Utf8Concat(a, Pop(b));
    Assoc(Utf8(a), Utf8(Pop(b)), [LeadByte(Top(b))]);
  }

  lemma {:induction false} SplitEquality<T>(a: seq<T>, b: seq<T>, mid: seq<T>, x: seq<T>, y: seq<T>)
    requires |a| == |b|
    ensures a + mid + x == b + mid + y <==> a == b && x == y
  {
    if a + mid + x == b + mid + y {
      assert (a + mid + x)[..|a|] == a && (b + mid + y)[..|a|] == b;
      assert (a + mid + x)[|a + mid|..] == x && (b + mid + y)[|a + mid|..] == y;
    }
  }

  lemma {:induction false} BlocksOwing(owed: seq<byte>, phase: Phase, blocks: seq<seq<Scalar>>, isBigEndian: bool)
    requires |owed| == Rank(phase) && |blocks| > 0 && forall b :: b in blocks ==> |b| > 0
    ensures ToUtf8Blocks(phase, Encoded(blocks, isBigEndian), isBigEndian) == owed + Cut(Flatten(blocks))
            <==> owed == Owed(phase, 0) && CleanCuts(blocks)
    decreases |blocks|
  {
    var b, rest := blocks[0], blocks[1..];
    var encoded := Encoded(blocks, isBigEndian);
    assert encoded[1..] == Encoded(rest, isBigEndian);
    BlockOutput(phase, b, isBigEndian);
    if |rest| == 0 {
      assert ToUtf8Blocks(LastPhase(b), encoded[1..], isBigEndian) == [];
      assert Flatten(blocks) == b + [] == b;
      SplitEquality(Owed(phase, 0), owed, Cut(b), [], []);
      assert owed + Cut(b) + [] == owed + Cut(b);
    } else {
      LeadAndTrail(Top(b));
      BlocksOwing(Trail(Top(b)), LastPhase(b), rest, isBigEndian);
      var tail := Flatten(rest);
      assert |tail| > 0 by { assert rest[0] in rest; }
      CutConcat(b, tail);
      CutIsPrefix(b);
      var more := ToUtf8Blocks(LastPhase(b), Encoded(rest, isBigEndian), isBigEndian);
      SplitEquality(Owed(phase, 0), owed, Cut(b), more, Trail(Top(b)) + Cut(tail));
      Assoc(Cut(b), Trail(Top(b)), Cut(tail));
      Assoc(owed, Cut(b), Trail(Top(b)) + Cut(tail));
      CleanStep(blocks);
    }
  }

  lemma {:induction false} CleanStep(blocks: seq<seq<Scalar>>)
    requires |blocks| > 1 && forall b :: b in blocks ==> |b| > 0
    ensures CleanCuts(blocks) <==> TrailIsLost(Top(blocks[0])) && CleanCuts(blocks[1..])
  {
    var rest := blocks[1..];
    assert forall i :: 0 <= i < |rest| ==> rest[i] == blocks[i + 1];
    if TrailIsLost(Top(blocks[0])) && CleanCuts(rest) {
      forall i | 0 <= i < |blocks| - 1 ensures TrailIsLost(Top(blocks[i])) {
        if i > 0 {
          assert rest[i - 1] == blocks[i];
        }
      }
    }
  }

  /**
   Converting a file block by block gives what converting it whole gives, if and
   only if every block but the last ends in a character whose continuation bytes
   are all 0x80; a block that ends in an ASCII character is the usual case.
   */
  lemma {:induction false} BlocksAgree(blocks: seq<seq<Scalar>>, isBigEndian: bool)
    requires |blocks| > 0 && forall b :: b in blocks ==> |b| > 0
    ensures ToUtf8Blocks(Start, Encoded(blocks, isBigEndian), isBigEndian) == Converted(Flatten(blocks), isBigEndian)
            <==> CleanCuts(blocks)
  {
    ConvertsCut(Flatten(blocks), 0, isBigEndian);
    BlocksOwing([], Start, blocks, isBigEndian);
    assert [] + Cut(Flatten(blocks)) == Cut(Flatten(blocks));
  }

  // ---------------------------------------------------------------------
  // The length functions
  // ---------------------------------------------------------------------

  function CharLength(b: byte): nat
  {
    if b < 0x80 then 1 else if b < 0xE0 then 2 else if b < 0xF0 then 3 else 4
  }

  /** The UTF-16 units counted for a UTF-8 text. */
  function UnitCount(text: seq<byte>): nat
    decreases |text|
  {
    if |text| == 0 then 0
    else
      var w := CharLength(text[0]);
      (if w == 4 then 2 else 1) + UnitCount(if w <= |text| then text[w..] else [])
  }

  lemma {:induction false} Utf16LengthIsExact(cs: seq<Scalar>, isBigEndian: bool)
    ensures 2 * UnitCount(Utf8(cs)) == |Utf16(cs, isBigEndian)|
    decreases |cs|
  {
    if |cs| > 0 {
      assert CharLength(Utf8Of(cs[0])[0]) == |Utf8Of(cs[0])|;
      assert Utf8(cs)[|Utf8Of(cs[0])|..] == Utf8(cs[1..]);
      Utf16LengthIsExact(cs[1..], isBigEndian);
    }
  }

  const SIZE_RANGE: int := 0x1_0000_0000_0000_0000

  /** A unit as the code compares it: a native `short` is widened with its sign. */
  function Widened(bytes: seq<byte>, isBigEndian: bool): nat
    requires |bytes| >= 2
  {
    var u := UnitAt(bytes, 0, isBigEndian);
    if isBigEndian || u < 32768 then u else SIZE_RANGE - 65536 + u
  }

  /** The UTF-8 bytes counted for a UTF-16 text. */
  function ByteCount(bytes: seq<byte>, isBigEndian: bool): nat
    decreases |bytes|
  {
    if |bytes| < 2 || UnitAt(bytes, 0, isBigEndian) == 0 then 0
    else
      var u := Widened(bytes, isBigEndian);
      if u < 0x80 then 1 + ByteCount(bytes[2..], isBigEndian)
      else if u < 0x800 then 2 + ByteCount(bytes[2..], isBigEndian)
      else if 0xD800 <= u <= 0xDFFF then 4 + ByteCount(if |bytes| >= 4 then bytes[4..] else [], isBigEndian)
      else 3 + ByteCount(bytes[2..], isBigEndian)
  }

  /** How many characters need a surrogate pair. */
  function Pairs(cs: seq<Scalar>): nat
  {
    if |cs| == 0 then 0 else (if cs[0] >= 0x10000 then 1 else 0) + Pairs(cs[1..])
  }

  lemma {:induction false} CountsUnit(u: unit, rest: seq<byte>, isBigEndian: bool)
    requires u != 0
    ensures var bytes := UnitBytes(u, isBigEndian) + rest;
            Widened(bytes, isBigEndian) == (if isBigEndian || u < 32768 then u else SIZE_RANGE - 65536 + u) &&
            UnitAt(bytes, 0, isBigEndian) != 0 && bytes[2..] == rest
  {
    ReadsUnit(u, [], rest, isBigEndian);
    assert [] + UnitBytes(u, isBigEndian) + rest == UnitBytes(u, isBigEndian) + rest;
  }

  lemma {:induction false} CountsScalar(c: Scalar, rest: seq<byte>, isBigEndian: bool)
    requires c != 0
    ensures ByteCount(Utf16Of(c, isBigEndian) + rest, isBigEndian)
            == |Utf8Of(c)| + (if c >= 0x10000 && !isBigEndian then 2 else 0) + ByteCount(rest, isBigEndian)
  {
    if c < 0x10000 {
      CountsUnit(c, rest, isBigEndian);
    } else {
      CountsPair(0xD800 + (c - 0x10000) / 1024, 0xDC00 + (c - 0x10000) % 1024, rest, isBigEndian);
    }
  }

  lemma {:induction false} CountsPair(lead: unit, trail: unit, rest: seq<byte>, isBigEndian: bool)
    requires 0xD800 <= lead <= 0xDBFF && 0xDC00 <= trail <= 0xDFFF
    ensures ByteCount(UnitBytes(lead, isBigEndian) + UnitBytes(trail, isBigEndian) + rest, isBigEndian)
            == (if isBigEndian then 4 else 6) + ByteCount(rest, isBigEndian)
  {
    var a, b := UnitBytes(lead, isBigEndian), UnitBytes(trail, isBigEndian);
    Assoc(a, b, rest);
    CountsUnit(lead, b + rest, isBigEndian);
    CountsUnit(trail, rest, isBigEndian);
    assert (a + (b + rest))[4..] == (b + rest)[2..];
  }

  /** The size computed for a little-endian text is two bytes too large for every surrogate pair. */
  lemma {:induction false} Utf8LengthOf(cs: seq<Scalar>, isBigEndian: bool)
    requires 0 !in cs
    ensures ByteCount(Utf16(cs, isBigEndian), isBigEndian) == |Utf8(cs)| + (if isBigEndian then 0 else 2 * Pairs(cs))
    decreases |cs|
  {
    if |cs| > 0 {
      assert cs[0] in cs;
      CountsScalar(cs[0], Utf16(cs[1..], isBigEndian), isBigEndian);
      Utf8LengthOf(cs[1..], isBigEndian);
    }
  }

  /** The bytes that the size computed for a text is too large by. */
  function Surplus(cs: seq<Scalar>, isBigEndian: bool): nat
  {
    if isBigEndian then 0 else 2 * Pairs(cs)
  }

  /**
   A text converted in one block fits the buffer sized with `utf8LengthFromUtf16`, and
   fills it exactly when it is empty, or ends in ASCII and has no surplus.
   */
  lemma {:induction false} BlockSizes(cs: seq<Scalar>, isBigEndian: bool)
    requires 0 !in cs
    ensures var size, written := ByteCount(Utf16(cs, isBigEndian), isBigEndian), |Converted(cs, isBigEndian)|;
            written <= size &&
            (written == size <==> |cs| == 0 || (Top(cs) < 0x80 && (isBigEndian || Pairs(cs) == 0)))
  {
    ConvertsCut(cs, 0, isBigEndian);
    Utf8LengthOf(cs, isBigEndian);
    CutIsPrefix(cs);
    if |cs| > 0 {
      LeadAndTrail(Top(cs));
    }
  }

  /** The bytes written for each block of a file, each converted from the state the one before left. */
  function Written(phase: Phase, blocks: seq<seq<byte>>, isBigEndian: bool): (r: seq<nat>)
    requires forall b :: b in blocks ==> Readable(b, |b|, isBigEndian)
    ensures |r| == |blocks|
    decreases |blocks|
  {
    if |blocks| == 0 then []
    else
      var (out, last) := ToUtf8(phase, 0, blocks[0], |blocks[0]|, isBigEndian);
      [|out|] + Written(last, blocks[1..], isBigEndian)
  }

  predicate TextBlocks(blocks: seq<seq<Scalar>>)
  {
    forall i :: 0 <= i < |blocks| ==> |blocks[i]| > 0 && 0 !in blocks[i]
  }

  /** The continuation bytes that the block before block `i` leaves to it. */
  function LeftTo(blocks: seq<seq<Scalar>>, i: nat): nat
    requires i < |blocks| && TextBlocks(blocks)
  {
    if i == 0 then 0 else |Trail(Top(blocks[i - 1]))|
  }

  /** The bytes that its size leaves free in block `i`: those it owes itself, and the surplus. */
  function Room(blocks: seq<seq<Scalar>>, i: nat, isBigEndian: bool): nat
    requires i < |blocks| && TextBlocks(blocks)
  {
    |Trail(Top(blocks[i]))| + Surplus(blocks[i], isBigEndian)
  }

  lemma {:induction false} WrittenStep(phase: Phase, blocks: seq<seq<Scalar>>, isBigEndian: bool)
    requires |blocks| > 0 && |blocks[0]| > 0
    ensures Written(phase, Encoded(blocks, isBigEndian), isBigEndian) ==
            [Rank(phase) + |Cut(blocks[0])|] + Written(LastPhase(blocks[0]), Encoded(blocks[1..], isBigEndian), isBigEndian)
  {
    BlockOutput(phase, blocks[0], isBigEndian);
    assert Encoded(blocks, isBigEndian)[1..] == Encoded(blocks[1..], isBigEndian);
  }

  lemma {:induction false} WrittenAt(phase: Phase, blocks: seq<seq<Scalar>>, i: nat, isBigEndian: bool)
    requires i < |blocks| && forall k :: 0 <= k <= i ==> |blocks[k]| > 0
    ensures Written(phase, Encoded(blocks, isBigEndian), isBigEndian)[i] ==
            (if i == 0 then Rank(phase) else |Trail(Top(blocks[i - 1]))|) + |Cut(blocks[i])|
    decreases i
  {
    WrittenStep(phase, blocks, isBigEndian);
    if i > 0 {
      WrittenAt(LastPhase(blocks[0]), blocks[1..], i - 1, isBigEndian);
      LeadAndTrail(Top(blocks[0]));
    }
  }

  lemma {:induction false} SizeOfBlock(cs: seq<Scalar>, isBigEndian: bool)
    requires |cs| > 0 && 0 !in cs
    ensures ByteCount(Utf16(cs, isBigEndian), isBigEndian) == |Cut(cs)| + |Trail(Top(cs))| + Surplus(cs, isBigEndian)
  {
    Utf8LengthOf(cs, isBigEndian);
    CutIsPrefix(cs);
  }

  /** A block converted from any state: what it is left against what it leaves. */
  lemma {:induction false} BlockFromAnyState(phase: Phase, cs: seq<Scalar>, isBigEndian: bool)
    requires |cs| > 0 && 0 !in cs
    ensures var bytes := Utf16(cs, isBigEndian);
            Readable(bytes, |bytes|, isBigEndian) &&
            (|ToUtf8(phase, 0, bytes, |bytes|, isBigEndian).0| <= ByteCount(bytes, isBigEndian) <==>
             Rank(phase) <= |Trail(Top(cs))| + Surplus(cs, isBigEndian))
  {
    BlockOutput(phase, cs, isBigEndian);
    SizeOfBlock(cs, isBigEndian);
  }

  /**
   Over a file in blocks, a block fits the buffer sized for it if and only if it is
   left no more continuation bytes than it leaves itself, two more allowed for each
   surrogate pair of a little-endian text; and it fills the buffer, as `readFile`
   asserts, if and only if these numbers are equal.
   */
  lemma {:induction false} BlockFitsItsBuffer(blocks: seq<seq<Scalar>>, i: nat, isBigEndian: bool)
    requires TextBlocks(blocks) && i < |blocks|
    ensures var size := ByteCount(Utf16(blocks[i], isBigEndian), isBigEndian);
            var written := Written(Start, Encoded(blocks, isBigEndian), isBigEndian)[i];
            (written <= size <==> LeftTo(blocks, i) <= Room(blocks, i, isBigEndian)) &&
            (written == size <==> LeftTo(blocks, i) == Room(blocks, i, isBigEndian))
  {
    WrittenAt(Start, blocks, i, isBigEndian);
    SizeOfBlock(blocks[i], isBigEndian);
  }

  /** A block that ends in U+00E9 leaves one byte too many to a block that ends in ASCII and has no surplus. */
  lemma {:induction false} OwedByteDoesNotFit(blocks: seq<seq<Scalar>>, isBigEndian: bool)
    requires TextBlocks(blocks) && |blocks| == 2 && |blocks[0]| > 0 && |blocks[1]| > 0
    requires Top(blocks[0]) == 0xE9 && Top(blocks[1]) < 0x80 && Surplus(blocks[1], isBigEndian) == 0
    ensures Written(Start, Encoded(blocks, isBigEndian), isBigEndian)[1] == ByteCount(Utf16(blocks[1], isBigEndian), isBigEndian) + 1
  {
    WrittenAt(Start, blocks, 1, isBigEndian);
    SizeOfBlock(blocks[1], isBigEndian);
    TrailLength(Top(blocks[0]));
    TrailLength(Top(blocks[1]));
  }

  lemma {:induction false} TrailLength(c: Scalar)
    ensures |Trail(c)| == if c < 0x80 then 0 else if c < 0x800 then 1 else if c < 0x10000 then 2 else 3
  {
    LeadAndTrail(c);
  }

  /** The library call: one byte past the text flushes it, and the size is exact without surrogate pairs. */
  lemma {:induction false} LibrarySizes(cs: seq<Scalar>)
    requires 0 !in cs
    ensures var size, out := ByteCount(Utf16(cs, false), false) + 1, ConvertedWithTerminator(cs, false);
            out == Utf8(cs) + [0] && |out| <= size && (|out| == size <==> Pairs(cs) == 0)
  {
    TerminatorFlushes(cs, 0, false);
    Utf8LengthOf(cs, false);
  }

  // ---------------------------------------------------------------------
  // The converters as loops over the buffers
  // ---------------------------------------------------------------------

  lemma {:induction false} ToUtf16Snoc(d: Decoding, text: seq<byte>, b: byte, isBigEndian: bool)
    ensures var d1 := DecodeAll(d, text);
            var d2 := DecodeByte(d1, b);
            DecodeAll(d, text + [b]) == d2 &&
            ToUtf16(d, text + [b], isBigEndian) ==
            ToUtf16(d, text, isBigEndian) + (if d2.phase == Start then EmitCodePoint(d2.nCur, isBigEndian) else [])
    decreases |text|
  {
    var d2 := DecodeByte(DecodeAll(d, text), b);
    var emitted := if d2.phase == Start then EmitCodePoint(d2.nCur, isBigEndian) else [];
    if |text| == 0 {
      assert text + [b] == [b] && [b][1..] == [];
      assert emitted + [] == emitted && [] + emitted == emitted;
    } else {
      assert (text + [b])[1..] == text[1..] + [b];
      var d1 := DecodeByte(d, text[0]);
      ToUtf16Snoc(d1, text[1..], b, isBigEndian);
      Assoc(if d1.phase == Start then EmitCodePoint(d1.nCur, isBigEndian) else [], ToUtf16(d1, text[1..], isBigEndian), emitted);
    }
  }

  function DecodeAll(d: Decoding, text: seq<byte>): Decoding
    decreases |text|
  {
    if |text| == 0 then d else DecodeAll(DecodeByte(d, text[0]), text[1..])
  }

  lemma {:induction false} ToUtf16Grows(d: Decoding, text: seq<byte>, n: nat, isBigEndian: bool)
    requires n <= |text|
    ensures |ToUtf16(d, text[..n], isBigEndian)| <= |ToUtf16(d, text, isBigEndian)|
    decreases |text| - n
  {
    if n < |text| {
      assert text[..n + 1] == text[..n] + [text[n]];
      ToUtf16Snoc(d, text[..n], text[n], isBigEndian);
      ToUtf16Grows(d, text, n + 1, isBigEndian);
    } else {
      assert text[..n] == text;
    }
  }

  class ASEncoding {
    /** The static variable of `utf16ToUtf8`, kept for the next block. */
    var state: Phase

    constructor ()
      ensures state == Start
    {
      state := Start;
    }

    method StoreCodeUnit(u: unit, isBigEndian: bool, out: array<byte>, at: nat)
      requires at + 2 <= out.Length
      modifies out
      ensures out[..at + 2] == old(out[..at]) + EmitUnit(u, isBigEndian)
    {
      var stored := if isBigEndian then Swap16(u) else u;
      out[at] := stored % 256;
      out[at + 1] := stored / 256;
    }

    method StoreCodePoint(codePoint: int, isBigEndian: bool, out: array<byte>, at: nat) returns (n: nat)
      requires 0 <= codePoint < 0x200000
      requires at + |EmitCodePoint(codePoint, isBigEndian)| <= out.Length
      modifies out
      ensures n == at + |EmitCodePoint(codePoint, isBigEndian)|
      ensures out[..n] == old(out[..at]) + EmitCodePoint(codePoint, isBigEndian)
    {
      if codePoint >= 0x10000 {
        var c := codePoint - 0x10000;
        StoreCodeUnit(c / 1024 + 0xD800, isBigEndian, out, at);
        StoreCodeUnit(c % 1024 + 0xDC00, isBigEndian, out, at + 2);
        n := at + 4;
      } else {
        StoreCodeUnit(codePoint, isBigEndian, out, at);
        n := at + 2;
      }
    }

    /** The input is a text of bytes; the result is its length in bytes. */
    method Utf8ToUtf16(utf8In: seq<byte>, isBigEndian: bool, out: array<byte>) returns (n: nat)
      requires |ToUtf16(Decoder(Start, 0), utf8In, isBigEndian)| <= out.Length
      modifies out
      ensures n == |ToUtf16(Decoder(Start, 0), utf8In, isBigEndian)|
      ensures out[..n] == ToUtf16(Decoder(Start, 0), utf8In, isBigEndian)
    {
      var d: Decoding := Decoder(Start, 0);
      n := 0;
      for i := 0 to |utf8In|
        invariant d == DecodeAll(Decoder(Start, 0), utf8In[..i])
        invariant n <= out.Length && out[..n] == ToUtf16(Decoder(Start, 0), utf8In[..i], isBigEndian)
      {
        ToUtf16Snoc(Decoder(Start, 0), utf8In[..i], utf8In[i], isBigEndian);
        assert utf8In[..i + 1] == utf8In[..i] + [utf8In[i]];
        ToUtf16Grows(Decoder(Start, 0), utf8In, i + 1, isBigEndian);
        d := DecodeByte(d, utf8In[i]);
        if d.phase == Start {
          n := StoreCodePoint(d.nCur, isBigEndian, out, n);
        }
      }
      assert utf8In[..|utf8In|] == utf8In;
    }

    /** `inLen` bytes of the memory at `utf16In` are to be converted. */
    method Utf16ToUtf8(utf16In: seq<byte>, inLen: nat, isBigEndian: bool, firstBlock: bool, out: array<byte>) returns (n: nat)
      requires Readable(utf16In, inLen, isBigEndian)
      requires |ToUtf8(if firstBlock then Start else state, 0, utf16In, inLen, isBigEndian).0| <= out.Length
      modifies this, out
      ensures n <= out.Length
      ensures (out[..n], state) == ToUtf8(if firstBlock then Start else old(state), 0, utf16In, inLen, isBigEndian)
    {
      if firstBlock {
        state := Start;
      }
      ghost var (whole, last) := ToUtf8(state, 0, utf16In, inLen, isBigEndian);
      ghost var rest := whole;
      var nCur16, pRead := 0, 0;
      n := 0;
      assert utf16In[0..] == utf16In;
      while pRead < inLen
        invariant 0 <= pRead <= |utf16In| && Readable(utf16In[pRead..], inLen - pRead, isBigEndian)
        invariant 0 <= nCur16 < 0x110000 && n <= out.Length
        invariant ToUtf8(state, nCur16, utf16In[pRead..], inLen - pRead, isBigEndian) == (rest, last)
        invariant n + |rest| == |whole| && out[..n] == whole[..n] && rest == whole[n..]
        decreases inLen - pRead, Rank(state)
      {
        var b: byte;
        b, nCur16, pRead := NextByte(utf16In, inLen, isBigEndian, nCur16, pRead);
        assert rest[0] == b == whole[n];
        out[n] := b;
        n := n + 1;
        rest := rest[1..];
      }
      assert rest == [] && whole[..n] == whole;
    }

    /** One turn of the loop: it reads a character or pays an owed byte. */
    method NextByte(utf16In: seq<byte>, inLen: nat, isBigEndian: bool, nCur16: int, pRead: nat)
      returns (b: byte, nCur16': int, pRead': nat)
      requires pRead < inLen && pRead <= |utf16In| && Readable(utf16In[pRead..], inLen - pRead, isBigEndian)
      requires 0 <= nCur16 < 0x110000
      modifies this`state
      ensures pRead <= pRead' <= |utf16In| && Readable(utf16In[pRead'..], inLen - pRead', isBigEndian)
      ensures 0 <= nCur16' < 0x110000 && (pRead < pRead' || (pRead == pRead' && Rank(state) < Rank(old(state))))
      ensures var (rest, last) := ToUtf8(state, nCur16', utf16In[pRead'..], inLen - pRead', isBigEndian);
              ToUtf8(old(state), nCur16, utf16In[pRead..], inLen - pRead, isBigEndian) == ([b] + rest, last)
    {
      nCur16', pRead' := nCur16, pRead;
      if state == Start {
        var bytes := utf16In[pRead..];
        var width := Width(bytes, isBigEndian);
        nCur16' := CodePointAt(bytes, isBigEndian);
        pRead' := pRead + width;
        assert bytes[width..] == utf16In[pRead'..];
        b := LeadByte(nCur16');
        state := PhaseAfter(nCur16');
      } else {
        b := Continuation(state, nCur16);
        state := NextPhase(state);
      }
    }

    method Utf16LengthFromUtf8(utf8In: seq<byte>) returns (r: nat)
      ensures r == 2 * UnitCount(utf8In)
    {
      var ulen, i := 0, 0;
      while i < |utf8In|
        invariant ulen + UnitCount(if i <= |utf8In| then utf8In[i..] else []) == UnitCount(utf8In)
      {
        var ch := utf8In[i];
        var charLen := 4;
        if ch < 0x80 {
          charLen := 1;
        } else if ch < 0xE0 {
          charLen := 2;
        } else if ch < 0xF0 {
          charLen := 3;
        } else {
          ulen := ulen + 1;
        }
        assert utf8In[i..][0] == ch;
        assert i + charLen <= |utf8In| ==> utf8In[i..][charLen..] == utf8In[i + charLen..];
        i := i + charLen;
        ulen := ulen + 1;
      }
      r := ulen * 2;
    }

    method Utf8LengthFromUtf16(utf16In: seq<byte>, isBigEndian: bool) returns (len: nat)
      ensures len == ByteCount(utf16In, isBigEndian)
    {
      len := 0;
      var wcharLen := |utf16In| / 2;
      var i := 0;
      while i < wcharLen && UnitAt(utf16In, 2 * i, isBigEndian) != 0
        invariant 0 <= i
        invariant len + ByteCount(FromUnit(utf16In, i), isBigEndian) == ByteCount(utf16In, isBigEndian)
      {
        var n;
        n, i := CountUnit(utf16In, i, isBigEndian);
        len := len + n;
      }
      if i < wcharLen {
        assert UnitAt(FromUnit(utf16In, i), 0, isBigEndian) == UnitAt(utf16In, 2 * i, isBigEndian);
      }
    }

    /** One turn of the loop: the bytes of a unit, or of a surrogate pair. */
    method CountUnit(utf16In: seq<byte>, i: nat, isBigEndian: bool) returns (n: nat, next: nat)
      requires 2 * i + 2 <= |utf16In| && UnitAt(utf16In, 2 * i, isBigEndian) != 0
      ensures i < next
      ensures ByteCount(FromUnit(utf16In, i), isBigEndian) == n + ByteCount(FromUnit(utf16In, next), isBigEndian)
    {
      var rest := utf16In[2 * i..];
      assert UnitAt(rest, 0, isBigEndian) == UnitAt(utf16In, 2 * i, isBigEndian);
      var uch := Widened(rest, isBigEndian);
      next := i;
      if uch < 0x80 {
        n := 1;
      } else if uch < 0x800 {
        n := 2;
      } else if uch >= 0xD800 && uch <= 0xDFFF {
        n := 4;
        next := next + 1;
      } else {
        n := 3;
      }
      next := next + 1;
      assert FromUnit(utf16In, next) == if 2 * (next - i) <= |rest| then rest[2 * (next - i)..] else [];
    }
  }

  /** The bytes from unit `i` on. */
  function FromUnit(bytes: seq<byte>, i: nat): seq<byte>
  {
    if 2 * i <= |bytes| then bytes[2 * i..] else []
  }
}
