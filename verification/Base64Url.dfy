// Canonical unpadded base64url (sections 3.5 and 5 of RFC 4648), on bytes.
module Base64Url {
  import opened Options

  const MAX_LENGTH := 65_536

  type Byte = b: int | 0 <= b < 256

  type Sextet = v: int | 0 <= v < 64

  function Letter(v: Sextet): (c: char)
    ensures Position(c) == Some(v)
  {
    if v < 26 then 'A' + v as char
    else if v < 52 then 'a' + (v - 26) as char
    else if v < 62 then '0' + (v - 52) as char
    else if v == 62 then '-'
    else '_'
  }

  function Position(c: char): Option<Sextet> {
    if 'A' <= c <= 'Z' then Some((c - 'A') as int)
    else if 'a' <= c <= 'z' then Some((c - 'a') as int + 26)
    else if '0' <= c <= '9' then Some((c - '0') as int + 52)
    else if c == '-' then Some(62)
    else if c == '_' then Some(63)
    else None
  }

  lemma LetterOfPosition(c: char)
    requires Position(c).Some?
    ensures Letter(Position(c).value) == c
  {
  }

  // `urlsafe_b64encode(raw).rstrip("=")`.
  function Encode(bytes: seq<Byte>): string {
    if |bytes| == 0 then ""
    else if |bytes| == 1 then Letters(bytes[0], 0, 0)[..2]
    else if |bytes| == 2 then Letters(bytes[0], bytes[1], 0)[..3]
    else Letters(bytes[0], bytes[1], bytes[2]) + Encode(bytes[3..])
  }

  // Four letters carry the bits of three bytes; a short last group is filled up with zero bits.
  function Letters(a: Byte, b: Byte, c: Byte): (s: string)
    ensures |s| == 4
  {
    [Letter(a / 4), Letter(a % 4 * 16 + b / 16), Letter(b % 16 * 4 + c / 64), Letter(c % 64)]
  }

  predicate IsBase64Url(s: string) { forall i | 0 <= i < |s| :: Position(s[i]).Some? }

  function At(s: string, i: nat): Sextet
    requires i < |s| && IsBase64Url(s)
  {
    Position(s[i]).value
  }

  // `b64decode` of the text with its padding restored; like the library, it ignores the unused low bits
  // of the last letter.
  function DecodeBits(s: string): Option<seq<Byte>>
    requires IsBase64Url(s)
  {
    if |s| == 0 then Some([])
    else if |s| == 1 then None
    else if |s| == 2 then Some(Bytes(At(s, 0), At(s, 1), 0, 0)[..1])
    else if |s| == 3 then Some(Bytes(At(s, 0), At(s, 1), At(s, 2), 0)[..2])
    else
      var rest := DecodeBits(s[4..]);
      if rest.None? then None
      else Some(Bytes(At(s, 0), At(s, 1), At(s, 2), At(s, 3)) + rest.value)
  }

  function Bytes(a: Sextet, b: Sextet, c: Sextet, d: Sextet): (bytes: seq<Byte>)
    ensures |bytes| == 3
  {
    [a * 4 + b / 16, b % 16 * 16 + c / 4, c % 4 * 64 + d]
  }

  // `decode_base64url_text` without its UTF-8 step: length, alphabet, bits, then the re-encoding check.
  function DecodeText(s: string): Option<seq<Byte>> {
    if s == "" then Some([])
    else if |s| > MAX_LENGTH || !IsBase64Url(s) then None
    else
      var bytes := DecodeBits(s);
      if bytes.None? || Encode(bytes.value) != s then None else bytes
  }

  // `decode_base64url_json` without its JSON step: the same, but empty input is refused.
  function DecodeJson(s: string): Option<seq<Byte>> { if s == "" then None else DecodeText(s) }

  lemma UnpackBits(a: Byte, b: Byte, c: Byte)
    ensures a / 4 * 4 + (a % 4 * 16 + b / 16) / 16 == a
    ensures (a % 4 * 16 + b / 16) % 16 * 16 + (b % 16 * 4 + c / 64) / 4 == b
    ensures (b % 16 * 4 + c / 64) % 4 * 64 + c % 64 == c
  {
  }

  lemma LetterHasPosition()
    ensures forall v: Sextet :: Position(Letter(v)) == Some(v)
  {
  }

  lemma LettersBytes(a: Byte, b: Byte, c: Byte)
    ensures var s := Letters(a, b, c);
            IsBase64Url(s) && Bytes(At(s, 0), At(s, 1), At(s, 2), At(s, 3)) == [a, b, c]
  {
    LettersAt(a, b, c);
    hide Letter, Position, Letters, IsBase64Url, At;
    UnpackBits(a, b, c);
  }

  lemma LettersAt(a: Byte, b: Byte, c: Byte)
    ensures var s := Letters(a, b, c);
            && IsBase64Url(s)
            && At(s, 0) == a / 4 && At(s, 1) == a % 4 * 16 + b / 16
            && At(s, 2) == b % 16 * 4 + c / 64 && At(s, 3) == c % 64
  {
    hide Letter, Position;
    LetterHasPosition();
    var s := Letters(a, b, c);
    assert s[0] == Letter(a / 4) && s[1] == Letter(a % 4 * 16 + b / 16);
    assert s[2] == Letter(b % 16 * 4 + c / 64) && s[3] == Letter(c % 64);
  }

  lemma {:induction false} DecodeEncode(bytes: seq<Byte>)
    ensures IsBase64Url(Encode(bytes)) && DecodeBits(Encode(bytes)) == Some(bytes)
  {
    hide *;
    if |bytes| <= 2 {
      DecodeEncodeEnd(bytes);
    } else {
      EncodeGroup(bytes);
      DecodeEncode(bytes[3..]);
      LettersBytes(bytes[0], bytes[1], bytes[2]);
      DecodeGroup(Letters(bytes[0], bytes[1], bytes[2]), Encode(bytes[3..]));
      assert bytes == [bytes[0], bytes[1], bytes[2]] + bytes[3..];
    }
  }

  lemma DecodeEncodeEnd(bytes: seq<Byte>)
    requires |bytes| <= 2
    ensures IsBase64Url(Encode(bytes)) && DecodeBits(Encode(bytes)) == Some(bytes)
  {
    hide Letter, Position, Letters, Bytes, DecodeBits;
    if |bytes| == 0 {
      assert Encode(bytes) == "";
      DecodeEmpty();
      assert bytes == [];
    } else if |bytes| == 1 {
      LettersBytes(bytes[0], 0, 0);
      assert Encode(bytes) == Letters(bytes[0], 0, 0)[..2];
      DecodeShort(Letters(bytes[0], 0, 0));
      assert [bytes[0], 0, 0][..1] == bytes;
    } else if |bytes| == 2 {
      LettersBytes(bytes[0], bytes[1], 0);
      assert Encode(bytes) == Letters(bytes[0], bytes[1], 0)[..3];
      DecodeShort(Letters(bytes[0], bytes[1], 0));
      assert [bytes[0], bytes[1], 0][..2] == bytes;
    }
  }

  lemma DecodeEmpty()
    ensures DecodeBits("") == Some([])
  {
  }

  // The low bits that a short group drops belong to bytes it drops as well.
  lemma DecodeShort(s: string)
    requires |s| == 4 && IsBase64Url(s)
    ensures DecodeBits(s[..2]) == Some(Bytes(At(s, 0), At(s, 1), At(s, 2), At(s, 3))[..1])
    ensures DecodeBits(s[..3]) == Some(Bytes(At(s, 0), At(s, 1), At(s, 2), At(s, 3))[..2])
  {
    hide Position;
    var a, b, c, d := At(s, 0), At(s, 1), At(s, 2), At(s, 3);
    var two, three := s[..2], s[..3];
    assert At(two, 0) == a && At(two, 1) == b && At(three, 0) == a && At(three, 1) == b && At(three, 2) == c;
    assert Bytes(a, b, 0, 0)[..1] == Bytes(a, b, c, d)[..1] && Bytes(a, b, c, 0)[..2] == Bytes(a, b, c, d)[..2];
  }

  lemma EncodeGroup(bytes: seq<Byte>)
    requires |bytes| > 2
    ensures Encode(bytes) == Letters(bytes[0], bytes[1], bytes[2]) + Encode(bytes[3..])
  {
  }

  lemma DecodeGroup(head: string, rest: string)
    requires |head| == 4 && IsBase64Url(head) && IsBase64Url(rest)
    ensures var s := head + rest;
            && IsBase64Url(s)
            && DecodeBits(s) == if DecodeBits(rest).None? then None
                                else Some(Bytes(At(head, 0), At(head, 1), At(head, 2), At(head, 3))
                                          + DecodeBits(rest).value)
  {
    hide Position, Bytes;
    assert (head + rest)[4..] == rest;
  }

  // Decoding inverts encoding for every byte string whose text fits the limit, and nothing else is
  // accepted: each accepted text is the encoding of what it decodes to.
  lemma DecodeTextInvertsEncode(s: string, bytes: seq<Byte>)
    ensures DecodeText(s) == Some(bytes) <==> s == Encode(bytes) && |s| <= MAX_LENGTH
    ensures DecodeJson(s) == Some(bytes) <==> s == Encode(bytes) && 0 < |s| <= MAX_LENGTH
  {
    DecodeEncode(bytes);
  }

  // Hence no two accepted texts decode to the same bytes.
  lemma DecodeIsInjective(s: string, t: string)
    requires DecodeText(s).Some? && DecodeText(s) == DecodeText(t)
    ensures s == t
  {
    DecodeTextInvertsEncode(s, DecodeText(s).value);
    DecodeTextInvertsEncode(t, DecodeText(s).value);
  }

  // The unused low bits of the last letter, which canonical text leaves at zero.
  predicate TrailingBitsAreZero(s: string)
    requires IsBase64Url(s)
  {
    && (|s| % 4 == 2 ==> At(s, |s| - 1) % 16 == 0)
    && (|s| % 4 == 3 ==> At(s, |s| - 1) % 4 == 0)
  }

  lemma {:induction false} ReencodesExactly(s: string)
    requires IsBase64Url(s)
    ensures DecodeBits(s).Some? <==> |s| % 4 != 1
    ensures DecodeBits(s).Some? ==> (Encode(DecodeBits(s).value) == s <==> TrailingBitsAreZero(s))
  {
    hide Letter, Position, Letters, Bytes, Encode, DecodeBits;
    if |s| < 4 {
      ReencodesEnd(s);
    } else {
      var head, rest := s[..4], s[4..];
      assert s == head + rest;
      ReencodesExactly(rest);
      DecodeGroup(head, rest);
      assert |rest| > 0 ==> s[|s| - 1] == rest[|rest| - 1];
      if DecodeBits(rest).Some? {
        BytesLetters(head);
        var bytes := DecodeBits(s).value;
        assert bytes[3..] == DecodeBits(rest).value;
        EncodeGroup(bytes);
        assert Encode(bytes)[4..] == Encode(bytes[3..]);
      }
    }
  }

  lemma ReencodesEnd(s: string)
    requires IsBase64Url(s) && |s| < 4
    ensures DecodeBits(s).Some? <==> |s| % 4 != 1
    ensures DecodeBits(s).Some? ==> (Encode(DecodeBits(s).value) == s <==> TrailingBitsAreZero(s))
  {
    hide Position, Letter, Letters, Encode, Bytes, DecodeBits;
    LettersOf(s);
    DecodesEnd(s);
    if |s| == 0 {
      NothingEncodes();
    } else if |s| == 2 {
      ReencodesTwo(s, At(s, 0), At(s, 1));
    } else if |s| == 3 {
      ReencodesThree(s, At(s, 0), At(s, 1), At(s, 2));
    }
  }

  lemma DecodesEnd(s: string)
    requires IsBase64Url(s)
    ensures |s| == 0 ==> DecodeBits(s) == Some([])
    ensures |s| == 1 ==> DecodeBits(s) == None
    ensures |s| == 2 ==> DecodeBits(s) == Some(Bytes(At(s, 0), At(s, 1), 0, 0)[..1])
    ensures |s| == 3 ==> DecodeBits(s) == Some(Bytes(At(s, 0), At(s, 1), At(s, 2), 0)[..2])
  {
  }

  lemma NothingEncodes()
    ensures Encode([]) == ""
  {
  }

  lemma ReencodesTwo(s: string, a: Sextet, b: Sextet)
    requires s == [Letter(a), Letter(b)]
    ensures Encode(Bytes(a, b, 0, 0)[..1]) == s <==> b % 16 == 0
  {
    hide Position, Letter;
    RepackTail(a, b);
    var low: Sextet := b - b % 16;
    SameLetter(b, low);
    assert Encode(Bytes(a, b, 0, 0)[..1]) == [Letter(a), Letter(low)];
  }

  lemma ReencodesThree(s: string, a: Sextet, b: Sextet, c: Sextet)
    requires s == [Letter(a), Letter(b), Letter(c)]
    ensures Encode(Bytes(a, b, c, 0)[..2]) == s <==> c % 4 == 0
  {
    hide Position, Letter, Letters;
    var x, y, low: Sextet := a * 4 + b / 16, b % 16 * 16 + c / 4, c - c % 4;
    SameLetter(c, low);
    assert Bytes(a, b, c, 0)[..2] == [x, y];
    assert Encode([x, y]) == Letters(x, y, 0)[..3];
    RepackThree(a, b, c);
    LettersAre(x, y, 0);
  }

  lemma RepackThree(a: Sextet, b: Sextet, c: Sextet)
    ensures var x, y := a * 4 + b / 16, b % 16 * 16 + c / 4;
            x / 4 == a && x % 4 * 16 + y / 16 == b && y % 16 * 4 == c - c % 4
  {
    RepackTail(b, c);
    RepackBits(a, b, c, 0);
  }

  lemma LettersAre(a: Byte, b: Byte, c: Byte)
    ensures Letters(a, b, c)[..3] == [Letter(a / 4), Letter(a % 4 * 16 + b / 16), Letter(b % 16 * 4 + c / 64)]
  {
  }

  lemma LettersOf(s: string)
    requires IsBase64Url(s)
    ensures forall i | 0 <= i < |s| :: Letter(At(s, i)) == s[i]
  {
    forall i | 0 <= i < |s| ensures Letter(At(s, i)) == s[i] { LetterOfPosition(s[i]); }
  }

  lemma SameLetter(a: Sextet, b: Sextet)
    ensures Letter(a) == Letter(b) <==> a == b
  {
    assert Position(Letter(a)) == Some(a) && Position(Letter(b)) == Some(b);
  }

  lemma BytesLetters(head: string)
    requires |head| == 4 && IsBase64Url(head)
    ensures var b := Bytes(At(head, 0), At(head, 1), At(head, 2), At(head, 3)); Letters(b[0], b[1], b[2]) == head
  {
    hide Position, Letter;
    LettersOf(head);
    RepackBits(At(head, 0), At(head, 1), At(head, 2), At(head, 3));
  }

  lemma RepackTail(a: Sextet, b: Sextet)
    ensures (a * 4 + b / 16) / 4 == a && (a * 4 + b / 16) % 4 * 16 == b - b % 16
    ensures (a % 16 * 16 + b / 4) % 16 * 4 == b - b % 4
  {
    assert (a * 4 + b / 16) % 4 == b / 16;
    assert (a % 16 * 16 + b / 4) % 16 == b / 4;
  }

  lemma RepackBits(a: Sextet, b: Sextet, c: Sextet, d: Sextet)
    ensures (a * 4 + b / 16) / 4 == a && (c % 4 * 64 + d) % 64 == d
    ensures (a * 4 + b / 16) % 4 * 16 + (b % 16 * 16 + c / 4) / 16 == b
    ensures (b % 16 * 16 + c / 4) % 16 * 4 + (c % 4 * 64 + d) / 64 == c
  {
  }

  // Which texts are accepted, without mention of encoding: within the limit, in the alphabet, of a
  // possible length, and with no stray bits at the end.
  lemma AcceptedExactly(s: string)
    ensures DecodeText(s).Some? <==>
              |s| <= MAX_LENGTH && IsBase64Url(s) && |s| % 4 != 1 && TrailingBitsAreZero(s)
  {
    if IsBase64Url(s) { ReencodesExactly(s); }
  }

  // ---- the text, bit by bit ----

  // Upper case, lower case, digits, and the two letters of the URL-safe alphabet, each group ascending.
  lemma AlphabetAscends(v: Sextet, w: Sextet)
    requires v < w
    ensures w < 26 ==> 'A' <= Letter(v) < Letter(w) <= 'Z'
    ensures 26 <= v && w < 52 ==> 'a' <= Letter(v) < Letter(w) <= 'z'
    ensures 52 <= v && w < 62 ==> '0' <= Letter(v) < Letter(w) <= '9'
    ensures Letter(62) == '-' && Letter(63) == '_'
  {
  }

  // Bit `n` of a number, the lowest first.
  function Bit(v: nat, n: nat): nat {
    if n == 0 then v % 2 else Bit(v / 2, n - 1)
  }

  // Bit `n` of a byte string with zero bits after it, the highest bit of each byte first.
  function ByteBit(bytes: seq<Byte>, n: nat): nat {
    if n / 8 < |bytes| then Bit(bytes[n / 8], 7 - n % 8) else 0
  }

  // Bit `n` of a text, six to a letter.
  function LetterBit(s: string, n: nat): nat
    requires IsBase64Url(s) && n < 6 * |s|
  {
    Bit(At(s, n / 6), 5 - n % 6)
  }

  function Pow2(n: nat): nat { if n == 0 then 1 else 2 * Pow2(n - 1) }

  lemma {:induction false} JoinedBits(high: nat, low: nat, width: nat, n: nat)
    requires low < Pow2(width)
    ensures Bit(high * Pow2(width) + low, n) == if n < width then Bit(low, n) else Bit(high, n - width)
  {
    hide Bit, Pow2;
    PowStep(width);
    BitStep(low, n);
    if width > 0 {
      var p := high * Pow2(width - 1);
      Doubled(high, Pow2(width - 1));
      BitStep(2 * p + low, n);
      assert (2 * p + low) % 2 == low % 2 && (2 * p + low) / 2 == p + low / 2;
      if n > 0 { JoinedBits(high, low / 2, width - 1, n - 1); }
    } else {
      assert low == 0 && high * 1 == high;
    }
  }

  lemma PowStep(n: nat)
    ensures Pow2(n) == if n == 0 then 1 else 2 * Pow2(n - 1)
  {
  }

  lemma BitStep(v: nat, n: nat)
    ensures Bit(v, n) == if n == 0 then v % 2 else Bit(v / 2, n - 1)
  {
  }

  lemma Doubled(high: nat, p: nat)
    ensures high * (2 * p) == 2 * (high * p)
  {
  }

  // The bits of a byte in the letters that share it.
  lemma SharedBits(a: Byte, n: nat)
    requires n < 8
    ensures Bit(a, n) == if n < 2 then Bit(a % 4, n) else Bit(a / 4, n - 2)
    ensures Bit(a, n) == if n < 4 then Bit(a % 16, n) else Bit(a / 16, n - 4)
    ensures Bit(a, n) == if n < 6 then Bit(a % 64, n) else Bit(a / 64, n - 6)
  {
    hide Bit;
    assert Pow2(2) == 4 && Pow2(4) == 16 && Pow2(6) == 64;
    JoinedBits(a / 4, a % 4, 2, n);
    JoinedBits(a / 16, a % 16, 4, n);
    JoinedBits(a / 64, a % 64, 6, n);
  }

  lemma LettersSpell(a: Byte, b: Byte, c: Byte, n: nat)
    requires n < 24 && IsBase64Url(Letters(a, b, c))
    ensures LetterBit(Letters(a, b, c), n) == ByteBit([a, b, c], n)
  {
    LettersAt(a, b, c);
    hide Letter, Position, Bit, Letters, At, IsBase64Url;
    assert Pow2(2) == 4 && Pow2(4) == 16;
    SharedBits([a, b, c][n / 8], 7 - n % 8);
    if 6 <= n < 12 {
      JoinedBits(a % 4, b / 16, 4, 11 - n);
    } else if 12 <= n < 18 {
      JoinedBits(b % 16, c / 64, 2, 17 - n);
    }
  }

  lemma {:induction false} EncodedLength(bytes: seq<Byte>)
    ensures |Encode(bytes)| == (8 * |bytes| + 5) / 6
  {
    if |bytes| > 2 { EncodedLength(bytes[3..]); }
  }

  // The letters carry the bits of the bytes, in order, in as few letters as hold them; the last letter
  // is filled up with zero bits.
  lemma {:induction false} EncodeSpells(bytes: seq<Byte>, n: nat)
    requires n < 6 * |Encode(bytes)|
    ensures |Encode(bytes)| == (8 * |bytes| + 5) / 6
    ensures IsBase64Url(Encode(bytes)) && LetterBit(Encode(bytes), n) == ByteBit(bytes, n)
  {
    DecodeEncode(bytes);
    EncodedLength(bytes);
    hide Letter, Position, Letters, Bit, DecodeBits, Encode, IsBase64Url, At, LetterBit, ByteBit;
    if |bytes| <= 2 {
      EndSpells(bytes, n);
    } else {
      var head, rest := Letters(bytes[0], bytes[1], bytes[2]), Encode(bytes[3..]);
      EncodeGroup(bytes);
      LettersBytes(bytes[0], bytes[1], bytes[2]);
      DecodeEncode(bytes[3..]);
      if n < 24 {
        LettersSpell(bytes[0], bytes[1], bytes[2], n);
      } else {
        EncodeSpells(bytes[3..], n - 24);
      }
      BitOfPart(head, rest, n);
      ByteOfPart(bytes, n);
    }
  }

  // A bit of a text that begins with one group, and a bit of the bytes that begin with three.
  lemma BitOfPart(head: string, rest: string, n: nat)
    requires |head| == 4 && IsBase64Url(head) && IsBase64Url(rest) && IsBase64Url(head + rest)
    requires n < 6 * |head + rest|
    ensures LetterBit(head + rest, n) == if n < 24 then LetterBit(head, n) else LetterBit(rest, n - 24)
  {
    hide Bit, Position;
    assert n >= 24 ==> (n - 24) / 6 == n / 6 - 4 && (n - 24) % 6 == n % 6;
  }

  lemma ByteOfPart(bytes: seq<Byte>, n: nat)
    requires |bytes| > 2
    ensures ByteBit(bytes, n)
            == if n < 24 then ByteBit([bytes[0], bytes[1], bytes[2]], n) else ByteBit(bytes[3..], n - 24)
  {
    hide Bit;
    assert n >= 24 ==> (n - 24) / 8 == n / 8 - 3 && (n - 24) % 8 == n % 8;
  }

  lemma EndSpells(bytes: seq<Byte>, n: nat)
    requires |bytes| <= 2 && n < 6 * |Encode(bytes)| && IsBase64Url(Encode(bytes))
    ensures LetterBit(Encode(bytes), n) == ByteBit(bytes, n)
  {
    hide Letter, Position, Letters, Bit;
    var padded := bytes + [0, 0];
    LettersBytes(padded[0], padded[1], padded[2]);
    LettersSpell(padded[0], padded[1], padded[2], n);
    assert Encode(bytes) == Letters(padded[0], padded[1], padded[2])[..|Encode(bytes)|];
    ZeroBits(7 - n % 8);
  }

  lemma {:induction false} ZeroBits(n: nat)
    ensures Bit(0, n) == 0
  {
    if n > 0 { ZeroBits(n - 1); }
  }
}
