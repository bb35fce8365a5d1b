/**
 Standard base64 with padding, section 4 of RFC 4648, as Go's base64.StdEncoding reads and writes it.
 The decoder ignores carriage returns and line feeds and does not insist that the unused bits before the
 padding are zero; the encoder always writes the canonical form.
 */
module Base64 {
  import opened Options

  type byte = x: int | 0 <= x < 256
  type sextet = x: int | 0 <= x < 64

  // An alphabet: the symbol of each sextet, and the sextet of each symbol that has one.
  datatype Alphabet = Alphabet(symbol: sextet -> char, value: char -> Option<sextet>)
  {
    ghost predicate Sound() {
      && value('=') == None
      && (forall s: sextet :: value(symbol(s)) == Some(s))
      && (forall s: sextet :: !IsNewline(symbol(s)))
    }
  }

  function EncodeWith(a: Alphabet, b: seq<byte>): string {
    if |b| == 0 then
      ""
    else if |b| == 1 then
      EncodeOne(a, b[0])
    else if |b| == 2 then
      EncodeTwo(a, b[0], b[1])
    else
      EncodeThree(a, b[0], b[1], b[2]) + EncodeWith(a, b[3..])
  }

  function EncodeOne(a: Alphabet, b0: byte): (t: string)
    ensures |t| == 4
  {
    [a.symbol(b0 / 4), a.symbol(b0 % 4 * 16), '=', '=']
  }

  function EncodeTwo(a: Alphabet, b0: byte, b1: byte): (t: string)
    ensures |t| == 4
  {
    [a.symbol(b0 / 4), a.symbol(b0 % 4 * 16 + b1 / 16), a.symbol(b1 % 16 * 4), '=']
  }

  function EncodeThree(a: Alphabet, b0: byte, b1: byte, b2: byte): (t: string)
    ensures |t| == 4
  {
    [a.symbol(b0 / 4), a.symbol(b0 % 4 * 16 + b1 / 16), a.symbol(b1 % 16 * 4 + b2 / 64), a.symbol(b2 % 64)]
  }

  predicate IsNewline(c: char) {
    c == '\n' || c == '\r'
  }

  function StripNewlines(text: string): string {
    if text == "" then ""
    else if IsNewline(text[0]) then StripNewlines(text[1..])
    else [text[0]] + StripNewlines(text[1..])
  }

  // The three bytes packed into four sextets.
  function Byte0(v0: sextet, v1: sextet): byte { v0 * 4 + v1 / 16 }

  function Byte1(v1: sextet, v2: sextet): byte { v1 % 16 * 16 + v2 / 4 }

  function Byte2(v2: sextet, v3: sextet): byte { v2 % 4 * 64 + v3 }

  function DecodeQuanta(a: Alphabet, t: string): Option<seq<byte>> {
    if t == "" then Some([])
    else if |t| < 4 then None
    else
      match (a.value(t[0]), a.value(t[1]), a.value(t[2]), a.value(t[3]))
      case (Some(v0), Some(v1), Some(v2), Some(v3)) =>
        (match DecodeQuanta(a, t[4..])
         case None => None
         case Some(rest) => Some([Byte0(v0, v1), Byte1(v1, v2), Byte2(v2, v3)] + rest))
      case (Some(v0), Some(v1), Some(v2), None) =>
        if t[3] == '=' && |t| == 4 then Some([Byte0(v0, v1), Byte1(v1, v2)]) else None
      case (Some(v0), Some(v1), None, _) =>
        if t[2] == '=' && t[3] == '=' && |t| == 4 then Some([Byte0(v0, v1)]) else None
      case _ => None
  }

  lemma {:induction false} EncodeIsOneLine(a: Alphabet, b: seq<byte>)
    requires a.Sound()
    ensures StripNewlines(EncodeWith(a, b)) == EncodeWith(a, b)
  {
    assert !IsNewline('=');
    if |b| == 1 {
      StripKeepsQuantum(EncodeOne(a, b[0]), "");
    } else if |b| == 2 {
      StripKeepsQuantum(EncodeTwo(a, b[0], b[1]), "");
    } else if |b| > 2 {
      EncodeIsOneLine(a, b[3..]);
      StripKeepsQuantum(EncodeThree(a, b[0], b[1], b[2]), EncodeWith(a, b[3..]));
    }
  }

  lemma {:induction false} StripKeepsQuantum(t: string, rest: string)
    requires forall c :: c in t ==> !IsNewline(c)
    requires StripNewlines(rest) == rest
    ensures StripNewlines(t + rest) == t + rest
    ensures rest == "" ==> StripNewlines(t) == t
  {
    if t == "" {
      assert t + rest == rest;
    } else {
      assert (t + rest)[1..] == t[1..] + rest;
      StripKeepsQuantum(t[1..], rest);
    }
  }

  // The sextets cut from the bytes pack into the same bytes.
  lemma PackFirst(b0: byte, high: int)
    requires 0 <= high < 16
    ensures Byte0(b0 / 4, b0 % 4 * 16 + high) == b0
  {
  }

  lemma PackSecond(b0: byte, b1: byte, high: int)
    requires 0 <= high < 4
    ensures Byte1(b0 % 4 * 16 + b1 / 16, b1 % 16 * 4 + high) == b1
  {
    assert (b0 % 4 * 16 + b1 / 16) % 16 == b1 / 16;
    assert (b1 % 16 * 4 + high) / 4 == b1 % 16;
  }

  lemma PackThird(b1: byte, b2: byte)
    ensures Byte2(b1 % 16 * 4 + b2 / 64, b2 % 64) == b2
  {
  }

  lemma DecodeTwoSextets(a: Alphabet, v0: sextet, v1: sextet)
    requires a.Sound()
    ensures DecodeQuanta(a, [a.symbol(v0), a.symbol(v1), '=', '=']) == Some([Byte0(v0, v1)])
  {
    var t := [a.symbol(v0), a.symbol(v1), '=', '='];
    assert a.value(t[0]) == Some(v0) && a.value(t[1]) == Some(v1) && a.value(t[2]) == None;
  }

  lemma DecodeThreeSextets(a: Alphabet, v0: sextet, v1: sextet, v2: sextet)
    requires a.Sound()
    ensures DecodeQuanta(a, [a.symbol(v0), a.symbol(v1), a.symbol(v2), '=']) == Some([Byte0(v0, v1), Byte1(v1, v2)])
  {
    var t := [a.symbol(v0), a.symbol(v1), a.symbol(v2), '='];
    assert a.value(t[0]) == Some(v0) && a.value(t[1]) == Some(v1) && a.value(t[2]) == Some(v2) && a.value(t[3]) == None;
  }

  lemma DecodeFourSextets(a: Alphabet, v0: sextet, v1: sextet, v2: sextet, v3: sextet, rest: string)
    requires a.Sound() && DecodeQuanta(a, rest).Some?
    ensures DecodeQuanta(a, [a.symbol(v0), a.symbol(v1), a.symbol(v2), a.symbol(v3)] + rest)
         == Some([Byte0(v0, v1), Byte1(v1, v2), Byte2(v2, v3)] + DecodeQuanta(a, rest).value)
  {
    var t := [a.symbol(v0), a.symbol(v1), a.symbol(v2), a.symbol(v3)] + rest;
    assert a.value(t[0]) == Some(v0) && a.value(t[1]) == Some(v1) && a.value(t[2]) == Some(v2)
           && a.value(t[3]) == Some(v3);
    assert t[4..] == rest;
  }

  lemma DecodeOneByte(a: Alphabet, b0: byte)
    requires a.Sound()
    ensures DecodeQuanta(a, EncodeOne(a, b0)) == Some([b0])
  {
    PackFirst(b0, 0);
    DecodeTwoSextets(a, b0 / 4, b0 % 4 * 16);
  }

  lemma DecodeTwoBytes(a: Alphabet, b0: byte, b1: byte)
    requires a.Sound()
    ensures DecodeQuanta(a, EncodeTwo(a, b0, b1)) == Some([b0, b1])
  {
    PackFirst(b0, b1 / 16);
    PackSecond(b0, b1, 0);
    DecodeThreeSextets(a, b0 / 4, b0 % 4 * 16 + b1 / 16, b1 % 16 * 4);
  }

  lemma DecodeThreeBytes(a: Alphabet, b0: byte, b1: byte, b2: byte, rest: string)
    requires a.Sound() && DecodeQuanta(a, rest).Some?
    ensures DecodeQuanta(a, EncodeThree(a, b0, b1, b2) + rest) == Some([b0, b1, b2] + DecodeQuanta(a, rest).value)
  {
    PackFirst(b0, b1 / 16);
    PackSecond(b0, b1, b2 / 64);
    PackThird(b1, b2);
    DecodeFourSextets(a, b0 / 4, b0 % 4 * 16 + b1 / 16, b1 % 16 * 4 + b2 / 64, b2 % 64, rest);
  }

  lemma DecodeOneMore(a: Alphabet, b: seq<byte>)
    requires a.Sound() && |b| > 2 && DecodeQuanta(a, EncodeWith(a, b[3..])) == Some(b[3..])
    ensures DecodeQuanta(a, EncodeWith(a, b)) == Some(b)
  {
    var rest := b[3..];
    assert EncodeWith(a, b) == EncodeThree(a, b[0], b[1], b[2]) + EncodeWith(a, rest);
    DecodeThreeBytes(a, b[0], b[1], b[2], EncodeWith(a, rest));
    assert b == [b[0], b[1], b[2]] + rest;
  }

  lemma {:induction false} DecodeQuantaEncode(a: Alphabet, b: seq<byte>)
    requires a.Sound()
    ensures DecodeQuanta(a, EncodeWith(a, b)) == Some(b)
  {
    if |b| == 1 {
      DecodeOneByte(a, b[0]);
      assert b == [b[0]];
    } else if |b| == 2 {
      DecodeTwoBytes(a, b[0], b[1]);
      assert b == [b[0], b[1]];
    } else if |b| > 2 {
      DecodeQuantaEncode(a, b[3..]);
      DecodeOneMore(a, b);
    }
  }

  // Table 1 of RFC 4648.
  function Symbol(s: sextet): char {
    if s < 26 then 'A' + s as char
    else if s < 52 then 'a' + (s - 26) as char
    else if s < 62 then '0' + (s - 52) as char
    else if s == 62 then '+'
    else '/'
  }

  function Value(c: char): Option<sextet> {
    if 'A' <= c <= 'Z' then Some(c as int - 'A' as int)
    else if 'a' <= c <= 'z' then Some(c as int - 'a' as int + 26)
    else if '0' <= c <= '9' then Some(c as int - '0' as int + 52)
    else if c == '+' then Some(62)
    else if c == '/' then Some(63)
    else None
  }

  function Std(): Alphabet {
    Alphabet((s: sextet) => Symbol(s), (c: char) => Value(c))
  }

  function Encode(b: seq<byte>): string { EncodeWith(Std(), b) }

  function Decode(text: string): Option<seq<byte>> {
    DecodeQuanta(Std(), StripNewlines(text))
  }

  lemma SymbolHasValue(s: sextet)
    ensures Value(Symbol(s)) == Some(s) && !IsNewline(Symbol(s))
  {
  }

  lemma StdIsSound()
    ensures Std().Sound()
  {
    forall s: sextet ensures Std().value(Std().symbol(s)) == Some(s) && !IsNewline(Std().symbol(s)) {
      SymbolHasValue(s);
    }
  }

  /** Decoding undoes encoding, for every byte sequence. */
  lemma DecodeEncode(b: seq<byte>)
    ensures Decode(Encode(b)) == Some(b)
  {
    StdIsSound();
    EncodeIsOneLine(Std(), b);
    DecodeQuantaEncode(Std(), b);
  }

  // ---------- the standard ----------

  // Table 1 of RFC 4648, as a text.
  const TABLE := "ABCDEFGHIJKLMNOPQRSTUVWXYZabcdefghijklmnopqrstuvwxyz0123456789+/"

  lemma UpperCaseOfTable(s: sextet)
    requires s < 26
    ensures TABLE[s] == "ABCDEFGHIJKLMNOPQRSTUVWXYZ"[s] == Symbol(s)
  {
  }

  lemma LowerCaseOfTable(s: sextet)
    requires 26 <= s < 52
    ensures TABLE[s] == Symbol(s)
  {
  }

  lemma DigitsOfTable(s: sextet)
    requires 52 <= s
    ensures TABLE[s] == Symbol(s)
  {
  }

  /** The alphabet is the standard one. */
  lemma AlphabetIsStandard(s: sextet)
    ensures |TABLE| == 64 && Std().symbol(s) == TABLE[s]
  {
    if s < 26 {
      UpperCaseOfTable(s);
    } else if s < 52 {
      LowerCaseOfTable(s);
    } else {
      DigitsOfTable(s);
    }
  }

  // The number that four sextets write.
  function Number(s0: sextet, s1: sextet, s2: sextet, s3: sextet): nat { ((s0 * 64 + s1) * 64 + s2) * 64 + s3 }

  // The text of four sextets.
  function Quantum(a: Alphabet, s0: sextet, s1: sextet, s2: sextet, s3: sextet): string {
    [a.symbol(s0), a.symbol(s1), a.symbol(s2), a.symbol(s3)]
  }

  /**
   Three bytes are written as the four sextets of their 24-bit number, the first byte highest. One byte and two bytes
   are written as if zero bytes followed, with padding for the sextets that hold nothing else.
   */
  lemma QuantumIsNumber(a: Alphabet, b0: byte, b1: byte, b2: byte)
    returns (s0: sextet, s1: sextet, s2: sextet, s3: sextet)
    ensures Number(s0, s1, s2, s3) == (b0 * 256 + b1) * 256 + b2
    ensures EncodeWith(a, [b0, b1, b2]) == Quantum(a, s0, s1, s2, s3)
    ensures b2 == 0 ==> EncodeWith(a, [b0, b1]) == [a.symbol(s0), a.symbol(s1), a.symbol(s2), '=']
    ensures b2 == 0 && b1 == 0 ==> EncodeWith(a, [b0]) == [a.symbol(s0), a.symbol(s1), '=', '=']
  {
    s0, s1, s2, s3 := b0 / 4, b0 % 4 * 16 + b1 / 16, b1 % 16 * 4 + b2 / 64, b2 % 64;
    assert [b0, b1, b2][3..] == [];
    assert EncodeThree(a, b0, b1, b2) + "" == EncodeThree(a, b0, b1, b2);
  }

  lemma {:induction false} StripJoins(a: string, b: string)
    ensures StripNewlines(a + b) == StripNewlines(a) + StripNewlines(b)
  {
    if a == "" {
      assert a + b == b;
    } else {
      StripJoins(a[1..], b);
      assert (a + b)[0] == a[0] && (a + b)[1..] == a[1..] + b;
      assert [a[0]] + (StripNewlines(a[1..]) + StripNewlines(b)) == ([a[0]] + StripNewlines(a[1..])) + StripNewlines(b);
    }
  }

  /** Line breaks anywhere in a text change nothing for the decoder. */
  lemma LineBreaksAreIgnored(a: string, b: string)
    ensures Decode(a + "\n" + b) == Decode(a + b) && Decode(a + "\r" + b) == Decode(a + b)
  {
    StripJoins(a, b);
    StripJoins(a, "\n" + b);
    StripJoins(a, "\r" + b);
    assert ("\n" + b)[1..] == b && ("\r" + b)[1..] == b;
    assert a + "\n" + b == a + ("\n" + b) && a + "\r" + b == a + ("\r" + b);
  }

  /** A text that decodes has, besides line breaks, whole quanta, and three bytes for each but for the padding. */
  lemma {:induction false} DecodedLength(a: Alphabet, t: string)
    requires DecodeQuanta(a, t).Some?
    ensures |t| % 4 == 0
    ensures 3 * |t| - 8 <= 4 * |DecodeQuanta(a, t).value| <= 3 * |t|
  {
    if |t| > 4 {
      FirstQuantum(a, t);
      DecodedLength(a, t[4..]);
      assert |t| == |t[4..]| + 4;
    } else if t != [] {
      OnlyQuantum(a, t);
    }
  }

  lemma FirstQuantum(a: Alphabet, t: string)
    requires |t| > 4 && DecodeQuanta(a, t).Some?
    ensures DecodeQuanta(a, t[4..]).Some? && |DecodeQuanta(a, t).value| == 3 + |DecodeQuanta(a, t[4..]).value|
  {
  }

  lemma OnlyQuantum(a: Alphabet, t: string)
    requires 0 < |t| <= 4 && DecodeQuanta(a, t).Some?
    ensures |t| == 4 && 1 <= |DecodeQuanta(a, t).value| <= 3
  {
  }

  // Whole quanta of symbols, but that the last symbol or the last two may be padding.
  ghost predicate WellFormed(a: Alphabet, t: string) {
    && |t| % 4 == 0
    && (forall i :: 0 <= i < |t| - 2 ==> a.value(t[i]).Some?)
    && (t != "" ==> a.value(t[|t| - 2]).Some? || (t[|t| - 2] == '=' && t[|t| - 1] == '='))
    && (t != "" ==> a.value(t[|t| - 1]).Some? || t[|t| - 1] == '=')
  }

  lemma WellFormedRest(a: Alphabet, t: string)
    requires |t| > 4
    ensures WellFormed(a, t) <==> WellFormed(a, t[4..]) && forall i :: 0 <= i < 4 ==> a.value(t[i]).Some?
  {
    var rest := t[4..];
    assert |rest| % 4 == 0 <==> |t| % 4 == 0;
    if WellFormed(a, rest) && forall i :: 0 <= i < 4 ==> a.value(t[i]).Some? {
      forall i | 0 <= i < |t| - 2 ensures a.value(t[i]).Some? {
        if i >= 4 {
          assert rest[i - 4] == t[i];
        }
      }
    }
    if WellFormed(a, t) {
      forall i | 0 <= i < |rest| - 2 ensures a.value(rest[i]).Some? {
        assert rest[i] == t[i + 4];
      }
    }
  }

  lemma LongDecodesIff(a: Alphabet, t: string)
    requires |t| > 4 && a.value('=') == None
    ensures DecodeQuanta(a, t).Some? <==>
              DecodeQuanta(a, t[4..]).Some? && forall i :: 0 <= i < 4 ==> a.value(t[i]).Some?
  {
    assert a.value(t[0]).Some? && a.value(t[1]).Some? && a.value(t[2]).Some? && a.value(t[3]).Some? <==>
           forall i :: 0 <= i < 4 ==> a.value(t[i]).Some?;
  }

  lemma ShortDecodesIff(a: Alphabet, t: string)
    requires |t| <= 4 && a.value('=') == None
    ensures DecodeQuanta(a, t).Some? <==> WellFormed(a, t)
  {
    if |t| == 4 {
      assert t[4..] == "";
      assert WellFormed(a, t) ==> a.value(t[0]).Some? && a.value(t[1]).Some?;
    }
  }

  /** A text decodes exactly if it consists, besides line breaks, of whole quanta with padding only at the end. */
  lemma {:induction false} DecodesIff(a: Alphabet, t: string)
    requires a.value('=') == None
    ensures DecodeQuanta(a, t).Some? <==> WellFormed(a, t)
  {
    if |t| > 4 {
      DecodesIff(a, t[4..]);
      LongDecodesIff(a, t);
      WellFormedRest(a, t);
    } else {
      ShortDecodesIff(a, t);
    }
  }
}
