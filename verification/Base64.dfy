/** Base 64 as in section 4 of RFC 4648, and the bounded decoder of captured templates. */
module Base64 {
  import opened Identifiers
  import opened Text

  type Byte = x: int | 0 <= x < 256

  type Sextet = x: int | 0 <= x < 64

  function Digit(v: Sextet): char {
    if v < 26 then ('A' as int + v) as char
    else if v < 52 then ('a' as int + v - 26) as char
    else if v < 62 then ('0' as int + v - 52) as char
    else if v == 62 then '+' else '/'
  }

  /** The alphabets of sections 4 and 5. */
  function Sextets(c: char, url: bool): Option<Sextet> {
    if IsUpper(c) then Some(c as int - 'A' as int)
    else if IsLower(c) then Some(c as int - 'a' as int + 26)
    else if IsDigit(c) then Some(c as int - '0' as int + 52)
    else if c == (if url then '-' else '+') then Some(62)
    else if c == (if url then '_' else '/') then Some(63)
    else None
  }

  lemma DigitReads(v: Sextet)
    ensures Sextets(Digit(v), false) == Some(v) && Digit(v) != '=' && !IsSpace(Digit(v))
  {}

  function Encode(p: seq<Byte>): string {
    if |p| == 0 then ""
    else if |p| == 1 then [Digit(p[0] / 4), Digit(p[0] % 4 * 16), '=', '=']
    else if |p| == 2 then [Digit(p[0] / 4), Digit(p[0] % 4 * 16 + p[1] / 16), Digit(p[1] % 16 * 4), '=']
    else
      [Digit(p[0] / 4), Digit(p[0] % 4 * 16 + p[1] / 16), Digit(p[1] % 16 * 4 + p[2] / 64), Digit(p[2] % 64)]
      + Encode(p[3..])
  }

  function EncodedLen(n: nat): nat { (n + 2) / 3 * 4 }

  /** One, two or three bytes from two, three or four digits; bits left over are ignored. */
  function Quantum(digits: string, url: bool): Option<seq<Byte>>
    requires 2 <= |digits| <= 4
  {
    var a, b := Sextets(digits[0], url), Sextets(digits[1], url);
    if a.None? || b.None? then None
    else if |digits| == 2 then Some([a.value * 4 + b.value / 16])
    else
      var c := Sextets(digits[2], url);
      if c.None? then None
      else if |digits| == 3 then Some([a.value * 4 + b.value / 16, b.value % 16 * 16 + c.value / 4])
      else
        var d := Sextets(digits[3], url);
        if d.None? then None
        else Some([a.value * 4 + b.value / 16, b.value % 16 * 16 + c.value / 4, c.value % 4 * 64 + d.value])
  }

  /** The digits of the last quantum without its padding. */
  function Unpadded(s: string): string
    requires |s| == 4
  {
    if s[3] != '=' then s else if s[2] != '=' then s[..3] else s[..2]
  }

  function Decode(s: string, url: bool, padded: bool): Option<seq<Byte>> {
    if s == "" then Some([])
    else if |s| <= 4 then
      if padded then if |s| == 4 then Quantum(Unpadded(s), url) else None
      else if |s| >= 2 then Quantum(s, url) else None
    else
      var first, rest := Quantum(s[..4], url), Decode(s[4..], url, padded);
      if first.None? || rest.None? then None else Some(first.value + rest.value)
  }

  lemma {:induction false} EncodedIsText(p: seq<Byte>)
    ensures |Encode(p)| == EncodedLen(|p|)
    ensures forall c | c in Encode(p) :: !IsSpace(c)
  {
    if |p| == 0 {
    } else if |p| <= 2 {
      forall v: Sextet ensures !IsSpace(Digit(v)) { DigitReads(v); }
    } else {
      forall v: Sextet ensures !IsSpace(Digit(v)) { DigitReads(v); }
      EncodedIsText(p[3..]);
    }
  }

  lemma QuantumReads(a: Byte, b: Byte, c: Byte)
    ensures Quantum([Digit(a / 4), Digit(a % 4 * 16 + b / 16), Digit(b % 16 * 4 + c / 64), Digit(c % 64)], false)
      == Some([a, b, c])
  {
    Bits(a, b, c);
    FourRead(a / 4, a % 4 * 16 + b / 16, b % 16 * 4 + c / 64, c % 64);
    hide Digit, Quantum;
  }

  lemma FourRead(w: Sextet, x: Sextet, y: Sextet, z: Sextet)
    ensures Quantum([Digit(w), Digit(x), Digit(y), Digit(z)], false)
      == Some([w * 4 + x / 16, x % 16 * 16 + y / 4, y % 4 * 64 + z])
  {
    DigitReads(w);
    DigitReads(x);
    DigitReads(y);
    DigitReads(z);
    hide Digit, Sextets;
  }

  lemma Bits(a: Byte, b: Byte, c: Byte)
    ensures a / 4 * 4 + (a % 4 * 16 + b / 16) / 16 == a
    ensures (a % 4 * 16 + b / 16) % 16 * 16 + (b % 16 * 4 + c / 64) / 4 == b
    ensures (b % 16 * 4 + c / 64) % 4 * 64 + c % 64 == c
  {}

  lemma LastQuantumReads(a: Byte, b: Byte)
    ensures Quantum([Digit(a / 4), Digit(a % 4 * 16)], false) == Some([a])
    ensures Quantum([Digit(a / 4), Digit(a % 4 * 16 + b / 16), Digit(b % 16 * 4)], false) == Some([a, b])
  {
    DigitReads(a / 4);
    DigitReads(a % 4 * 16);
    DigitReads(a % 4 * 16 + b / 16);
    DigitReads(b % 16 * 4);
    hide Digit, Sextets;
  }

  /** Decoding what was encoded gives it back. */
  lemma {:induction false} EncodedDecodes(p: seq<Byte>)
    ensures Decode(Encode(p), false, true) == Some(p)
  {
    var s := Encode(p);
    hide Quantum, Digit;
    if |p| == 0 {
    } else if |p| == 1 {
      LastQuantumReads(p[0], 0);
      assert Unpadded(s) == [Digit(p[0] / 4), Digit(p[0] % 4 * 16)];
      assert p == [p[0]];
    } else if |p| == 2 {
      LastQuantumReads(p[0], p[1]);
      DigitReads(p[1] % 16 * 4);
      assert Unpadded(s) == [Digit(p[0] / 4), Digit(p[0] % 4 * 16 + p[1] / 16), Digit(p[1] % 16 * 4)];
      assert p == [p[0], p[1]];
    } else {
      var first :=
        [Digit(p[0] / 4), Digit(p[0] % 4 * 16 + p[1] / 16), Digit(p[1] % 16 * 4 + p[2] / 64), Digit(p[2] % 64)];
      QuantumReads(p[0], p[1], p[2]);
      DigitReads(p[2] % 64);
      assert s == first + Encode(p[3..]) && s[..4] == first && s[4..] == Encode(p[3..]);
      assert p == [p[0], p[1], p[2]] + p[3..];
      EncodedDecodes(p[3..]);
      if |p| == 3 {
        assert Encode(p[3..]) == "" && s == first && Unpadded(s) == first;
        assert p == [p[0], p[1], p[2]];
      } else {
        EncodedIsText(p[3..]);
      }
    }
  }

  // ---------- the bounded decoder ----------

  datatype Decoded = Bytes(bytes: seq<Byte>) | TooLarge | Empty | Malformed

  /** The decoders of the source skip line breaks. */
  function Joined(s: string): string {
    if s == "" then ""
    else if s[0] == '\r' || s[0] == '\n' then Joined(s[1..])
    else [s[0]] + Joined(s[1..])
  }

  lemma {:induction false} JoinedIsItself(s: string)
    requires forall c | c in s :: !IsSpace(c)
    ensures Joined(s) == s
  {
    if s != "" {
      assert s[0] in s;
      JoinedIsItself(s[1..]);
      assert s == [s[0]] + s[1..];
    }
  }

  /** What the first encoding that accepts the text makes of it. */
  function FirstDecoding(s: string): Option<seq<Byte>> {
    if Decode(s, false, true).Some? then Decode(s, false, true)
    else if Decode(s, false, false).Some? then Decode(s, false, false)
    else if Decode(s, true, true).Some? then Decode(s, true, true)
    else Decode(s, true, false)
  }

  function Bounded(encoded: string, limit: nat): Decoded {
    var s := TrimSpace(encoded);
    if |s| > EncodedLen(limit) + 2 then TooLarge
    else
      match FirstDecoding(Joined(s))
      case None => Malformed
      case Some(bytes) => if bytes == [] then Empty else if |bytes| > limit then TooLarge else Bytes(bytes)
  }

  lemma FirstIs(s: string, encodings: seq<(bool, bool)>, k: nat)
    requires encodings == [(false, true), (false, false), (true, true), (true, false)] && k < 4
    requires forall j | 0 <= j < k :: Decode(s, encodings[j].0, encodings[j].1).None?
    requires Decode(s, encodings[k].0, encodings[k].1).Some?
    ensures FirstDecoding(s) == Decode(s, encodings[k].0, encodings[k].1)
  {
    hide Decode;
    if k > 0 { assert Decode(s, encodings[0].0, encodings[0].1).None?; }
    if k > 1 { assert Decode(s, encodings[1].0, encodings[1].1).None?; }
    if k > 2 { assert Decode(s, encodings[2].0, encodings[2].1).None?; }
  }

  /** decodeBoundedBiometric */
  method DecodeBounded(encoded: string, limit: nat) returns (decoded: Decoded)
    ensures decoded == Bounded(encoded, limit)
  {
    var source := TrimSpace(encoded);
    if |source| > EncodedLen(limit) + 2 {
      return TooLarge;
    }
    var text := Joined(source);
    var encodings := [(false, true), (false, false), (true, true), (true, false)];
    for k := 0 to |encodings|
      invariant forall j | 0 <= j < k :: Decode(text, encodings[j].0, encodings[j].1).None?
    {
      var bytes := Decode(text, encodings[k].0, encodings[k].1);
      if bytes.Some? {
        FirstIs(text, encodings, k);
        if |bytes.value| == 0 {
          return Empty;
        }
        if |bytes.value| > limit {
          return TooLarge;
        }
        return Bytes(bytes.value);
      }
    }
    assert Decode(text, encodings[0].0, encodings[0].1).None? && Decode(text, encodings[1].0, encodings[1].1).None?;
    assert Decode(text, encodings[2].0, encodings[2].1).None? && Decode(text, encodings[3].0, encodings[3].1).None?;
    decoded := Malformed;
  }

  /** Within the limit the decoder gives back what was encoded, and beyond it never anything. */
  lemma BoundedReads(p: seq<Byte>, limit: nat)
    requires p != []
    ensures Bounded(Encode(p), limit) == if |p| <= limit then Bytes(p) else TooLarge
  {
    EncodedDecodes(p);
    EncodedIsText(p);
    var s := Encode(p);
    JoinedIsItself(s);
    assert s[0] in s && s[|s| - 1] in s;
    hide Encode, Decode;
    TrimNothing(s);
  }

  /** Encoded bytes read back from a text that is broken into lines, if that is not too long. */
  lemma BrokenTextReads(encoded: string, p: seq<Byte>, limit: nat)
    requires Joined(TrimSpace(encoded)) == Encode(p) && 0 < |p| <= limit
      && |TrimSpace(encoded)| <= EncodedLen(limit) + 2
    ensures Bounded(encoded, limit) == Bytes(p)
  {
    EncodedDecodes(p);
    hide Decode, Encode, Joined, TrimSpace;
  }
}
