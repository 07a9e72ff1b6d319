/** The four encodings that the bounded decoder tries: two alphabets, with and without padding. */
module Base64Forms {
  import opened Identifiers
  import opened Text
  import opened Base64

  /** Sections 4 and 5 of RFC 4648 differ in the last two digits. */
  function DigitOf(v: Sextet, url: bool): char {
    if url && v == 62 then '-' else if url && v == 63 then '_' else Digit(v)
  }

  /** The digits of table 1 of RFC 4648: A to Z, a to z, 0 to 9, + and /; table 2 ends in - and _. */
  lemma DigitsAre(v: Sextet, url: bool)
    ensures DigitOf(0, url) == 'A' && DigitOf(26, url) == 'a' && DigitOf(52, url) == '0'
    ensures DigitOf(62, url) == (if url then '-' else '+') && DigitOf(63, url) == (if url then '_' else '/')
    ensures v < 25 || 26 <= v < 51 || 52 <= v < 61 ==> DigitOf(v + 1, url) as int == DigitOf(v, url) as int + 1
  {}

  function Padding(n: nat, padded: bool): string { if padded then seq(n, _ => '=') else "" }

  function EncodeAs(p: seq<Byte>, url: bool, padded: bool): string {
    if |p| == 0 then ""
    else if |p| == 1 then [DigitOf(p[0] / 4, url), DigitOf(p[0] % 4 * 16, url)] + Padding(2, padded)
    else if |p| == 2 then
      [DigitOf(p[0] / 4, url), DigitOf(p[0] % 4 * 16 + p[1] / 16, url), DigitOf(p[1] % 16 * 4, url)]
      + Padding(1, padded)
    else
      Three(p[0], p[1], p[2], url) + EncodeAs(p[3..], url, padded)
  }

  function Three(a: Byte, b: Byte, c: Byte, url: bool): string {
    [DigitOf(a / 4, url), DigitOf(a % 4 * 16 + b / 16, url), DigitOf(b % 16 * 4 + c / 64, url), DigitOf(c % 64, url)]
  }

  /** A decoder may refuse the text, but does not read anything else into it; the right one reads it. */
  predicate ReadsOnly<T(==)>(got: Option<T>, want: T, right: bool) {
    (got.None? || got == Some(want)) && (right ==> got.Some?)
  }

  lemma DigitForms(v: Sextet, url: bool, other: bool)
    ensures ReadsOnly(Sextets(DigitOf(v, url), other), v, url == other)
    ensures DigitOf(v, url) != '=' && !IsSpace(DigitOf(v, url))
  {
    DigitReads(v);
  }

  lemma FourForms(w: Sextet, x: Sextet, y: Sextet, z: Sextet, url: bool, other: bool)
    ensures var s := [DigitOf(w, url), DigitOf(x, url), DigitOf(y, url), DigitOf(z, url)];
      && ReadsOnly(Quantum(s, other), [w * 4 + x / 16, x % 16 * 16 + y / 4, y % 4 * 64 + z], url == other)
      && s[3] != '='
  {
    DigitForms(w, url, other);
    DigitForms(x, url, other);
    DigitForms(y, url, other);
    DigitForms(z, url, other);
    hide DigitOf, Sextets;
  }

  lemma ThreeDigitForms(w: Sextet, x: Sextet, y: Sextet, url: bool, other: bool)
    ensures var s := [DigitOf(w, url), DigitOf(x, url), DigitOf(y, url)];
      ReadsOnly(Quantum(s, other), [w * 4 + x / 16, x % 16 * 16 + y / 4], url == other) && s[2] != '='
    ensures ReadsOnly(Quantum([DigitOf(w, url), DigitOf(x, url)], other), [w * 4 + x / 16], url == other)
  {
    DigitForms(w, url, other);
    DigitForms(x, url, other);
    DigitForms(y, url, other);
    hide DigitOf, Sextets;
  }

  lemma ThreeForms(a: Byte, b: Byte, c: Byte, url: bool, other: bool)
    ensures ReadsOnly(Quantum(Three(a, b, c, url), other), [a, b, c], url == other) && Three(a, b, c, url)[3] != '='
  {
    hide DigitOf, Quantum;
    var w: Sextet, x: Sextet, y: Sextet, z: Sextet := a / 4, a % 4 * 16 + b / 16, b % 16 * 4 + c / 64, c % 64;
    FourForms(w, x, y, z, url, other);
    assert [w * 4 + x / 16, x % 16 * 16 + y / 4, y % 4 * 64 + z] == [a, b, c] by { Bits(a, b, c); }
    assert Three(a, b, c, url) == [DigitOf(w, url), DigitOf(x, url), DigitOf(y, url), DigitOf(z, url)];
    hide Three, ReadsOnly;
  }

  lemma LastBits(a: Byte, b: Byte)
    ensures a / 4 * 4 + a % 4 * 16 / 16 == a
    ensures a / 4 * 4 + (a % 4 * 16 + b / 16) / 16 == a
    ensures (a % 4 * 16 + b / 16) % 16 * 16 + b % 16 * 4 / 4 == b
  {}

  lemma FewForms(a: Byte, b: Byte, url: bool, other: bool)
    ensures ReadsOnly(Quantum([DigitOf(a / 4, url), DigitOf(a % 4 * 16, url)], other), [a], url == other)
    ensures var s := [DigitOf(a / 4, url), DigitOf(a % 4 * 16 + b / 16, url), DigitOf(b % 16 * 4, url)];
      ReadsOnly(Quantum(s, other), [a, b], url == other) && s[2] != '='
  {
    hide DigitOf, Quantum;
    var w: Sextet, v: Sextet, x: Sextet, y: Sextet := a / 4, a % 4 * 16, a % 4 * 16 + b / 16, b % 16 * 4;
    ThreeDigitForms(w, v, y, url, other);
    ThreeDigitForms(w, x, y, url, other);
    assert [w * 4 + v / 16] == [a] && [w * 4 + x / 16, x % 16 * 16 + y / 4] == [a, b] by { LastBits(a, b); }
    hide ReadsOnly;
  }

  lemma PaddingIsNoDigit(a: char, b: char, c: char, url: bool)
    ensures Quantum([a, b, c, '='], url).None?
  {}

  lemma OneForms(a: Byte, url: bool, padded: bool, asUrl: bool, asPadded: bool)
    ensures ReadsOnly(Decode(EncodeAs([a], url, padded), asUrl, asPadded), [a], url == asUrl && padded == asPadded)
  {
    var x, y := DigitOf(a / 4, url), DigitOf(a % 4 * 16, url);
    FewForms(a, 0, url, asUrl);
    PaddingIsNoDigit(x, y, '=', asUrl);
    assert EncodeAs([a], url, padded) == if padded then [x, y, '=', '='] else [x, y];
    assert [x, y, '=', '='][..2] == [x, y];
    hide DigitOf, Quantum;
  }

  lemma TwoForms(a: Byte, b: Byte, url: bool, padded: bool, asUrl: bool, asPadded: bool)
    ensures ReadsOnly(Decode(EncodeAs([a, b], url, padded), asUrl, asPadded), [a, b],
      url == asUrl && padded == asPadded)
  {
    var x, y, z := DigitOf(a / 4, url), DigitOf(a % 4 * 16 + b / 16, url), DigitOf(b % 16 * 4, url);
    FewForms(a, b, url, asUrl);
    PaddingIsNoDigit(x, y, z, asUrl);
    assert EncodeAs([a, b], url, padded) == if padded then [x, y, z, '='] else [x, y, z];
    assert [x, y, z, '='][..3] == [x, y, z];
    hide DigitOf, Quantum;
  }

  lemma {:induction false} LongerForms(p: seq<Byte>, url: bool, padded: bool)
    ensures p == [] <==> EncodeAs(p, url, padded) == ""
    ensures |EncodeAs(p, url, padded)| <= EncodedLen(|p|)
  {
    hide DigitOf;
    if |p| >= 3 { LongerForms(p[3..], url, padded); }
  }

  lemma {:induction false} FormsAreText(p: seq<Byte>, url: bool, padded: bool)
    ensures forall c | c in EncodeAs(p, url, padded) :: !IsSpace(c)
  {
    forall v: Sextet ensures !IsSpace(DigitOf(v, url)) { DigitForms(v, url, url); }
    hide DigitOf;
    if |p| >= 3 { FormsAreText(p[3..], url, padded); }
  }

  /** Every decoder refuses the text or reads the bytes, and the right one reads them. */
  lemma {:induction false} FormsDecode(p: seq<Byte>, url: bool, padded: bool, asUrl: bool, asPadded: bool)
    ensures ReadsOnly(Decode(EncodeAs(p, url, padded), asUrl, asPadded), p, url == asUrl && padded == asPadded)
  {
    if |p| == 0 {
    } else if |p| == 1 {
      assert p == [p[0]];
      OneForms(p[0], url, padded, asUrl, asPadded);
    } else if |p| == 2 {
      assert p == [p[0], p[1]];
      TwoForms(p[0], p[1], url, padded, asUrl, asPadded);
    } else {
      var first, rest := Three(p[0], p[1], p[2], url), EncodeAs(p[3..], url, padded);
      ThreeForms(p[0], p[1], p[2], url, asUrl);
      FormsDecode(p[3..], url, padded, asUrl, asPadded);
      LongerForms(p[3..], url, padded);
      assert p == [p[0], p[1], p[2]] + p[3..];
      assert (first + rest)[..4] == first && (first + rest)[4..] == rest;
      FirstQuantum(first, rest, asUrl, asPadded);
      hide Three, Quantum, Decode;
    }
  }

  lemma FirstQuantum(first: string, rest: string, url: bool, padded: bool)
    requires |first| == 4 && first[3] != '='
    ensures var q, r := Quantum(first, url), Decode(rest, url, padded);
      Decode(first + rest, url, padded) == if q.None? || r.None? then None else Some(q.value + r.value)
  {
    var s := first + rest;
    assert s[..4] == first && s[4..] == rest;
    if rest == "" {
      assert s == first;
      if Quantum(first, url).Some? { assert Quantum(first, url).value + [] == Quantum(first, url).value; }
    }
    hide Quantum;
  }

  /** The bounded decoder reads the bytes from any of their four encodings, within the limit. */
  lemma AnyFormReads(p: seq<Byte>, url: bool, padded: bool, limit: nat)
    requires p != []
    ensures |p| <= limit ==> Bounded(EncodeAs(p, url, padded), limit) == Bytes(p)
    ensures |p| > limit ==> Bounded(EncodeAs(p, url, padded), limit) == TooLarge
  {
    var s := EncodeAs(p, url, padded);
    LongerForms(p, url, padded);
    FormsAreText(p, url, padded);
    JoinedIsItself(s);
    assert s[0] in s && s[|s| - 1] in s;
    TrimNothing(s);
    FormsDecode(p, url, padded, false, true);
    FormsDecode(p, url, padded, false, false);
    FormsDecode(p, url, padded, true, true);
    FormsDecode(p, url, padded, true, false);
    hide EncodeAs, Decode, Joined, TrimSpace;
  }
}
