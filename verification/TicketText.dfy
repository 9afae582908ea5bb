/** The text forms an admission ticket is made of: unpadded base64url (section 5 of RFC 4648)
    and JSON strings and numbers (sections 6 and 7 of RFC 8259) as the encoder writes them. */
module TicketText {
  import opened Basics

  type byte = x: int | 0 <= x < 256

  type Bytes = seq<byte>

  // ---- base64url ------------------------------------------------------------------------------

  predicate Sextet(v: int) {
    0 <= v < 64
  }

  function Letter(v: int): byte
    requires Sextet(v)
  {
    if v < 26 then 65 + v else if v < 52 then 71 + v else if v < 62 then v - 4 else if v == 62 then 45 else 95
  }

  function Value(b: byte): (r: Option<int>)
    ensures r.Some? ==> Sextet(r.value)
  {
    if 65 <= b <= 90 then Some(b - 65)
    else if 97 <= b <= 122 then Some(b - 71)
    else if 48 <= b <= 57 then Some(b + 4)
    else if b == 45 then Some(62)
    else if b == 95 then Some(63)
    else None
  }

  lemma LetterValue(v: int)
    requires Sextet(v)
    ensures Value(Letter(v)) == Some(v) && Letter(v) != 46 && Letter(v) != 10 && Letter(v) != 13
  {
  }

  /** The four sextets of three bytes. */
  function Top(x: int): int { x / 4 }
  function UpperMiddle(x: int, y: int): int { x % 4 * 16 + y / 16 }
  function LowerMiddle(y: int, z: int): int { y % 16 * 4 + z / 64 }
  function Bottom(z: int): int { z % 64 }

  /** The three bytes of four sextets. */
  function First(a: int, b: int): int { a * 4 + b / 16 }
  function Second(b: int, c: int): int { b % 16 * 16 + c / 4 }
  function Third(c: int, d: int): int { c % 4 * 64 + d }

  lemma Packing(x: int, y: int, z: int)
    requires 0 <= x < 256 && 0 <= y < 256 && 0 <= z < 256
    ensures Sextet(Top(x)) && Sextet(UpperMiddle(x, y)) && Sextet(LowerMiddle(y, z)) && Sextet(Bottom(z))
    ensures First(Top(x), UpperMiddle(x, y)) == x
    ensures Second(UpperMiddle(x, y), LowerMiddle(y, z)) == y
    ensures Third(LowerMiddle(y, z), Bottom(z)) == z
  {
  }

  lemma Unpacking(a: int, b: int, c: int, d: int)
    requires Sextet(a) && Sextet(b) && Sextet(c) && Sextet(d)
    ensures 0 <= First(a, b) < 256 && 0 <= Second(b, c) < 256 && 0 <= Third(c, d) < 256
  {
  }

  /** The letters of up to three bytes; missing bytes count as zero. */
  function Group(x: byte, y: byte, z: byte): Bytes
    ensures |Group(x, y, z)| == 4
  {
    Packing(x, y, z);
    [Letter(Top(x)), Letter(UpperMiddle(x, y)), Letter(LowerMiddle(y, z)), Letter(Bottom(z))]
  }

  function Encode(s: Bytes): Bytes {
    if s == [] then []
    else if |s| == 1 then Group(s[0], 0, 0)[..2]
    else if |s| == 2 then Group(s[0], s[1], 0)[..3]
    else Group(s[0], s[1], s[2]) + Encode(s[3..])
  }

  /** The decoder skips line breaks and ignores the unused bits of the last letter. */
  function Unwrapped(s: Bytes): Bytes {
    if s == [] then [] else (if s[0] == 10 || s[0] == 13 then [] else [s[0]]) + Unwrapped(s[1..])
  }

  /** The bytes of four letters. */
  function Ungroup(p: byte, q: byte, r: byte, t: byte): (out: Option<Bytes>)
    ensures out.Some? ==> |out.value| == 3
  {
    var a, b, c, d := Value(p), Value(q), Value(r), Value(t);
    if a.Some? && b.Some? && c.Some? && d.Some? then
      Unpacking(a.value, b.value, c.value, d.value);
      Some([First(a.value, b.value), Second(b.value, c.value), Third(c.value, d.value)])
    else None
  }

  function Prefix(r: Option<Bytes>, n: nat): Option<Bytes>
    requires r.Some? ==> n <= |r.value|
  {
    if r.Some? then Some(r.value[..n]) else None
  }

  function DecodeLetters(s: Bytes): Option<Bytes> {
    if s == [] then Some([])
    else if |s| == 1 then None
    else if |s| == 2 then Prefix(Ungroup(s[0], s[1], 65, 65), 1)
    else if |s| == 3 then Prefix(Ungroup(s[0], s[1], s[2], 65), 2)
    else
      var head, rest := Ungroup(s[0], s[1], s[2], s[3]), DecodeLetters(s[4..]);
      if head.Some? && rest.Some? then Some(head.value + rest.value) else None
  }

  function Decode(s: Bytes): Option<Bytes> {
    DecodeLetters(Unwrapped(s))
  }

  lemma GroupLetters(x: byte, y: byte, z: byte)
    ensures Lettered(Group(x, y, z))
    ensures var g := Group(x, y, z); Ungroup(g[0], g[1], g[2], g[3]) == Some([x, y, z])
  {
    Packing(x, y, z);
    LetterValue(Top(x));
    LetterValue(UpperMiddle(x, y));
    LetterValue(LowerMiddle(y, z));
    LetterValue(Bottom(z));
  }

  lemma UngroupParts(p: byte, q: byte, r: byte, t: byte, a: int, b: int, c: int)
    requires Value(p) == Some(a) && Value(q) == Some(b) && Value(r) == Some(c) && Value(t).Some?
    ensures Ungroup(p, q, r, t).Some?
    ensures Prefix(Ungroup(p, q, r, t), 1) == Some([First(a, b)])
    ensures Prefix(Ungroup(p, q, r, t), 2) == Some([First(a, b), Second(b, c)])
  {
    var out := Ungroup(p, q, r, t).value;
    assert out[..1] == [out[0]] && out[..2] == [out[0], out[1]];
  }

  /** The letters of the bytes that are not there do not matter. */
  lemma OneByteGroup(x: byte, y: byte, z: byte)
    ensures var g := Group(x, y, z); Prefix(Ungroup(g[0], g[1], 65, 65), 1) == Some([x])
  {
    Packing(x, y, z);
    LetterValue(Top(x));
    LetterValue(UpperMiddle(x, y));
    UngroupParts(Letter(Top(x)), Letter(UpperMiddle(x, y)), 65, 65, Top(x), UpperMiddle(x, y), 0);
  }

  lemma TwoByteGroup(x: byte, y: byte, z: byte)
    ensures var g := Group(x, y, z); Prefix(Ungroup(g[0], g[1], g[2], 65), 2) == Some([x, y])
  {
    Packing(x, y, z);
    LetterValue(Top(x));
    LetterValue(UpperMiddle(x, y));
    LetterValue(LowerMiddle(y, z));
    UngroupParts(Letter(Top(x)), Letter(UpperMiddle(x, y)), Letter(LowerMiddle(y, z)), 65, Top(x), UpperMiddle(x, y), LowerMiddle(y, z));
  }

  predicate Lettered(s: Bytes) {
    forall i | 0 <= i < |s| :: s[i] != 46 && s[i] != 10 && s[i] != 13
  }

  lemma LetteredParts(p: Bytes, q: Bytes, n: nat)
    requires Lettered(p) && Lettered(q) && n <= |p|
    ensures Lettered(p + q) && Lettered(p[..n])
  {
  }

  lemma {:induction false} EncodeIsLettered(s: Bytes)
    ensures Lettered(Encode(s))
  {
    if |s| >= 3 {
      EncodeIsLettered(s[3..]);
      GroupLetters(s[0], s[1], s[2]);
      LetteredParts(Group(s[0], s[1], s[2]), Encode(s[3..]), 4);
    } else if |s| == 2 {
      GroupLetters(s[0], s[1], 0);
      LetteredParts(Group(s[0], s[1], 0), [], 3);
    } else if |s| == 1 {
      GroupLetters(s[0], 0, 0);
      LetteredParts(Group(s[0], 0, 0), [], 2);
    }
  }

  lemma {:induction false} EncodeLength(s: Bytes)
    ensures 3 * |Encode(s)| <= 4 * |s| + 4
  {
    if |s| >= 3 {
      EncodeLength(s[3..]);
    }
  }

  lemma {:induction false} UnwrappedSame(s: Bytes)
    requires Lettered(s)
    ensures Unwrapped(s) == s
  {
    if s != [] {
      UnwrappedSame(s[1..]);
    }
  }

  lemma {:induction false} LettersRoundTrip(s: Bytes)
    ensures DecodeLetters(Encode(s)) == Some(s)
  {
    if |s| >= 3 {
      LettersRoundTrip(s[3..]);
      GroupLetters(s[0], s[1], s[2]);
      GroupThenRest(Group(s[0], s[1], s[2]), Encode(s[3..]), [s[0], s[1], s[2]], s[3..]);
      assert s == [s[0], s[1], s[2]] + s[3..];
    } else if |s| == 2 {
      TwoByteGroup(s[0], s[1], 0);
      assert s == [s[0], s[1]];
    } else if |s| == 1 {
      OneByteGroup(s[0], 0, 0);
      assert s == [s[0]];
    }
  }

  lemma GroupThenRest(g: Bytes, rest: Bytes, head: Bytes, tail: Bytes)
    requires |g| == 4 && Ungroup(g[0], g[1], g[2], g[3]) == Some(head) && DecodeLetters(rest) == Some(tail)
    ensures DecodeLetters(g + rest) == Some(head + tail)
  {
    assert (g + rest)[4..] == rest;
  }

  /** Decoding undoes encoding. */
  lemma Base64RoundTrip(s: Bytes)
    ensures Decode(Encode(s)) == Some(s)
  {
    EncodeIsLettered(s);
    UnwrappedSame(Encode(s));
    LettersRoundTrip(s);
  }

  /** The letters are the URL-safe alphabet of section 5 of RFC 4648: A to Z, a to z, 0 to 9, minus
      and underscore, in this order. */
  lemma LettersAreTheAlphabet(v: int)
    requires 0 <= v < 63
    ensures Letter(0) == 'A' as int && Letter(26) == 'a' as int && Letter(52) == '0' as int && Letter(62) == '-' as int && Letter(63) == '_' as int
    ensures v != 25 && v != 51 && v != 61 && v != 62 ==> Letter(v + 1) == Letter(v) + 1
  {
  }

  /** Four letters spell the number that three bytes spell, most significant first. */
  lemma GroupsKeepTheNumber(x: byte, y: byte, z: byte)
    ensures var g := Group(x, y, z);
            && Value(g[0]).Some? && Value(g[1]).Some? && Value(g[2]).Some? && Value(g[3]).Some?
            && Value(g[0]).value * 262144 + Value(g[1]).value * 4096 + Value(g[2]).value * 64 + Value(g[3]).value == x * 65536 + y * 256 + z
  {
    Packing(x, y, z);
    LetterValue(Top(x));
    LetterValue(UpperMiddle(x, y));
    LetterValue(LowerMiddle(y, z));
    LetterValue(Bottom(z));
  }

  // ---- JSON strings -----------------------------------------------------------------------------

  function HexDigit(v: int): byte
    requires 0 <= v < 16
  {
    if v < 10 then 48 + v else 87 + v
  }

  function HexValue(b: byte): (r: Option<int>)
    ensures r.Some? ==> 0 <= r.value < 16
  {
    if 48 <= b <= 57 then Some(b - 48) else if 97 <= b <= 102 then Some(b - 87) else if 65 <= b <= 70 then Some(b - 55) else None
  }

  /** `\u` and four hexadecimal digits. */
  function UnicodeEscape(code: int): Bytes
    requires 0 <= code < 65536
  {
    [92, 117, HexDigit(code / 16 / 16 / 16), HexDigit(code / 16 / 16 % 16), HexDigit(code / 16 % 16), HexDigit(code % 16)]
  }

  /** U+2028 and U+2029 are escaped too. */
  predicate LineSeparator(s: Bytes) {
    |s| >= 3 && s[0] == 226 && s[1] == 128 && (s[2] == 168 || s[2] == 169)
  }

  function EscapeByte(b: byte): Bytes {
    if b == 34 then [92, 34]
    else if b == 92 then [92, 92]
    else if b == 8 then [92, 98]
    else if b == 12 then [92, 102]
    else if b == 10 then [92, 110]
    else if b == 13 then [92, 114]
    else if b == 9 then [92, 116]
    else if b < 32 || b == 60 || b == 62 || b == 38 then UnicodeEscape(b)
    else [b]
  }

  /** How the next character is written, and how many bytes it took. */
  function Head(s: Bytes): Bytes
    requires s != []
  {
    if LineSeparator(s) then UnicodeEscape(if s[2] == 168 then 8232 else 8233) else EscapeByte(s[0])
  }

  function Taken(s: Bytes): nat
    requires s != []
  {
    if LineSeparator(s) then 3 else 1
  }

  function Escape(s: Bytes): Bytes {
    if s == [] then [] else Head(s) + Escape(s[Taken(s)..])
  }

  lemma {:induction false} EscapeLength(s: Bytes)
    ensures |Escape(s)| <= 6 * |s|
  {
    if s != [] {
      EscapeLength(s[Taken(s)..]);
    }
  }

  /** UTF-8 of a code point of the basic plane. */
  function Utf8(code: int): Bytes
    requires 0 <= code < 65536
  {
    if code < 128 then [code]
    else if code < 2048 then [192 + code / 64, 128 + code % 64]
    else [224 + code / 4096, 128 + code / 64 % 64, 128 + code % 64]
  }

  function ShortEscape(b: byte): Option<byte> {
    if b == 34 || b == 92 || b == 47 then Some(b)
    else if b == 98 then Some(8)
    else if b == 102 then Some(12)
    else if b == 110 then Some(10)
    else if b == 114 then Some(13)
    else if b == 116 then Some(9)
    else None
  }

  function HexCode(p: byte, q: byte, r: byte, t: byte): (out: Option<int>)
    ensures out.Some? ==> 0 <= out.value < 65536
  {
    var a, b, c, d := HexValue(p), HexValue(q), HexValue(r), HexValue(t);
    if a.Some? && b.Some? && c.Some? && d.Some? then Some(a.value * 4096 + b.value * 256 + c.value * 16 + d.value) else None
  }

  /** One unit of a string body: what it stands for and how long it is. */
  function Unit(s: Bytes): (u: Option<(Bytes, nat)>)
    requires s != []
    ensures u.Some? ==> 1 <= u.value.1 <= |s|
  {
    if s[0] != 92 then (if s[0] < 32 || s[0] == 34 then None else Some(([s[0]], 1)))
    else if |s| < 2 then None
    else if s[1] == 117 then
      if |s| < 6 then None
      else
        var code := HexCode(s[2], s[3], s[4], s[5]);
        if code.Some? then Some((Utf8(code.value), 6)) else None
    else
      var b := ShortEscape(s[1]);
      if b.Some? then Some(([b.value], 2)) else None
  }

  /** Reads a string body up to its closing quote: the text and what follows. */
  function Unescape(s: Bytes): Option<(Bytes, Bytes)>
    decreases |s|
  {
    if s == [] then None
    else if s[0] == 34 then Some(([], s[1..]))
    else
      match Unit(s)
      case None => None
      case Some(u) =>
        (match Unescape(s[u.1..])
         case None => None
         case Some(r) => Some((u.0 + r.0, r.1)))
  }

  lemma HexRoundTrip(v: int)
    requires 0 <= v < 16
    ensures HexValue(HexDigit(v)) == Some(v)
  {
  }

  lemma HexCodeOf(code: int)
    requires 0 <= code < 65536
    ensures HexCode(HexDigit(code / 16 / 16 / 16), HexDigit(code / 16 / 16 % 16), HexDigit(code / 16 % 16), HexDigit(code % 16)) == Some(code)
  {
    var q := code / 16;
    var r := q / 16;
    var t := r / 16;
    HexRoundTrip(t);
    HexRoundTrip(r % 16);
    HexRoundTrip(q % 16);
    HexRoundTrip(code % 16);
    assert code == 16 * q + code % 16 && q == 16 * r + q % 16 && r == 16 * t + r % 16;
  }

  lemma UnicodeUnit(code: int, rest: Bytes)
    requires 0 <= code < 65536
    ensures Unit(UnicodeEscape(code) + rest) == Some((Utf8(code), 6))
  {
    HexCodeOf(code);
  }

  lemma ByteUnit(b: byte, rest: Bytes)
    ensures Unit(EscapeByte(b) + rest) == Some(([b], |EscapeByte(b)|))
  {
    if |EscapeByte(b)| == 6 {
      UnicodeUnit(b, rest);
    }
  }

  lemma SeparatorUnit(last: byte, rest: Bytes)
    requires last == 168 || last == 169
    ensures Unit(UnicodeEscape(if last == 168 then 8232 else 8233) + rest) == Some(([226, 128, last], 6))
  {
    var code := if last == 168 then 8232 else 8233;
    UnicodeUnit(code, rest);
    assert Utf8(code) == [226, 128, last];
  }

  lemma HeadUnit(s: Bytes, rest: Bytes)
    requires s != []
    ensures Unit(Head(s) + rest) == Some((s[..Taken(s)], |Head(s)|)) && Head(s)[0] != 34
  {
    if LineSeparator(s) {
      SeparatorUnit(s[2], rest);
      assert s[..3] == [s[0], s[1], s[2]];
    } else {
      ByteUnit(s[0], rest);
      assert s[..1] == [s[0]];
    }
  }

  lemma UnescapeUnit(head: Bytes, tail: Bytes, text: Bytes)
    requires head != [] && head[0] != 34 && Unit(head + tail) == Some((text, |head|))
    ensures Unescape(head + tail) == match Unescape(tail) case None => None case Some(r) => Some((text + r.0, r.1))
  {
    assert (head + tail)[|head|..] == tail;
  }

  lemma Regroup(p: Bytes, q: Bytes, r: Bytes)
    ensures (p + q) + r == p + (q + r)
  {
  }

  /** Reading a written string gives it back, and leaves what follows. */
  lemma {:induction false} StringRoundTrip(s: Bytes, rest: Bytes)
    ensures Unescape(Escape(s) + ([34] + rest)) == Some((s, rest))
  {
    var tail := [34] + rest;
    if s == [] {
      assert tail[1..] == rest && Escape(s) + tail == tail;
    } else {
      StringRoundTrip(s[Taken(s)..], rest);
      StringStep(s, tail, s[Taken(s)..], rest);
    }
  }

  lemma StringStep(s: Bytes, tail: Bytes, left: Bytes, rest: Bytes)
    requires s != [] && left == s[Taken(s)..] && Unescape(Escape(left) + tail) == Some((left, rest))
    ensures Unescape(Escape(s) + tail) == Some((s, rest))
  {
    HeadUnit(s, Escape(left) + tail);
    UnescapeUnit(Head(s), Escape(left) + tail, s[..Taken(s)]);
    Regroup(Head(s), Escape(left), tail);
    assert s[..Taken(s)] + left == s;
  }

  // ---- Numbers ----------------------------------------------------------------------------------

  predicate Digit(b: byte) {
    48 <= b <= 57
  }

  function Digits(n: nat): Bytes {
    if n < 10 then [48 + n] else Digits(n / 10) + [48 + n % 10]
  }

  function Number(n: int): Bytes {
    if n < 0 then [45] + Digits(-n) else Digits(n)
  }

  /** How many digits a text begins with, and their value. */
  function Leading(s: Bytes): nat {
    if s == [] || !Digit(s[0]) then 0 else 1 + Leading(s[1..])
  }

  function Worth(s: Bytes): nat
    requires forall i | 0 <= i < |s| :: Digit(s[i])
  {
    if s == [] then 0
    else
      assert Digit(s[|s| - 1]);
      var d: int := s[|s| - 1];
      Worth(s[..|s| - 1]) * 10 + (d - 48)
  }

  lemma {:induction false} LeadingIsDigits(s: Bytes)
    ensures Leading(s) <= |s| && forall i | 0 <= i < Leading(s) :: Digit(s[i])
  {
    if s != [] && Digit(s[0]) {
      LeadingIsDigits(s[1..]);
    }
  }

  function ReadNatural(s: Bytes): Option<(nat, Bytes)> {
    LeadingIsDigits(s);
    var n := Leading(s);
    if n == 0 || (n > 1 && s[0] == 48) then None else Some((Worth(s[..n]), s[n..]))
  }

  function ReadNumber(s: Bytes): Option<(int, Bytes)> {
    var minus := s != [] && s[0] == 45;
    var r := ReadNatural(if minus then s[1..] else s);
    if r.None? then None
    else
      var n: int := r.value.0;
      Some((if minus then -n else n, r.value.1))
  }

  lemma {:induction false} DigitsAreDigits(n: nat)
    ensures Digits(n) != [] && (forall i | 0 <= i < |Digits(n)| :: Digit(Digits(n)[i])) && Worth(Digits(n)) == n
    ensures |Digits(n)| > 1 ==> Digits(n)[0] != 48
    ensures n > 0 ==> Digits(n)[0] != 48
  {
    if n >= 10 {
      DigitsAreDigits(n / 10);
      var d := Digits(n);
      assert d[..|d| - 1] == Digits(n / 10);
      assert d[0] == Digits(n / 10)[0];
    }
  }

  lemma {:induction false} LeadingOf(s: Bytes, rest: Bytes)
    requires (forall i | 0 <= i < |s| :: Digit(s[i])) && (rest == [] || !Digit(rest[0]))
    ensures Leading(s + rest) == |s|
  {
    if s == [] {
      assert s + rest == rest;
    } else {
      LeadingOf(s[1..], rest);
      assert (s + rest)[1..] == s[1..] + rest;
    }
  }

  lemma NaturalRoundTrip(n: nat, rest: Bytes)
    requires rest == [] || !Digit(rest[0])
    ensures ReadNatural(Digits(n) + rest) == Some((n, rest))
  {
    DigitsAreDigits(n);
    LeadingOf(Digits(n), rest);
    var s := Digits(n) + rest;
    assert s[..|Digits(n)|] == Digits(n) && s[|Digits(n)|..] == rest && s[0] == Digits(n)[0];
  }

  lemma NumberRoundTrip(n: int, rest: Bytes)
    requires rest == [] || !Digit(rest[0])
    ensures ReadNumber(Number(n) + rest) == Some((n, rest))
  {
    if n < 0 {
      MinusRoundTrip(n, rest);
    } else {
      PlusRoundTrip(n, rest);
    }
  }

  lemma MinusRoundTrip(n: int, rest: Bytes)
    requires n < 0 && (rest == [] || !Digit(rest[0]))
    ensures ReadNumber([45] + Digits(-n) + rest) == Some((n, rest))
  {
    NaturalRoundTrip(-n, rest);
    Regroup([45], Digits(-n), rest);
    assert ([45] + (Digits(-n) + rest))[1..] == Digits(-n) + rest;
  }

  lemma PlusRoundTrip(m: nat, rest: Bytes)
    requires rest == [] || !Digit(rest[0])
    ensures ReadNumber(Digits(m) + rest) == Some((m, rest))
  {
    NaturalRoundTrip(m, rest);
    DigitsAreDigits(m);
    assert (Digits(m) + rest)[0] == Digits(m)[0];
  }

  lemma {:induction false} DigitsLength(n: nat, k: nat)
    requires n < Power10(k) && k >= 1
    ensures |Digits(n)| <= k
  {
    if n >= 10 {
      DigitsLength(n / 10, k - 1);
    }
  }

  function Power10(k: nat): nat {
    if k == 0 then 1 else 10 * Power10(k - 1)
  }
}
