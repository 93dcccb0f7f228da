/**
 Offset cursors: decimal text under unpadded base64url (section 5 of RFC 4648), and the walk
 from page to page.
 */
module Pagination {
  import opened Keys
  import opened Selection
  import opened Text
  import opened Wrappers

  function NormalizeLimit(limit: int, fallback: int): (r: int)
    ensures 0 < fallback <= 200 ==> 0 < r <= 200
    ensures 0 < limit <= 200 ==> r == limit
    ensures !(0 < limit <= 200) ==> r == fallback
  {
    if limit <= 0 || limit > 200 then fallback else limit
  }

  // ---- Decimal text

  function Digit(d: nat): char
    requires d < 10
  {
    '0' + d as char
  }

  predicate IsDigit(c: char) {
    '0' <= c <= '9'
  }

  predicate AllDigits(s: string) {
    forall i :: 0 <= i < |s| ==> IsDigit(s[i])
  }

  function DigitValue(c: char): nat
    requires IsDigit(c)
  {
    (c - '0') as nat
  }

  function Itoa(n: nat): (s: string)
    ensures s != "" && AllDigits(s)
  {
    if n < 10 then [Digit(n)] else Itoa(n / 10) + [Digit(n % 10)]
  }

  const MAX_INT := 0x7FFF_FFFF_FFFF_FFFF

  function DigitsValue(s: string): nat
    requires AllDigits(s)
  {
    if s == "" then 0 else DigitsValue(s[..|s| - 1]) * 10 + DigitValue(s[|s| - 1])
  }

  // An optional sign, then at least one digit and nothing else; a value an int64 holds.
  function Atoi(s: string): Option<int> {
    var signed := s != "" && (s[0] == '+' || s[0] == '-');
    var digits := if signed then s[1..] else s;
    if digits == "" || !AllDigits(digits) then None
    else
      var v := DigitsValue(digits);
      if signed && s[0] == '-' then (if v <= MAX_INT + 1 then Some(0 - v as int) else None)
      else if v <= MAX_INT then Some(v) else None
  }

  lemma {:induction false} DigitsOfItoa(n: nat)
    ensures DigitsValue(Itoa(n)) == n
  {
    if n >= 10 {
      DigitsOfItoa(n / 10);
      assert Itoa(n)[..|Itoa(n)| - 1] == Itoa(n / 10);
    }
  }

  // Decimal, the most significant digit first.
  lemma DigitsOf1907()
    ensures Itoa(0) == "0" && Itoa(1907) == "1907"
  {
    assert Itoa(19) == Itoa(1) + "9" && Itoa(190) == Itoa(19) + "0";
  }

  lemma AtoiOfDigits(s: string)
    requires s != "" && AllDigits(s)
    ensures Atoi(s) == if DigitsValue(s) <= MAX_INT then Some(DigitsValue(s)) else None
    ensures Atoi("+" + s) == if DigitsValue(s) <= MAX_INT then Some(DigitsValue(s)) else None
    ensures Atoi("-" + s) == if DigitsValue(s) <= MAX_INT + 1 then Some(0 - DigitsValue(s) as int) else None
  {
    assert IsDigit(s[0]);
    assert ("-" + s)[1..] == s && ("+" + s)[1..] == s;
    hide DigitsValue, AllDigits;
  }

  // A sign is read, and a number that is too large is refused.
  lemma AtoiOfSigned(n: nat)
    ensures Atoi("-" + Itoa(n)) == if n <= MAX_INT + 1 then Some(0 - n as int) else None
    ensures Atoi("+" + Itoa(n)) == if n <= MAX_INT then Some(n) else None
    ensures Atoi(Itoa(n)) == if n <= MAX_INT then Some(n) else None
  {
    hide Atoi, DigitsValue, Itoa;
    DigitsOfItoa(n);
    AtoiOfDigits(Itoa(n));
  }

  // Only digits may stand behind the first character, and a sign is not a number.
  lemma AtoiRefuses(s: string, i: nat)
    requires i < |s| && !IsDigit(s[i]) && (i > 0 || (s[0] != '+' && s[0] != '-') || |s| == 1)
    ensures Atoi(s).None?
  {
    if s[0] != '+' && s[0] != '-' {
      assert !IsDigit(s[i]);
    } else if i > 0 {
      assert !IsDigit(s[1..][i - 1]);
    } else {
      assert s[1..] == "";
    }
  }

  lemma AtoiOfItoa(n: nat)
    requires n <= MAX_INT
    ensures Atoi(Itoa(n)) == Some(n)
  {
    AtoiOfSigned(n);
  }

  // ---- Base64url without padding

  // The URL and filename safe alphabet.
  function Letter(v: nat): char
    requires v < 64
  {
    if v < 26 then 'A' + v as char
    else if v < 52 then 'a' + (v - 26) as char
    else if v < 62 then '0' + (v - 52) as char
    else if v == 62 then '-' else '_'
  }

  function LetterValue(c: char): Option<nat> {
    if 'A' <= c <= 'Z' then Some((c - 'A') as nat)
    else if 'a' <= c <= 'z' then Some((c - 'a') as nat + 26)
    else if '0' <= c <= '9' then Some((c - '0') as nat + 52)
    else if c == '-' then Some(62)
    else if c == '_' then Some(63)
    else None
  }

  function Encode(bytes: seq<Byte>): string {
    if |bytes| == 0 then ""
    else if |bytes| == 1 then
      var n := bytes[0] as nat * 16;
      [Letter(n / 64), Letter(n % 64)]
    else if |bytes| == 2 then
      var n := (bytes[0] as nat * 256 + bytes[1] as nat) * 4;
      [Letter(n / 4096), Letter(n / 64 % 64), Letter(n % 64)]
    else
      var n := bytes[0] as nat * 65536 + bytes[1] as nat * 256 + bytes[2] as nat;
      [Letter(n / 262144), Letter(n / 4096 % 64), Letter(n / 64 % 64), Letter(n % 64)] + Encode(bytes[3..])
  }

  // The decoder skips line breaks, takes whole groups of four, and lets the text end after two or
  // three letters of a group, whatever their unused low bits are.
  function Decode(text: string): Option<seq<Byte>> {
    DecodeLetters(WithoutBreaks(text))
  }

  predicate Unbroken(text: string) {
    forall i :: 0 <= i < |text| ==> text[i] != '\r' && text[i] != '\n'
  }

  function WithoutBreaks(text: string): string {
    if text == "" then ""
    else (if text[0] == '\r' || text[0] == '\n' then "" else [text[0]]) + WithoutBreaks(text[1..])
  }

  function DecodeLetters(text: string): Option<seq<Byte>> {
    if |text| == 0 then Some([])
    else if |text| == 1 then None
    else
      var a, b := LetterValue(text[0]), LetterValue(text[1]);
      if a.None? || b.None? then None
      else if |text| == 2 then Some([ByteAt(a.value * 4 + b.value / 16)])
      else
        var c := LetterValue(text[2]);
        if c.None? then None
        else if |text| == 3 then Some([ByteAt(a.value * 4 + b.value / 16), ByteAt(b.value % 16 * 16 + c.value / 4)])
        else
          var d := LetterValue(text[3]);
          if d.None? then None
          else
            match DecodeLetters(text[4..])
            case None => None
            case Some(rest) =>
              Some([ByteAt(a.value * 4 + b.value / 16), ByteAt(b.value % 16 * 16 + c.value / 4), ByteAt(c.value % 4 * 64 + d.value)] + rest)
  }

  function ByteAt(v: nat): Byte {
    (v % 256) as Byte
  }

  lemma DivIs(n: nat, d: nat, q: nat, r: nat)
    requires d > 0 && n == q * d + r && r < d
    ensures n / d == q && n % d == r
  {
    var m := n / d - q;
    assert m * d == r - n % d;
    MultipleIsFar(m, d);
  }

  lemma MultipleIsFar(m: int, d: nat)
    ensures m > 0 ==> m * d >= d
    ensures m < 0 ==> m * d <= 0 - d
  {
  }

  // The four letters of a group hold the three bytes' bits in order.
  lemma Sextets(a: Byte, b: Byte, c: Byte)
    ensures var x, y, z := a as nat, b as nat, c as nat;
            var n := x * 65536 + y * 256 + z;
            && n / 262144 == x / 4 && n / 4096 % 64 == x % 4 * 16 + y / 16
            && n / 64 % 64 == y % 16 * 4 + z / 64 && n % 64 == z % 64
  {
    var x, y, z := a as nat, b as nat, c as nat;
    var n := x * 65536 + y * 256 + z;
    DivIs(n, 262144, x / 4, x % 4 * 65536 + y * 256 + z);
    DivIs(n, 4096, x * 16 + y / 16, y % 16 * 256 + z);
    DivIs(x * 16 + y / 16, 64, x / 4, x % 4 * 16 + y / 16);
    DivIs(n, 64, x * 1024 + y * 4 + z / 64, z % 64);
    DivIs(x * 1024 + y * 4 + z / 64, 64, x * 16 + y / 16, y % 16 * 4 + z / 64);
  }

  function Group(a: Byte, b: Byte, c: Byte): (g: string)
    ensures |g| == 4
  {
    var x, y, z := a as nat, b as nat, c as nat;
    [Letter(x / 4), Letter(x % 4 * 16 + y / 16), Letter(y % 16 * 4 + z / 64), Letter(z % 64)]
  }

  lemma EncodeNone()
    ensures Encode([]) == ""
  {
  }

  lemma EncodeOne(a: Byte)
    ensures Encode([a]) == Group(a, 0, 0)[..2]
  {
  }

  lemma EncodeTwo(a: Byte, b: Byte)
    ensures Encode([a, b]) == Group(a, b, 0)[..3]
  {
    var x, y := a as nat, b as nat;
    var n := (x * 256 + y) * 4;
    DivIs(n, 4096, x / 4, x % 4 * 1024 + y * 4);
    DivIs(n, 64, x * 16 + y / 16, y % 16 * 4);
    DivIs(x * 16 + y / 16, 64, x / 4, x % 4 * 16 + y / 16);
  }

  lemma EncodeThree(a: Byte, b: Byte, c: Byte, rest: seq<Byte>)
    ensures Encode([a, b, c] + rest) == Group(a, b, c) + Encode(rest)
  {
    var bytes := [a, b, c] + rest;
    assert bytes[3..] == rest;
    Sextets(a, b, c);
  }

  lemma LetterRoundTrip(v: nat)
    requires v < 64
    ensures LetterValue(Letter(v)) == Some(v)
    ensures Letter(v) != '\r' && Letter(v) != '\n'
  {
  }

  lemma GroupLetters(a: Byte, b: Byte, c: Byte)
    ensures var x, y, z := a as nat, b as nat, c as nat;
            var g := Group(a, b, c);
            && LetterValue(g[0]) == Some(x / 4) && LetterValue(g[1]) == Some(x % 4 * 16 + y / 16)
            && LetterValue(g[2]) == Some(y % 16 * 4 + z / 64) && LetterValue(g[3]) == Some(z % 64)
    ensures Unbroken(Group(a, b, c))
  {
    hide Letter, LetterValue;
    var x, y, z := a as nat, b as nat, c as nat;
    LetterRoundTrip(x / 4);
    LetterRoundTrip(x % 4 * 16 + y / 16);
    LetterRoundTrip(y % 16 * 4 + z / 64);
    LetterRoundTrip(z % 64);
  }

  lemma PartDecodes(a: Byte, b: Byte)
    ensures DecodeLetters(Group(a, 0, 0)[..2]) == Some([a])
    ensures DecodeLetters(Group(a, b, 0)[..3]) == Some([a, b])
  {
    hide Group, LetterValue, ByteAt;
    Halves(a, b, 0);
    Halves(a, 0, 0);
    GroupLetters(a, b, 0);
    GroupLetters(a, 0, 0);
  }

  lemma GroupDecodes(a: Byte, b: Byte, c: Byte, rest: string)
    ensures DecodeLetters(Group(a, b, c) + rest) ==
            match DecodeLetters(rest)
            case None => None
            case Some(bytes) => Some([a, b, c] + bytes)
  {
    hide Group, LetterValue, ByteAt;
    Halves(a, b, c);
    GroupLetters(a, b, c);
    var g := Group(a, b, c) + rest;
    assert g[4..] == rest;
  }

  lemma Halves(a: Byte, b: Byte, c: Byte)
    ensures var x, y, z := a as nat, b as nat, c as nat;
            && ByteAt(x / 4 * 4 + (x % 4 * 16 + y / 16) / 16) == a
            && ByteAt((x % 4 * 16 + y / 16) % 16 * 16 + (y % 16 * 4 + z / 64) / 4) == b
            && ByteAt((y % 16 * 4 + z / 64) % 4 * 64 + z % 64) == c
  {
    var x, y, z := a as nat, b as nat, c as nat;
    DivIs(x % 4 * 16 + y / 16, 16, x % 4, y / 16);
    DivIs(y % 16 * 4 + z / 64, 4, y % 16, z / 64);
  }

  lemma {:induction false} DecodeLettersEncode(bytes: seq<Byte>)
    ensures DecodeLetters(Encode(bytes)) == Some(bytes)
  {
    if |bytes| == 1 {
      assert bytes == [bytes[0]];
      EncodeOne(bytes[0]);
      PartDecodes(bytes[0], 0);
    } else if |bytes| == 2 {
      assert bytes == [bytes[0], bytes[1]];
      EncodeTwo(bytes[0], bytes[1]);
      PartDecodes(bytes[0], bytes[1]);
    } else if |bytes| > 2 {
      hide Encode, DecodeLetters, Group;
      assert bytes == [bytes[0], bytes[1], bytes[2]] + bytes[3..];
      EncodeThree(bytes[0], bytes[1], bytes[2], bytes[3..]);
      DecodeLettersEncode(bytes[3..]);
      GroupDecodes(bytes[0], bytes[1], bytes[2], Encode(bytes[3..]));
    }
  }

  lemma {:induction false} UnbrokenStays(text: string)
    requires Unbroken(text)
    ensures WithoutBreaks(text) == text
  {
    if text != "" {
      UnbrokenStays(text[1..]);
      assert text == [text[0]] + text[1..];
    }
  }

  lemma {:induction false} EncodedIsUnbroken(bytes: seq<Byte>)
    ensures Unbroken(Encode(bytes))
    ensures bytes != [] ==> Encode(bytes) != "" && Encode(bytes)[0] == Letter(bytes[0] as nat / 4)
  {
    hide Encode, Letter;
    if |bytes| == 0 {
      EncodeNone();
    } else if |bytes| == 1 {
      assert bytes == [bytes[0]];
      EncodeOne(bytes[0]);
      GroupLetters(bytes[0], 0, 0);
    } else if |bytes| == 2 {
      assert bytes == [bytes[0], bytes[1]];
      EncodeTwo(bytes[0], bytes[1]);
      GroupLetters(bytes[0], bytes[1], 0);
    } else {
      assert bytes == [bytes[0], bytes[1], bytes[2]] + bytes[3..];
      EncodeThree(bytes[0], bytes[1], bytes[2], bytes[3..]);
      GroupLetters(bytes[0], bytes[1], bytes[2]);
      EncodedIsUnbroken(bytes[3..]);
    }
  }

  // Decoding what was encoded gives it back.
  lemma DecodeEncode(bytes: seq<Byte>)
    ensures Decode(Encode(bytes)) == Some(bytes)
  {
    EncodedIsUnbroken(bytes);
    UnbrokenStays(Encode(bytes));
    DecodeLettersEncode(bytes);
  }

  // Capitals, small letters, digits, then '-' and '_', each range from its first to its last.
  lemma LettersInOrder(v: nat)
    requires v < 64
    ensures Letter(0) == 'A' && Letter(26) == 'a' && Letter(52) == '0' && Letter(62) == '-' && Letter(63) == '_'
    ensures v + 1 < 62 && v != 25 && v != 51 ==> Letter(v + 1) as int == Letter(v) as int + 1
  {
  }

  function At(bytes: seq<Byte>, i: nat): nat {
    if i < |bytes| then bytes[i] as nat else 0
  }

  // The k-th six of the twenty-four bits of three bytes.
  function SixBits(a: nat, b: nat, c: nat, k: nat): nat {
    var bits := a * 65536 + b * 256 + c;
    match k
    case 0 => bits / 262144
    case 1 => bits / 4096 % 64
    case 2 => bits / 64 % 64
    case _ => bits % 64
  }

  // The j-th six bits of the bytes, taken three bytes and four letters at a time, zeros behind the end.
  function Sextet(bytes: seq<Byte>, j: nat): nat {
    var g := j / 4 * 3;
    SixBits(At(bytes, g), At(bytes, g + 1), At(bytes, g + 2), j % 4)
  }

  lemma SixBitsOfGroup(a: Byte, b: Byte, c: Byte, k: nat)
    requires k < 4
    ensures var six := SixBits(a as nat, b as nat, c as nat, k); six < 64 && Letter(six) == Group(a, b, c)[k]
  {
    Sextets(a, b, c);
    hide Letter;
  }

  lemma SextetsOfGroup(bytes: seq<Byte>, i: nat)
    requires bytes != [] && i < 4
    ensures var b := if |bytes| > 1 then bytes[1] else 0;
            var c := if |bytes| > 2 then bytes[2] else 0;
            Sextet(bytes, i) < 64 && Letter(Sextet(bytes, i)) == Group(bytes[0], b, c)[i]
  {
    hide Letter, SixBits, Group;
    SixBitsOfGroup(bytes[0], if |bytes| > 1 then bytes[1] else 0, if |bytes| > 2 then bytes[2] else 0, i);
  }

  lemma SextetsOfRest(bytes: seq<Byte>, j: nat)
    requires |bytes| >= 3
    ensures Sextet(bytes, j + 4) == Sextet(bytes[3..], j)
  {
    assert (j + 4) / 4 == j / 4 + 1 && (j + 4) % 4 == j % 4;
    var g := j / 4 * 3;
    assert At(bytes, g + 3) == At(bytes[3..], g) && At(bytes, g + 4) == At(bytes[3..], g + 1)
           && At(bytes, g + 5) == At(bytes[3..], g + 2);
    hide At, SixBits;
  }

  // Eight bits a byte, six bits a letter, in order.
  lemma {:induction false} EncodeIsBitsInOrder(bytes: seq<Byte>, j: nat)
    requires j < |Encode(bytes)|
    ensures |Encode(bytes)| == (|bytes| * 4 + 2) / 3
    ensures Sextet(bytes, j) < 64 && Encode(bytes)[j] == Letter(Sextet(bytes, j))
    decreases |bytes|
  {
    EncodeNone();
    hide Encode, Letter, Group, Sextet;
    if j < 4 {
      SextetsOfGroup(bytes, j);
    }
    if |bytes| == 1 {
      assert bytes == [bytes[0]];
      EncodeOne(bytes[0]);
    } else if |bytes| == 2 {
      assert bytes == [bytes[0], bytes[1]];
      EncodeTwo(bytes[0], bytes[1]);
    } else {
      assert bytes == [bytes[0], bytes[1], bytes[2]] + bytes[3..];
      EncodeThree(bytes[0], bytes[1], bytes[2], bytes[3..]);
      if bytes[3..] != [] {
        EncodedIsUnbroken(bytes[3..]);
        EncodeIsBitsInOrder(bytes[3..], if j < 4 then 0 else j - 4);
      }
      if j >= 4 {
        SextetsOfRest(bytes, j - 4);
      }
    }
  }

  predicate IsLetter(c: char) {
    'A' <= c <= 'Z' || 'a' <= c <= 'z' || '0' <= c <= '9' || c == '-' || c == '_'
  }

  ghost predicate AllLetters(text: string) {
    forall i :: 0 <= i < |text| ==> IsLetter(text[i])
  }

  lemma ValuesOfLetters(c: char)
    ensures IsLetter(c) <==> LetterValue(c).Some?
  {
  }

  lemma ShortDecodesExactly(text: string)
    requires |text| < 4
    ensures DecodeLetters(text).Some? <==> AllLetters(text) && |text| != 1
  {
    forall i | 0 <= i < |text| ensures IsLetter(text[i]) <==> LetterValue(text[i]).Some? {
      ValuesOfLetters(text[i]);
    }
    hide IsLetter, LetterValue, ByteAt;
  }

  lemma GroupOfValues(text: string)
    requires |text| >= 4
    ensures DecodeLetters(text).Some? <==>
            && LetterValue(text[0]).Some? && LetterValue(text[1]).Some? && LetterValue(text[2]).Some? && LetterValue(text[3]).Some?
            && DecodeLetters(text[4..]).Some?
  {
    hide LetterValue, ByteAt;
  }

  lemma GroupDecodesExactly(text: string)
    requires |text| >= 4
    ensures DecodeLetters(text).Some? <==> AllLetters(text[..4]) && DecodeLetters(text[4..]).Some?
  {
    hide DecodeLetters, IsLetter, LetterValue;
    GroupOfValues(text);
    ValuesOfLetters(text[0]);
    ValuesOfLetters(text[1]);
    ValuesOfLetters(text[2]);
    ValuesOfLetters(text[3]);
    var four := text[..4];
    assert AllLetters(four) <==> IsLetter(four[0]) && IsLetter(four[1]) && IsLetter(four[2]) && IsLetter(four[3]);
  }

  // A text is accepted exactly if it holds letters of the alphabet only, and no group of one.
  lemma {:induction false} DecodesExactly(text: string)
    ensures DecodeLetters(text).Some? <==> AllLetters(text) && |text| % 4 != 1
  {
    hide IsLetter, DecodeLetters;
    if |text| < 4 {
      ShortDecodesExactly(text);
    } else {
      GroupDecodesExactly(text);
      DecodesExactly(text[4..]);
      assert text == text[..4] + text[4..];
    }
  }

  // ---- Cursors

  function AsBytes(s: string): seq<Byte>
    requires forall i :: 0 <= i < |s| ==> s[i] < 256 as char
  {
    seq(|s|, i requires 0 <= i < |s| => (s[i] as int) as Byte)
  }

  function AsText(bytes: seq<Byte>): (s: string) {
    seq(|bytes|, i requires 0 <= i < |bytes| => (bytes[i] as int) as char)
  }

  function EncodeOffsetCursor(offset: nat): string {
    Encode(AsBytes(Itoa(offset)))
  }

  // A blank cursor is the start; anything else must decode to a number that is not negative.
  function DecodeOffsetCursor(cursor: string): Option<nat> {
    if IsBlank(cursor) then Some(0)
    else
      match Decode(cursor)
      case None => None
      case Some(raw) =>
        match Atoi(AsText(raw))
        case None => None
        case Some(offset) => if offset < 0 then None else Some(offset)
  }

  lemma CursorRoundTrip(offset: nat)
    requires offset <= MAX_INT
    ensures DecodeOffsetCursor(EncodeOffsetCursor(offset)) == Some(offset)
  {
    var digits := Itoa(offset);
    var cursor := EncodeOffsetCursor(offset);
    DecodeEncode(AsBytes(digits));
    EncodedIsUnbroken(AsBytes(digits));
    assert AsText(AsBytes(digits)) == digits;
    AtoiOfItoa(offset);
    LetterIsNoSpace(AsBytes(digits)[0] as nat / 4);
    assert !IsSpace(cursor[0]);
  }

  // A negative offset is refused, in whatever text it comes.
  lemma NegativeIsRefused(cursor: string, n: nat)
    requires n > 0
    ensures DecodeOffsetCursor(cursor).Some? && !IsBlank(cursor) ==>
              Decode(cursor).Some? && Atoi(AsText(Decode(cursor).value)) == Some(DecodeOffsetCursor(cursor).value)
    ensures DecodeOffsetCursor(Encode(AsBytes("-" + Itoa(n)))).None?
  {
    var text := "-" + Itoa(n);
    var bytes := AsBytes(text);
    DecodeEncode(bytes);
    EncodedIsUnbroken(bytes);
    assert AsText(bytes) == text;
    AtoiOfSigned(n);
    LetterIsNoSpace(bytes[0] as nat / 4);
    assert !IsSpace(Encode(bytes)[0]);
  }

  lemma LetterIsNoSpace(v: nat)
    requires v < 64
    ensures !IsSpace(Letter(v))
  {
  }

  // ---- Pages

  function PaginateSlice<T>(items: seq<T>, limit: nat, offset: nat): (seq<T>, Option<string>) {
    if |items| <= limit then (items, None) else (items[..limit], Some(EncodeOffsetCursor(offset + limit)))
  }

  // What the store answers to LIMIT n OFFSET offset on a list that stays as it is.
  function Window<T>(list: seq<T>, n: nat, offset: nat): seq<T> {
    list[Min(offset, |list|)..Min(offset + n, |list|)]
  }

  datatype Page<+T> = Page(items: seq<T>, nextCursor: Option<string>)

  // A list endpoint with its default limit: one item more than the page is fetched, to see whether another page follows.
  function ListPage<T>(list: seq<T>, fallback: nat, limit: int, cursor: string): Option<Page<T>>
    requires 0 < fallback <= 200
  {
    match DecodeOffsetCursor(cursor)
    case None => None
    case Some(offset) =>
      var n: nat := NormalizeLimit(limit, fallback);
      var (items, next) := PaginateSlice(Window(list, n + 1, offset), n, offset);
      Some(Page(items, next))
  }

  // Asking for page after page, each by the last one's cursor: all items seen, and the cursor left.
  function Walk<T>(list: seq<T>, fallback: nat, limits: seq<int>, cursor: string): Option<Page<T>>
    requires 0 < fallback <= 200
  {
    if limits == [] then Some(Page([], Some(cursor)))
    else
      match ListPage(list, fallback, limits[0], cursor)
      case None => None
      case Some(page) =>
        if page.nextCursor.None? then Some(page)
        else
          match Walk(list, fallback, limits[1..], page.nextCursor.value)
          case None => None
          case Some(rest) => Some(Page(page.items + rest.items, rest.nextCursor))
  }

  // What has been seen from an offset on, and where the cursor left stands: behind the last item,
  // or nowhere once the rest of the list has been seen.
  ghost predicate Covers<T>(list: seq<T>, offset: nat, seen: Page<T>)
    requires offset <= |list|
  {
    if seen.nextCursor.None? then seen.items == list[offset..]
    else
      && offset + |seen.items| <= |list|
      && seen.items == list[offset..offset + |seen.items|]
      && DecodeOffsetCursor(seen.nextCursor.value) == Some(offset + |seen.items|)
  }

  // What the extra item tells apart: the window holds a page and more, or the rest of the list.
  lemma SliceOfWindow<T>(list: seq<T>, n: nat, offset: nat)
    requires offset <= |list|
    ensures PaginateSlice(Window(list, n + 1, offset), n, offset) ==
            if offset + n < |list| then (list[offset..offset + n], Some(EncodeOffsetCursor(offset + n))) else (list[offset..], None)
  {
    hide EncodeOffsetCursor;
    var window := Window(list, n + 1, offset);
    if offset + n < |list| {
      assert window == list[offset..offset + n + 1] && window[..n] == list[offset..offset + n];
    } else {
      assert window == list[offset..];
    }
  }

  // One page is the next stretch of the list; a page with a cursor is neither empty nor the last.
  lemma PageIsNextStretch<T>(list: seq<T>, fallback: nat, limit: int, cursor: string, offset: nat)
    requires 0 < fallback <= 200 && |list| <= MAX_INT && offset <= |list| && DecodeOffsetCursor(cursor) == Some(offset)
    ensures ListPage(list, fallback, limit, cursor).Some?
    ensures var page := ListPage(list, fallback, limit, cursor).value;
            && Covers(list, offset, page)
            && (page.nextCursor.Some? ==> 0 < |page.items| < |list| - offset)
            && (page.nextCursor.Some? ==> |page.items| == if 0 < limit <= 200 then limit else fallback)
            && |page.items| <= if 0 < limit <= 200 then limit else fallback
  {
    hide DecodeOffsetCursor, EncodeOffsetCursor, PaginateSlice, Window, NormalizeLimit;
    var n: nat := NormalizeLimit(limit, fallback);
    SliceOfWindow(list, n, offset);
    if offset + n < |list| {
      CursorRoundTrip(offset + n);
    }
  }

  // A cursor behind the end gives an empty page and no cursor, and a bad one is refused.
  lemma PagePastTheEnd<T>(list: seq<T>, fallback: nat, limit: int, cursor: string)
    requires 0 < fallback <= 200
    ensures DecodeOffsetCursor(cursor).Some? && DecodeOffsetCursor(cursor).value >= |list| ==>
              ListPage(list, fallback, limit, cursor) == Some(Page([], None))
    ensures DecodeOffsetCursor(cursor).None? <==> ListPage(list, fallback, limit, cursor).None?
  {
    hide DecodeOffsetCursor, EncodeOffsetCursor;
  }

  lemma CoversJoin<T>(list: seq<T>, offset: nat, page: Page<T>, rest: Page<T>)
    requires offset <= |list| && Covers(list, offset, page) && page.nextCursor.Some?
    requires Covers(list, offset + |page.items|, rest)
    ensures Covers(list, offset, Page(page.items + rest.items, rest.nextCursor))
  {
    var middle, end := offset + |page.items|, offset + |page.items| + |rest.items|;
    hide DecodeOffsetCursor;
    assert list[offset..middle] + list[middle..end] == list[offset..end];
  }

  // What a walk of that many requests has seen.
  ghost predicate Walked<T>(list: seq<T>, offset: nat, requests: nat, seen: Page<T>)
    requires offset <= |list|
  {
    && Covers(list, offset, seen)
    && (seen.nextCursor.Some? ==> requests <= |seen.items|)
    && (seen.nextCursor.Some? && (requests > 0 || offset < |list|) ==> offset + |seen.items| < |list|)
  }

  lemma WalkedOn<T>(list: seq<T>, offset: nat, page: Page<T>, requests: nat, rest: Page<T>)
    requires offset <= |list| && Covers(list, offset, page) && page.nextCursor.Some?
    requires 0 < |page.items| < |list| - offset
    requires Walked(list, offset + |page.items|, requests, rest)
    ensures Walked(list, offset, requests + 1, Page(page.items + rest.items, rest.nextCursor))
  {
    hide Covers, DecodeOffsetCursor;
    CoversJoin(list, offset, page, rest);
  }

  lemma {:induction false} WalkFrom<T>(list: seq<T>, fallback: nat, limits: seq<int>, cursor: string, offset: nat)
    requires 0 < fallback <= 200 && |list| <= MAX_INT && offset <= |list| && DecodeOffsetCursor(cursor) == Some(offset)
    ensures Walk(list, fallback, limits, cursor).Some?
    ensures Walked(list, offset, |limits|, Walk(list, fallback, limits, cursor).value)
    decreases |limits|
  {
    hide Walked, Covers, ListPage, DecodeOffsetCursor;
    if limits == [] {
      NothingWalked(list, cursor, offset);
    } else {
      PageIsNextStretch(list, fallback, limits[0], cursor, offset);
      var page := ListPage(list, fallback, limits[0], cursor).value;
      if page.nextCursor.None? {
        LastPageWalked(list, offset, |limits|, page);
      } else {
        NextCursorOf(list, offset, page);
        WalkFrom(list, fallback, limits[1..], page.nextCursor.value, offset + |page.items|);
        WalkedOn(list, offset, page, |limits| - 1, Walk(list, fallback, limits[1..], page.nextCursor.value).value);
      }
    }
  }

  lemma NothingWalked<T>(list: seq<T>, cursor: string, offset: nat)
    requires offset <= |list| && DecodeOffsetCursor(cursor) == Some(offset)
    ensures Walked(list, offset, 0, Page([], Some(cursor)))
  {
  }

  lemma LastPageWalked<T>(list: seq<T>, offset: nat, requests: nat, page: Page<T>)
    requires offset <= |list| && Covers(list, offset, page) && page.nextCursor.None?
    ensures Walked(list, offset, requests, page)
  {
  }

  lemma NextCursorOf<T>(list: seq<T>, offset: nat, page: Page<T>)
    requires offset <= |list| && Covers(list, offset, page) && page.nextCursor.Some?
    ensures offset + |page.items| <= |list|
    ensures DecodeOffsetCursor(page.nextCursor.value) == Some(offset + |page.items|)
  {
  }

  // From the empty cursor, whatever limits are asked for, the pages make up the list without gap
  // or repeat; as many requests as the list has items always reach its end.
  lemma WalkIsWholeList<T>(list: seq<T>, fallback: nat, limits: seq<int>)
    requires 0 < fallback <= 200 && |list| <= MAX_INT
    ensures Walk(list, fallback, limits, "").Some?
    ensures Walk(list, fallback, limits, "").value.items <= list
    ensures limits != [] && |limits| >= |list| ==> Walk(list, fallback, limits, "").value == Page(list, None)
    ensures Walk(list, fallback, limits, "").value.nextCursor.None? ==> Walk(list, fallback, limits, "").value.items == list
  {
    WalkFrom(list, fallback, limits, "", 0);
    assert list[0..] == list;
  }
}
