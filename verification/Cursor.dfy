/**
 * List cursors: "generation:position" in decimal, base64url-encoded without padding (pty/protocol.go, encodeCursor
 * and decodeCursor; section 5 of RFC 4648).
 */
module Cursor {
  import opened Common

  /** A non-negative value of the source's 64-bit `int`. */
  type Index = x: int | 0 <= x < 0x8000_0000_0000_0000

  const MIN_INT: int := -0x8000_0000_0000_0000
  const MAX_INT: int := 0x7FFF_FFFF_FFFF_FFFF

  datatype ListCursor = ListCursor(generation: U64, position: int)

  // ----- Base64url -------------------------------------------------------------------------------

  type Sextet = x: int | 0 <= x < 64

  function Letter(v: Sextet): char {
    if v < 26 then 'A' + v as char
    else if v < 52 then 'a' + (v - 26) as char
    else if v < 62 then '0' + (v - 52) as char
    else if v == 62 then '-' else '_'
  }

  function Value(c: char): Option<Sextet> {
    if 'A' <= c <= 'Z' then Some((c - 'A') as int)
    else if 'a' <= c <= 'z' then Some((c - 'a') as int + 26)
    else if '0' <= c <= '9' then Some((c - '0') as int + 52)
    else if c == '-' then Some(62) else if c == '_' then Some(63) else None
  }

  lemma LetterValue(v: Sextet)
    ensures Value(Letter(v)) == Some(v) && Letter(v) !in {'\r', '\n'}
  {
  }

  // Three bytes x, y, z as four sextets, and back.
  function Sextet0(x: Byte): Sextet { x / 4 }
  function Sextet1(x: Byte, y: Byte): Sextet { x % 4 * 16 + y / 16 }
  function Sextet2(y: Byte, z: Byte): Sextet { y % 16 * 4 + z / 64 }
  function Sextet3(z: Byte): Sextet { z % 64 }

  function Byte0(a: int, b: int): Byte
    requires 0 <= a < 64 && 0 <= b < 64
  {
    a * 4 + b / 16
  }

  function Byte1(b: int, c: int): Byte
    requires 0 <= b < 64 && 0 <= c < 64
  {
    b % 16 * 16 + c / 4
  }

  function Byte2(c: int, d: int): Byte
    requires 0 <= c < 64 && 0 <= d < 64
  {
    c % 4 * 64 + d
  }

  lemma Quantum(x: Byte, y: Byte, z: Byte)
    ensures Byte0(Sextet0(x), Sextet1(x, y)) == x
    ensures Byte1(Sextet1(x, y), Sextet2(y, z)) == y
    ensures Byte2(Sextet2(y, z), Sextet3(z)) == z
  {
  }

  /** The sextets of `b`; a short last group is filled with zero bits and its unused sextets are left out. */
  function Sextets(b: seq<Byte>): seq<Sextet> {
    if |b| == 0 then []
    else if |b| == 1 then [Sextet0(b[0]), Sextet1(b[0], 0)]
    else if |b| == 2 then [Sextet0(b[0]), Sextet1(b[0], b[1]), Sextet2(b[1], 0)]
    else [Sextet0(b[0]), Sextet1(b[0], b[1]), Sextet2(b[1], b[2]), Sextet3(b[2])] + Sextets(b[3..])
  }

  function Letters(v: seq<Sextet>): string {
    if |v| == 0 then "" else [Letter(v[0])] + Letters(v[1..])
  }

  function Encode64(b: seq<Byte>): string {
    Letters(Sextets(b))
  }

  /** Line breaks are skipped wherever they stand. */
  function Strip(s: string): string {
    if |s| == 0 then ""
    else if s[0] == '\r' || s[0] == '\n' then Strip(s[1..])
    else [s[0]] + Strip(s[1..])
  }

  function Values(s: string): Option<seq<Sextet>> {
    if |s| == 0 then Some([])
    else match (Value(s[0]), Values(s[1..]))
      case (Some(v), Some(rest)) => Some([v] + rest)
      case _ => None
  }

  /** A lone last sextet is corrupt; unused low bits of the last sextet are ignored. */
  function Join(v: seq<Sextet>): Option<seq<Byte>> {
    if |v| == 0 then Some([])
    else if |v| == 1 then None
    else if |v| == 2 then Some([Byte0(v[0], v[1])])
    else if |v| == 3 then Some([Byte0(v[0], v[1]), Byte1(v[1], v[2])])
    else match Join(v[4..])
      case Some(rest) => Some([Byte0(v[0], v[1]), Byte1(v[1], v[2]), Byte2(v[2], v[3])] + rest)
      case None => None
  }

  function Decode64(s: string): Option<seq<Byte>> {
    match Values(Strip(s))
    case Some(v) => Join(v)
    case None => None
  }

  lemma {:induction false} ValuesOfLetters(v: seq<Sextet>)
    ensures Strip(Letters(v)) == Letters(v) && Values(Letters(v)) == Some(v)
  {
    hide Value, Letter;
    if |v| > 0 {
      LetterValue(v[0]);
      ValuesOfLetters(v[1..]);
      var s := Letters(v);
      assert s[0] == Letter(v[0]) && s[1..] == Letters(v[1..]);
      assert v == [v[0]] + v[1..];
    }
  }

  lemma {:induction false} JoinSextets(b: seq<Byte>)
    ensures Join(Sextets(b)) == Some(b)
    decreases |b|
  {
    hide Sextet0, Sextet1, Sextet2, Sextet3, Byte0, Byte1, Byte2;
    if |b| == 1 {
      Quantum(b[0], 0, 0);
      assert b == [b[0]];
    } else if |b| == 2 {
      Quantum(b[0], b[1], 0);
      assert b == [b[0], b[1]];
    } else if |b| > 2 {
      Quantum(b[0], b[1], b[2]);
      JoinSextets(b[3..]);
      assert Sextets(b)[4..] == Sextets(b[3..]);
      assert b == [b[0], b[1], b[2]] + b[3..];
    }
  }

  /** Decoding undoes encoding, for every byte string. */
  lemma Base64RoundTrip(b: seq<Byte>)
    ensures Decode64(Encode64(b)) == Some(b)
  {
    hide Letters, Sextets, Join, Strip, Values;
    ValuesOfLetters(Sextets(b));
    JoinSextets(b);
  }

  // ----- Decimal numbers --------------------------------------------------------------------------

  function Decimal(n: nat): (r: seq<Byte>)
    ensures |r| > 0
  {
    if n < 10 then [48 + n] else Decimal(n / 10) + [48 + n % 10]
  }

  predicate IsDigit(b: Byte) {
    48 <= b <= 57
  }

  predicate AllDigits(s: seq<Byte>) {
    forall i :: 0 <= i < |s| ==> IsDigit(s[i])
  }

  function DigitsValue(s: seq<Byte>): nat
    requires AllDigits(s)
  {
    if |s| == 0 then 0 else DigitsValue(s[..|s| - 1]) * 10 + (s[|s| - 1] - 48)
  }

  /** strconv.ParseUint in base 10 for 64 bits. */
  function ParseUint(s: seq<Byte>): Option<U64> {
    if |s| > 0 && AllDigits(s) && DigitsValue(s) < TWO64 then Some(DigitsValue(s)) else None
  }

  /** strconv.Atoi for a 64-bit int: an optional sign, then digits, in range. */
  function Atoi(s: seq<Byte>): Option<int> {
    var signed := |s| > 0 && (s[0] == 43 || s[0] == 45);
    var digits := if signed then s[1..] else s;
    if |digits| == 0 || !AllDigits(digits) then None
    else
      var v: int := if signed && s[0] == 45 then -(DigitsValue(digits) as int) else DigitsValue(digits);
      if MIN_INT <= v <= MAX_INT then Some(v) else None
  }

  lemma {:induction false} DecimalValue(n: nat)
    ensures AllDigits(Decimal(n)) && DigitsValue(Decimal(n)) == n
  {
    if n >= 10 {
      DecimalValue(n / 10);
      DropLast(Decimal(n / 10), 48 + n % 10);
    } else {
      assert [48 + n][..0] == [];
    }
  }

  // ----- Cursors ---------------------------------------------------------------------------------

  const COLON: Byte := 58

  /** strings.Split at every colon. */
  function Split(s: seq<Byte>): (r: seq<seq<Byte>>)
    ensures |r| > 0
    decreases |s|
  {
    var i := Colon(s);
    if i == |s| then [s] else [s[..i]] + Split(s[i + 1..])
  }

  function Colon(s: seq<Byte>): (i: nat)
    ensures i <= |s| && (i < |s| ==> s[i] == COLON) && forall j :: 0 <= j < i ==> s[j] != COLON
  {
    if |s| == 0 || s[0] == COLON then 0 else 1 + Colon(s[1..])
  }

  function EncodeCursor(generation: U64, position: Index): string {
    Encode64(Decimal(generation) + [COLON] + Decimal(position))
  }

  function DecodeCursor(value: string): Option<ListCursor> {
    match Decode64(value)
    case None => None
    case Some(raw) =>
      var parts := Split(raw);
      if |parts| != 2 then None
      else match (ParseUint(parts[0]), Atoi(parts[1]))
        case (Some(generation), Some(position)) => Some(ListCursor(generation, position))
        case _ => None
  }

  lemma SplitTwo(a: seq<Byte>, b: seq<Byte>)
    requires COLON !in a && COLON !in b
    ensures Split(a + [COLON] + b) == [a, b]
  {
    var s := a + [COLON] + b;
    assert s[|a|] == COLON;
    assert Colon(s) == |a| by {
      assert forall j :: 0 <= j < |a| ==> s[j] == a[j];
    }
    assert s[..|a|] == a && s[|a| + 1..] == b;
    assert Colon(b) == |b|;
  }

  /** Every cursor the server hands out comes back as the generation and position it was made from. */
  lemma CursorRoundTrip(generation: U64, position: Index)
    ensures DecodeCursor(EncodeCursor(generation, position)) == Some(ListCursor(generation, position))
    ensures EncodeCursor(generation, position) != ""
  {
    hide Encode64, Decode64, Split, Decimal, DigitsValue;
    var g, p := Decimal(generation), Decimal(position);
    DecimalValue(generation);
    DecimalValue(position);
    Base64RoundTrip(g + [COLON] + p);
    assert COLON !in g && COLON !in p;
    SplitTwo(g, p);
    assert IsDigit(p[0]);
    EmptyDecodes();
  }

  lemma EmptyDecodes()
    ensures Decode64("") == Some([])
  {
  }

  // ----- What a cursor looks like ------------------------------------------------------------------

  const UPPER := "ABCDEFGHIJKLMNOPQRSTUVWXYZ"
  const LOWER := "abcdefghijklmnopqrstuvwxyz"

  /** The letters are the alphabet of section 5 of RFC 4648: capitals, small letters, digits, minus, underscore. */
  lemma LettersAreTheAlphabet(v: Sextet)
    ensures v < 26 ==> Letter(v) == UPPER[v]
    ensures 26 <= v < 52 ==> Letter(v) == LOWER[v - 26]
    ensures 52 <= v < 62 ==> Letter(v) == "0123456789"[v - 52]
    ensures Letter(62) == '-' && Letter(63) == '_'
  {
  }

  /** Three bytes and their four sextets are the same 24 bits; a short group is filled up with zero bits. */
  lemma SameBits(b: seq<Byte>)
    ensures |b| >= 3 ==>
      var v: seq<int>, x: seq<int> := Sextets(b), b;
      && |v| >= 4 && v[4..] == Sextets(b[3..])
      && v[0] * 262144 + v[1] * 4096 + v[2] * 64 + v[3] == x[0] * 65536 + x[1] * 256 + x[2]
    ensures |b| == 2 ==>
      var v: seq<int>, x: seq<int> := Sextets(b), b;
      |v| == 3 && v[0] * 4096 + v[1] * 64 + v[2] == (x[0] * 256 + x[1]) * 4
    ensures |b| == 1 ==>
      var v: seq<int>, x: seq<int> := Sextets(b), b;
      |v| == 2 && v[0] * 64 + v[1] == x[0] * 16
    ensures |b| == 0 ==> Sextets(b) == []
  {
  }

  lemma {:induction false} OneLetterEach(v: seq<Sextet>)
    ensures |Letters(v)| == |v| && forall i :: 0 <= i < |v| ==> Letters(v)[i] == Letter(v[i])
  {
    hide Letter;
    if |v| > 0 {
      OneLetterEach(v[1..]);
    }
  }

  function Pow10(n: nat): nat {
    if n == 0 then 1 else 10 * Pow10(n - 1)
  }

  /** The value of a digit string, its first digit weighing most. */
  function Worth(s: seq<Byte>): int {
    if |s| == 0 then 0 else (s[0] - 48) * Pow10(|s| - 1) + Worth(s[1..])
  }

  lemma {:induction false} WorthAppend(s: seq<Byte>, d: Byte)
    ensures Worth(s + [d]) == Worth(s) * 10 + (d - 48)
  {
    hide Pow10, Worth;
    WorthStep(s);
    WorthStep(s + [d]);
    if |s| == 0 {
      assert s + [d] == [d] && [d][1..] == [];
      WorthStep([]);
    } else {
      WorthAppend(s[1..], d);
      assert (s + [d])[1..] == s[1..] + [d];
      Tenfold(s[0], Pow10(|s| - 1), Pow10(|s|));
    }
  }

  lemma WorthStep(s: seq<Byte>)
    ensures Worth(s) == if |s| == 0 then 0 else (s[0] - 48) * Pow10(|s| - 1) + Worth(s[1..])
    ensures Pow10(0) == 1 && (|s| > 0 ==> Pow10(|s|) == 10 * Pow10(|s| - 1))
  {
  }

  lemma Tenfold(a: int, p: nat, q: nat)
    requires q == 10 * p
    ensures (a - 48) * q == (a - 48) * p * 10
  {
  }

  /** Numbers are written in decimal, the digits '0' to '9', without leading zeros. */
  lemma {:induction false} DecimalIsBaseTen(n: nat)
    ensures AllDigits(Decimal(n)) && Worth(Decimal(n)) == n && (n > 0 ==> Decimal(n)[0] != 48)
    ensures n == 0 ==> Decimal(n) == [48]
  {
    if n >= 10 {
      DecimalIsBaseTen(n / 10);
      WorthAppend(Decimal(n / 10), 48 + n % 10);
    } else {
      assert Worth([48 + n][1..]) == 0;
    }
  }

  /** A cursor is the base64url text of generation, colon, position. */
  lemma CursorText(generation: U64, position: Index)
    ensures Decode64(EncodeCursor(generation, position)) == Some(Decimal(generation) + [58] + Decimal(position))
  {
    hide Encode64, Decode64, Decimal;
    Base64RoundTrip(Decimal(generation) + [COLON] + Decimal(position));
  }

  lemma {:induction false} ColonFree(s: seq<Byte>)
    ensures Colon(s) == |s| <==> COLON !in s
  {
    if |s| > 0 && s[0] != COLON {
      ColonFree(s[1..]);
      assert s == [s[0]] + s[1..];
    } else if |s| > 0 {
      assert s[0] in s;
    }
  }

  lemma SplitsInTwo(s: seq<Byte>)
    requires |Split(s)| == 2
    ensures
      var parts := Split(s);
      s == parts[0] + [COLON] + parts[1] && COLON !in parts[0] && COLON !in parts[1]
  {
    hide Split, Colon;
    var i := Colon(s);
    SplitStep(s);
    assert COLON !in s[..i];
    var rest := s[i + 1..];
    SplitStep(rest);
    ColonFree(rest);
    assert s == s[..i] + [COLON] + rest;
  }

  lemma SplitStep(s: seq<Byte>)
    ensures Split(s) == if Colon(s) == |s| then [s] else [s[..Colon(s)]] + Split(s[Colon(s) + 1..])
  {
    hide Colon;
  }

  /** A cursor is accepted exactly when its text is two numbers with one colon between them. */
  lemma DecodesExactly(value: string, a: seq<Byte>, b: seq<Byte>)
    requires COLON !in a && COLON !in b
    ensures Decode64(value) == Some(a + [58] + b) ==>
      DecodeCursor(value)
      == match (ParseUint(a), Atoi(b))
         case (Some(generation), Some(position)) => Some(ListCursor(generation, position))
         case _ => None
    ensures DecodeCursor(value).Some? ==>
      exists x, y :: COLON !in x && COLON !in y && Decode64(value) == Some(x + [58] + y)
  {
    hide Decode64, Split, ParseUint, Atoi;
    SplitTwo(a, b);
    if DecodeCursor(value).Some? {
      SplitsInTwo(Decode64(value).value);
    }
  }

  lemma {:induction false} DigitsWorth(s: seq<Byte>)
    requires AllDigits(s)
    ensures DigitsValue(s) == Worth(s)
  {
    if |s| > 0 {
      DigitsWorth(s[..|s| - 1]);
      WorthAppend(s[..|s| - 1], s[|s| - 1]);
      assert s == s[..|s| - 1] + [s[|s| - 1]];
    } else {
      assert s == [];
    }
  }

  /** Which digit strings are a generation, and which, with an optional sign, a position. */
  lemma ParsesExactly(s: seq<Byte>)
    ensures ParseUint(s) == if s != [] && AllDigits(s) && Worth(s) < TWO64 then Some(Worth(s)) else None
    ensures
      var signed := s != [] && s[0] in {43, 45};
      var digits := if signed then s[1..] else s;
      var v := if signed && s[0] == 45 then -Worth(digits) else Worth(digits);
      Atoi(s) == if digits != [] && AllDigits(digits) && -0x8000_0000_0000_0000 <= v <= 0x7FFF_FFFF_FFFF_FFFF
                 then Some(v) else None
  {
    if AllDigits(s) {
      DigitsWorth(s);
    }
    if s != [] && AllDigits(s[1..]) {
      DigitsWorth(s[1..]);
    }
  }
}
