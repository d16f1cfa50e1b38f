/**
 * The `java.lang.String` / `Integer` operations the core depends on, written out
 * so that their edge cases (how `trim` strips, how `split` drops trailing empty
 * pieces, what `Integer.parseInt` refuses) are part of the model.
 * Case mapping covers ASCII letters only; lengths and hashes count UTF-16 units.
 */
module JavaText {
  import opened Wrappers

  /** An octet, as in Java's `byte[]` (its sign is irrelevant here). */
  newtype byte = b: int | 0 <= b < 256

  const Int32Min: int := -0x8000_0000
  const Int32Max: int := 0x7fff_ffff

  /** The values a Java `int` can hold. */
  predicate IsInt32(n: int) {
    Int32Min <= n <= Int32Max
  }

  /** `n` reduced into the `int` range the way Java's 32-bit arithmetic wraps. */
  function WrapInt32(n: int): (r: int)
    ensures IsInt32(r)
    ensures IsInt32(n) ==> r == n
    ensures (r - n) % 0x1_0000_0000 == 0
  {
    (n - Int32Min) % 0x1_0000_0000 + Int32Min
  }

  // ---------------------------------------------------------------------------
  // trim
  // ---------------------------------------------------------------------------

  /** `String.trim` strips every character whose code is at most U+0020. */
  predicate IsBlank(c: char) {
    c <= ' '
  }

  function TrimStart(s: string): (r: string)
    ensures |r| <= |s| && r == s[|s| - |r|..]
    ensures forall i :: 0 <= i < |s| - |r| ==> IsBlank(s[i])
    ensures r == [] || !IsBlank(r[0])
  {
    if s != [] && IsBlank(s[0]) then TrimStart(s[1..]) else s
  }

  function TrimEnd(s: string): (r: string)
    ensures |r| <= |s| && r == s[..|r|]
    ensures forall i :: |r| <= i < |s| ==> IsBlank(s[i])
    ensures r == [] || !IsBlank(r[|r| - 1])
  {
    if s != [] && IsBlank(s[|s| - 1]) then TrimEnd(s[..|s| - 1]) else s
  }

  /** `String.trim`. */
  function Trim(s: string): (r: string)
    ensures r == [] || (!IsBlank(r[0]) && !IsBlank(r[|r| - 1]))
  {
    TrimEnd(TrimStart(s))
  }

  predicate AllBlank(s: string) {
    forall i :: 0 <= i < |s| ==> IsBlank(s[i])
  }

  lemma {:induction false} TrimStartOfBlank(s: string)
    requires AllBlank(s)
    ensures TrimStart(s) == []
  {
    if s != [] {
      TrimStartOfBlank(s[1..]);
    }
  }

  /** `trim` returns the empty string exactly when every character is blank. */
  lemma TrimEmptyIffAllBlank(s: string)
    ensures Trim(s) == [] <==> AllBlank(s)
  {
    var t := TrimStart(s);
    if AllBlank(s) {
      TrimStartOfBlank(s);
    }
    if Trim(s) == [] {
      // TrimEnd leaves a non-blank last character, so it empties only an all-blank string;
      // TrimStart's result starts non-blank, so that string is itself empty.
      assert t == [];
    }
  }

  lemma {:induction false} TrimStartOfPadded(a: string, x: string)
    requires AllBlank(a)
    requires x == [] || !IsBlank(x[0])
    ensures TrimStart(a + x) == x
  {
    if a != [] {
      assert (a + x)[0] == a[0];
      assert (a + x)[1..] == a[1..] + x;
      TrimStartOfPadded(a[1..], x);
    } else {
      assert a + x == x;
    }
  }

  lemma {:induction false} TrimEndOfPadded(x: string, b: string)
    requires AllBlank(b)
    requires x == [] || !IsBlank(x[|x| - 1])
    ensures TrimEnd(x + b) == x
  {
    if b != [] {
      var xb := x + b;
      assert xb[|xb| - 1] == b[|b| - 1];
      assert xb[..|xb| - 1] == x + b[..|b| - 1];
      TrimEndOfPadded(x, b[..|b| - 1]);
    } else {
      assert x + b == x;
    }
  }

  /** The characterisation of `trim`: blank padding around a core with non-blank ends is removed, and only it. */
  lemma TrimOfPadded(a: string, m: string, b: string)
    requires AllBlank(a) && AllBlank(b)
    requires m == [] || (!IsBlank(m[0]) && !IsBlank(m[|m| - 1]))
    ensures Trim(a + m + b) == m
  {
    var s := a + m + b;
    if m == [] {
      assert AllBlank(s) by {
        forall i | 0 <= i < |s| ensures IsBlank(s[i]) {
          if i < |a| { assert s[i] == a[i]; } else { assert s[i] == b[i - |a|]; }
        }
      }
      TrimEmptyIffAllBlank(s);
    } else {
      assert s == a + (m + b);
      TrimStartOfPadded(a, m + b);
      TrimEndOfPadded(m, b);
    }
  }

  /** Trimming twice is trimming once. */
  lemma TrimIdempotent(s: string)
    ensures Trim(Trim(s)) == Trim(s)
  {
    TrimOfPadded([], Trim(s), []);
    assert [] + Trim(s) + [] == Trim(s);
  }

  // ---------------------------------------------------------------------------
  // ASCII case mapping
  // ---------------------------------------------------------------------------

  function LowerChar(c: char): char {
    if 'A' <= c <= 'Z' then (c as int + 32) as char else c
  }

  function UpperChar(c: char): char {
    if 'a' <= c <= 'z' then (c as int - 32) as char else c
  }

  /** `String.toLowerCase` on ASCII letters. */
  function ToLower(s: string): (r: string)
    ensures |r| == |s|
    ensures forall i :: 0 <= i < |s| ==> r[i] == LowerChar(s[i])
  {
    if s == [] then [] else [LowerChar(s[0])] + ToLower(s[1..])
  }

  /** `String.toUpperCase` on ASCII letters. */
  function ToUpper(s: string): (r: string)
    ensures |r| == |s|
    ensures forall i :: 0 <= i < |s| ==> r[i] == UpperChar(s[i])
  {
    if s == [] then [] else [UpperChar(s[0])] + ToUpper(s[1..])
  }

  /** `String.equalsIgnoreCase` on ASCII letters. */
  predicate EqualsIgnoreCase(a: string, b: string) {
    ToLower(a) == ToLower(b)
  }

  /** `s.toLowerCase().startsWith(p.toLowerCase())`. */
  predicate StartsWithIgnoreCase(s: string, p: string) {
    ToLower(p) <= ToLower(s)
  }

  /** `String.endsWith`. */
  predicate EndsWith(s: string, suffix: string) {
    |suffix| <= |s| && s[|s| - |suffix|..] == suffix
  }

  /** `String.replace(char, char)`. */
  function ReplaceChar(s: string, from: char, to: char): (r: string)
    ensures |r| == |s|
    ensures forall i :: 0 <= i < |s| ==> r[i] == (if s[i] == from then to else s[i])
  {
    if s == [] then [] else [if s[0] == from then to else s[0]] + ReplaceChar(s[1..], from, to)
  }

  /**
   * `String.replace(CharSequence, CharSequence)`: every occurrence of `target`,
   * found left to right without overlap, becomes `replacement`.
   */
  function Replace(s: string, target: string, replacement: string): string
    requires target != []
    decreases |s|
  {
    if |s| < |target| then s
    else if s[..|target|] == target then replacement + Replace(s[|target|..], target, replacement)
    else [s[0]] + Replace(s[1..], target, replacement)
  }

  /** A prefix holding no copy of `target`'s first character passes through `replace` untouched. */
  lemma {:induction false} ReplaceSkipsPrefix(s: string, t: string, target: string, replacement: string)
    requires target != [] && target[0] !in s
    ensures Replace(s + t, target, replacement) == s + Replace(t, target, replacement)
  {
    if s != [] {
      var st := s + t;
      if |st| >= |target| {
        assert st[0] == s[0];
        assert st[..|target|] != target by {
          assert st[..|target|][0] == s[0];
        }
      }
      assert st[1..] == s[1..] + t;
      ReplaceSkipsPrefix(s[1..], t, target, replacement);
    } else {
      assert s + t == t;
    }
  }

  // ---------------------------------------------------------------------------
  // Integers as decimal text
  // ---------------------------------------------------------------------------

  predicate IsDigit(c: char) {
    '0' <= c <= '9'
  }

  predicate AllDigits(s: string) {
    forall i :: 0 <= i < |s| ==> IsDigit(s[i])
  }

  function DigitChar(d: nat): (c: char)
    requires d < 10
    ensures IsDigit(c)
  {
    ('0' as int + d) as char
  }

  function DigitValue(c: char): (d: nat)
    requires IsDigit(c)
    ensures d < 10
  {
    c as int - '0' as int
  }

  /** The decimal numeral of `n`, without leading zeros. */
  function NatToString(n: nat): (r: string)
    ensures r != [] && AllDigits(r)
    ensures |r| > 1 ==> r[0] != '0'
    decreases n
  {
    if n < 10 then [DigitChar(n)] else NatToString(n / 10) + [DigitChar(n % 10)]
  }

  /** `String.valueOf(int)`. */
  function IntToString(n: int): (r: string)
    ensures r != []
    ensures forall i :: 0 <= i < |r| ==> IsDigit(r[i]) || (i == 0 && r[i] == '-')
  {
    if n < 0 then "-" + NatToString(-n) else NatToString(n)
  }

  /** The value of a string of decimal digits. */
  function ParseDigits(s: string): nat
    requires AllDigits(s)
  {
    if s == [] then 0 else ParseDigits(s[..|s| - 1]) * 10 + DigitValue(s[|s| - 1])
  }

  /** An optional '-' or '+' sign followed by the value of at least one decimal digit, of any size. */
  function ParseSigned(s: string): (r: Option<int>)
    ensures r.Some? ==> s != [] && AllDigits(if s[0] == '-' || s[0] == '+' then s[1..] else s)
  {
    if s == [] then None
    else
      var body := if s[0] == '-' || s[0] == '+' then s[1..] else s;
      if body == [] || !AllDigits(body) then None
      else
        var v: int := ParseDigits(body);
        Some(if s[0] == '-' then -v else v)
  }

  /**
   * `Integer.parseInt(s)`: an optional sign, then at least one digit, and a value
   * that fits in an `int`; anything else throws `NumberFormatException` (here `None`).
   */
  function ParseInt(s: string): (r: Option<int>)
    ensures r.Some? ==> IsInt32(r.value)
    ensures r.Some? ==> ParseSigned(s) == r
  {
    match ParseSigned(s)
    case Some(v) => if IsInt32(v) then Some(v) else None
    case None => None
  }

  lemma {:induction false} ParseDigitsOfNatToString(n: nat)
    ensures ParseDigits(NatToString(n)) == n
    decreases n
  {
    if n >= 10 {
      var s := NatToString(n);
      assert s[..|s| - 1] == NatToString(n / 10);
      ParseDigitsOfNatToString(n / 10);
    }
  }

  /** Reading back what `String.valueOf` writes gives the same integer, of any size. */
  lemma ParseSignedOfIntToString(n: int)
    ensures ParseSigned(IntToString(n)) == Some(n)
  {
    var s := IntToString(n);
    if n < 0 {
      ParseDigitsOfNatToString(-n);
      assert s[1..] == NatToString(-n);
    } else {
      ParseDigitsOfNatToString(n);
      assert IsDigit(s[0]);
    }
  }

  /** `Integer.parseInt` reads back every `int` that `String.valueOf` writes. */
  lemma IntToStringRoundTrip(n: int)
    requires IsInt32(n)
    ensures ParseInt(IntToString(n)) == Some(n)
  {
    ParseSignedOfIntToString(n);
  }

  /** Distinct integers are written as distinct strings. */
  lemma IntToStringInjective(m: int, n: int)
    requires IntToString(m) == IntToString(n)
    ensures m == n
  {
    ParseSignedOfIntToString(m);
    ParseSignedOfIntToString(n);
  }

  // ---------------------------------------------------------------------------
  // UTF-16: what `length()` counts and `hashCode` runs over
  // ---------------------------------------------------------------------------

  /** A character in the Basic Multilingual Plane takes one UTF-16 unit. */
  predicate InBmp(c: char) {
    c as int < 0x10000
  }

  /** The UTF-16 units of one character: itself, or a high and a low surrogate above U+FFFF. */
  function CharUnits(c: char): (r: seq<int>)
    ensures |r| == if InBmp(c) then 1 else 2
    ensures InBmp(c) ==> r == [c as int]
    ensures !InBmp(c) ==> 0xD800 <= r[0] < 0xDC00 && 0xDC00 <= r[1] < 0xE000
  {
    var v := c as int;
    if v < 0x10000 then [v] else [0xD800 + (v - 0x10000) / 0x400, 0xDC00 + (v - 0x10000) % 0x400]
  }

  /** The `char` array of a Java string holding `s`. */
  function Utf16(s: string): (r: seq<int>)
    ensures |s| <= |r| <= 2 * |s|
    ensures forall i :: 0 <= i < |r| ==> 0 <= r[i] < 0x10000
  {
    if s == [] then [] else CharUnits(s[0]) + Utf16(s[1..])
  }

  /** `String.length()`: the number of UTF-16 units. */
  function Utf16Length(s: string): (n: nat)
    ensures |s| <= n <= 2 * |s|
  {
    |Utf16(s)|
  }

  /** Reading UTF-16 units back into characters; `None` for an unpaired surrogate. */
  function Utf16Decode(us: seq<int>): (r: Option<string>)
    decreases |us|
  {
    if us == [] then Some([])
    else if 0 <= us[0] < 0xD800 || 0xE000 <= us[0] < 0x10000 then
      match Utf16Decode(us[1..])
      case Some(t) => Some([us[0] as char] + t)
      case None => None
    else if 0xD800 <= us[0] < 0xDC00 && |us| >= 2 && 0xDC00 <= us[1] < 0xE000 then
      match Utf16Decode(us[2..])
      case Some(t) => Some([(0x10000 + (us[0] - 0xD800) * 0x400 + (us[1] - 0xDC00)) as char] + t)
      case None => None
    else None
  }

  /** The surrogate pair of a character above U+FFFF combines back into it. */
  lemma PairCombines(c: char)
    requires !InBmp(c)
    ensures 0x10000 + (CharUnits(c)[0] - 0xD800) * 0x400 + (CharUnits(c)[1] - 0xDC00) == c as int
  {
    var w := c as int - 0x10000;
    assert w == (w / 0x400) * 0x400 + w % 0x400;
  }

  /** Decoding the units of a string gives the string back, so distinct strings have distinct units. */
  lemma {:induction false} Utf16RoundTrip(s: string)
    ensures Utf16Decode(Utf16(s)) == Some(s)
  {
    if s != [] {
      var us := Utf16(s);
      var cu := CharUnits(s[0]);
      assert us == cu + Utf16(s[1..]);
      Utf16RoundTrip(s[1..]);
      if InBmp(s[0]) {
        assert us[0] == s[0] as int && us[1..] == Utf16(s[1..]);
      } else {
        PairCombines(s[0]);
        assert us[0] == cu[0] && us[1] == cu[1] && us[2..] == Utf16(s[1..]);
      }
      assert s == [s[0]] + s[1..];
    }
  }

  lemma {:induction false} Utf16Append(s: string, t: string)
    ensures Utf16(s + t) == Utf16(s) + Utf16(t)
  {
    if s == [] {
      assert s + t == t;
    } else {
      assert (s + t)[0] == s[0] && (s + t)[1..] == s[1..] + t;
      Utf16Append(s[1..], t);
    }
  }

  /** `length()` counts the characters exactly when none lies above U+FFFF. */
  lemma {:induction false} LengthOfBmp(s: string)
    ensures Utf16Length(s) == |s| <==> forall i :: 0 <= i < |s| ==> InBmp(s[i])
  {
    if s != [] {
      LengthOfBmp(s[1..]);
      if InBmp(s[0]) {
        assert forall i :: 1 <= i < |s| ==> s[i] == s[1..][i - 1];
      }
    }
  }

  /** `h = 31 * h + u` over the units, wrapping at 32 bits. */
  function UnitsHash(us: seq<int>): (h: int)
    ensures IsInt32(h)
  {
    if us == [] then 0 else WrapInt32(31 * UnitsHash(us[..|us| - 1]) + us[|us| - 1])
  }

  /** `String.hashCode`: the hash of the UTF-16 units. */
  function StringHash(s: string): (h: int)
    ensures IsInt32(h)
  {
    UnitsHash(Utf16(s))
  }

  lemma UnitsHashSnoc(us: seq<int>, u: int)
    ensures UnitsHash(us + [u]) == WrapInt32(31 * UnitsHash(us) + u)
  {
    assert (us + [u])[..|us|] == us;
  }

  /** The units of a string with a character appended. */
  lemma Utf16Snoc(s: string, c: char)
    ensures Utf16(s + [c]) == Utf16(s) + CharUnits(c)
  {
    Utf16Append(s, [c]);
    assert Utf16([c]) == CharUnits(c) + Utf16([]);
  }

  /**
   * Appending a character folds its units into the hash: one step for a
   * character of the Basic Multilingual Plane, two for a surrogate pair.
   */
  lemma StringHashSnoc(s: string, c: char)
    ensures InBmp(c) ==> StringHash(s + [c]) == WrapInt32(31 * StringHash(s) + c as int)
    ensures !InBmp(c) ==>
              StringHash(s + [c]) == WrapInt32(31 * WrapInt32(31 * StringHash(s) + CharUnits(c)[0]) + CharUnits(c)[1])
  {
    HashOfSnoc(s, c);
    UnitsHashOfChar(Utf16(s), c);
  }

  lemma UnitsHashOfChar(us: seq<int>, c: char)
    ensures InBmp(c) ==> UnitsHash(us + CharUnits(c)) == WrapInt32(31 * UnitsHash(us) + c as int)
    ensures !InBmp(c) ==>
              UnitsHash(us + CharUnits(c)) == WrapInt32(31 * WrapInt32(31 * UnitsHash(us) + CharUnits(c)[0]) + CharUnits(c)[1])
  {
    var cu := CharUnits(c);
    if InBmp(c) {
      UnitsHashSnoc(us, cu[0]);
    } else {
      assert cu == [cu[0], cu[1]];
      PairHash(us, cu[0], cu[1]);
    }
  }

  lemma HashOfSnoc(s: string, c: char)
    ensures StringHash(s + [c]) == UnitsHash(Utf16(s) + CharUnits(c))
  {
    Utf16Snoc(s, c);
  }

  lemma PairHash(us: seq<int>, hi: int, lo: int)
    ensures UnitsHash(us + [hi, lo]) == WrapInt32(31 * WrapInt32(31 * UnitsHash(us) + hi) + lo)
  {
    assert us + [hi, lo] == (us + [hi]) + [lo];
    UnitsHashSnoc(us, hi);
    UnitsHashSnoc(us + [hi], lo);
  }

  /** The low byte of each character: for ASCII text, the bytes `String.getBytes` yields. */
  function AsciiBytes(s: string): (r: seq<byte>)
    ensures |r| == |s|
  {
    if s == [] then [] else [(s[0] as int % 256) as byte] + AsciiBytes(s[1..])
  }

  // ---------------------------------------------------------------------------
  // split
  // ---------------------------------------------------------------------------

  /** The pieces between occurrences of `sep`, keeping every empty piece. */
  function Pieces(s: string, sep: char): (r: seq<string>)
    ensures |r| >= 1
    ensures forall i :: 0 <= i < |r| ==> sep !in r[i]
  {
    if s == [] then [[]]
    else
      var rest := Pieces(s[1..], sep);
      if s[0] == sep then [[]] + rest else [[s[0]] + rest[0]] + rest[1..]
  }

  /** The pieces joined back with `sep` between them. */
  function Join(ps: seq<string>, sep: char): string
    requires |ps| >= 1
  {
    if |ps| == 1 then ps[0] else ps[0] + [sep] + Join(ps[1..], sep)
  }

  /** One more piece at the end. */
  lemma {:induction false} JoinSnoc(ps: seq<string>, q: string, sep: char)
    requires |ps| >= 1
    ensures Join(ps + [q], sep) == Join(ps, sep) + [sep] + q
    decreases |ps|
  {
    if |ps| == 1 {
      assert (ps + [q])[1..] == [q];
    } else {
      assert (ps + [q])[1..] == ps[1..] + [q];
      JoinSnoc(ps[1..], q, sep);
    }
  }

  /** Splitting and joining back gives the original string. */
  lemma {:induction false} JoinPieces(s: string, sep: char)
    ensures Join(Pieces(s, sep), sep) == s
  {
    if s != [] {
      var rest := Pieces(s[1..], sep);
      JoinPieces(s[1..], sep);
      if s[0] == sep {
        assert Pieces(s, sep)[1..] == rest;
      } else {
        var ps := Pieces(s, sep);
        if |rest| == 1 {
          assert ps == [[s[0]] + rest[0]];
        } else {
          assert ps[1..] == rest[1..];
          assert Join(rest, sep) == rest[0] + [sep] + Join(rest[1..], sep);
        }
      }
    }
  }

  lemma {:induction false} PiecesWithoutSep(a: string, sep: char)
    requires sep !in a
    ensures Pieces(a, sep) == [a]
  {
    if a != [] {
      assert a[0] != sep && sep !in a[1..];
      PiecesWithoutSep(a[1..], sep);
      assert [a[0]] + a[1..] == a;
    }
  }

  /** A leading piece without `sep` is split off whole. */
  lemma {:induction false} PiecesOfJoin(a: string, sep: char, b: string)
    requires sep !in a
    ensures Pieces(a + [sep] + b, sep) == [a] + Pieces(b, sep)
  {
    if a != [] {
      var s := a + [sep] + b;
      assert s[0] == a[0] && a[0] != sep && sep !in a[1..];
      assert s[1..] == a[1..] + [sep] + b;
      PiecesOfJoin(a[1..], sep, b);
      assert [a[0]] + a[1..] == a;
    } else {
      assert (a + [sep] + b)[1..] == b;
    }
  }

  /** Joining pieces that hold no `sep` and splitting again gives the same pieces. */
  lemma {:induction false} PiecesOfJoinAll(ps: seq<string>, sep: char)
    requires |ps| >= 1
    requires forall i :: 0 <= i < |ps| ==> sep !in ps[i]
    ensures Pieces(Join(ps, sep), sep) == ps
  {
    if |ps| == 1 {
      PiecesWithoutSep(ps[0], sep);
    } else {
      PiecesOfJoinAll(ps[1..], sep);
      PiecesOfJoin(ps[0], sep, Join(ps[1..], sep));
    }
  }

  function DropTrailingEmpty(ps: seq<string>): (r: seq<string>)
    ensures r <= ps
    ensures r == [] || r[|r| - 1] != []
    ensures forall i :: |r| <= i < |ps| ==> ps[i] == []
  {
    if ps != [] && ps[|ps| - 1] == [] then DropTrailingEmpty(ps[..|ps| - 1]) else ps
  }

  /**
   * `String.split(sep)` for a one-character literal pattern and limit 0: without an
   * occurrence the string itself; otherwise every piece, leading empty ones
   * included, with the trailing empty pieces removed.
   */
  function Split(s: string, sep: char): seq<string> {
    if sep !in s then [s] else DropTrailingEmpty(Pieces(s, sep))
  }
}
