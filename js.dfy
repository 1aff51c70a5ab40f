/**
 * The JavaScript built-ins the bot's parsers lean on, written out so that
 * their edge cases are explicit: `String.prototype.trim`, ASCII case
 * mapping, `split`/`join` on one character, `parseInt`, number-to-string,
 * `Array.prototype.slice`, and numbers that may be `NaN`.
 */
module Js {
  import opened Wrappers

  // ---------------------------------------------------------------------
  // Characters

  /** The characters `trim` removes and `\s` matches (WhiteSpace and LineTerminator). */
  predicate IsSpace(c: char)
  {
    c == ' ' || c == '\t' || c == '\n' || c == '\U{000B}' || c == '\U{000C}' || c == '\r'
    || c == '\U{00A0}' || c == '\U{1680}' || ('\U{2000}' <= c <= '\U{200A}')
    || c == '\U{2028}' || c == '\U{2029}' || c == '\U{202F}' || c == '\U{205F}'
    || c == '\U{3000}' || c == '\U{FEFF}'
  }

  /** The characters a regular-expression `.` does not match. */
  predicate IsLineTerminator(c: char)
  {
    c == '\n' || c == '\r' || c == '\U{2028}' || c == '\U{2029}'
  }

  predicate IsDigit(c: char) { '0' <= c <= '9' }

  predicate IsLowerLetter(c: char) { 'a' <= c <= 'z' }

  /** `\w`: ASCII letters, digits and underscore. */
  predicate IsWordChar(c: char)
  {
    'a' <= c <= 'z' || 'A' <= c <= 'Z' || IsDigit(c) || c == '_'
  }

  predicate AllSpace(s: string) { forall i :: 0 <= i < |s| ==> IsSpace(s[i]) }

  predicate AllDigits(s: string) { forall i :: 0 <= i < |s| ==> IsDigit(s[i]) }

  predicate AllLowerLetters(s: string) { forall i :: 0 <= i < |s| ==> IsLowerLetter(s[i]) }

  /** What `(.+)$` accepts at the end of an unanchored-multiline pattern. */
  predicate IsDotRun(s: string)
  {
    |s| > 0 && forall i :: 0 <= i < |s| ==> !IsLineTerminator(s[i])
  }

  predicate StartsWith(s: string, prefix: string)
  {
    |prefix| <= |s| && s[..|prefix|] == prefix
  }

  /** `s.includes(part)`. */
  predicate Contains(s: string, part: string)
  {
    StartsWith(s, part) || (|s| > 0 && Contains(s[1..], part))
  }

  /** `names.includes(x)`, checked one entry at a time. */
  predicate Listed(x: string, names: seq<string>)
  {
    |names| > 0 && (names[0] == x || Listed(x, names[1..]))
  }

  lemma {:induction false} ListedIsIn(x: string, names: seq<string>)
    ensures Listed(x, names) <==> x in names
  {
    if |names| > 0 {
      ListedIsIn(x, names[1..]);
      assert names == [names[0]] + names[1..];
    }
  }

  /** The length of the run of lower-case ASCII letters `s` starts with: what `^[a-z]+` can consume. */
  function LowerRun(s: string): (n: nat)
    ensures n <= |s| && AllLowerLetters(s[..n])
    ensures n < |s| ==> !IsLowerLetter(s[n])
  {
    if |s| > 0 && IsLowerLetter(s[0]) then 1 + LowerRun(s[1..]) else 0
  }

  /** A letter run followed by a non-letter is exactly the run `^[a-z]+` finds. */
  lemma {:induction false} LowerRunOf(a: string, rest: string)
    requires AllLowerLetters(a)
    requires rest == [] || !IsLowerLetter(rest[0])
    ensures LowerRun(a + rest) == |a|
  {
    if a == [] {
      assert a + rest == rest;
    } else {
      assert (a + rest)[1..] == a[1..] + rest;
      LowerRunOf(a[1..], rest);
    }
  }

  // ---------------------------------------------------------------------
  // trim

  /** The number of whitespace characters at the start of `s`. */
  function LeadingSpaces(s: string): (n: nat)
    ensures n <= |s| && forall i :: 0 <= i < n ==> IsSpace(s[i])
    ensures n < |s| ==> !IsSpace(s[n])
  {
    if |s| > 0 && IsSpace(s[0]) then 1 + LeadingSpaces(s[1..]) else 0
  }

  /** The number of whitespace characters at the end of `s`. */
  function TrailingSpaces(s: string): (n: nat)
    ensures n <= |s| && forall i :: |s| - n <= i < |s| ==> IsSpace(s[i])
    ensures n < |s| ==> !IsSpace(s[|s| - n - 1])
  {
    if |s| > 0 && IsSpace(s[|s| - 1]) then 1 + TrailingSpaces(s[..|s| - 1]) else 0
  }

  function TrimStart(s: string): (r: string)
    ensures |r| <= |s| && r == s[|s| - |r|..]
    ensures AllSpace(s[..|s| - |r|])
    ensures r == [] || !IsSpace(r[0])
  {
    s[LeadingSpaces(s)..]
  }

  function TrimEnd(s: string): (r: string)
    ensures |r| <= |s| && r == s[..|r|]
    ensures AllSpace(s[|r|..])
    ensures r == [] || !IsSpace(r[|r| - 1])
  {
    s[..|s| - TrailingSpaces(s)]
  }

  lemma TrimStartStep(s: string)
    requires |s| > 0 && IsSpace(s[0])
    ensures TrimStart(s) == TrimStart(s[1..])
  {
    assert LeadingSpaces(s) == 1 + LeadingSpaces(s[1..]);
  }

  lemma TrimStartStop(s: string)
    requires |s| == 0 || !IsSpace(s[0])
    ensures TrimStart(s) == s
  {
  }

  lemma TrimEndStep(s: string)
    requires |s| > 0 && IsSpace(s[|s| - 1])
    ensures TrimEnd(s) == TrimEnd(s[..|s| - 1])
  {
    assert TrailingSpaces(s) == 1 + TrailingSpaces(s[..|s| - 1]);
  }

  lemma TrimEndStop(s: string)
    requires |s| == 0 || !IsSpace(s[|s| - 1])
    ensures TrimEnd(s) == s
  {
  }

  /** `String.prototype.trim`. */
  function Trim(s: string): (r: string)
    ensures r == [] || (!IsSpace(r[0]) && !IsSpace(r[|r| - 1]))
  {
    TrimEnd(TrimStart(s))
  }

  lemma {:induction false} TrimStartOfSpaces(w: string, s: string)
    requires AllSpace(w)
    ensures TrimStart(w + s) == TrimStart(s)
  {
    if w != [] {
      assert (w + s)[0] == w[0] && IsSpace(w[0]);
      assert (w + s)[1..] == w[1..] + s;
      assert TrimStart(w + s) == TrimStart(w[1..] + s);
      TrimStartOfSpaces(w[1..], s);
    } else {
      assert w + s == s;
    }
  }

  lemma {:induction false} TrimEndOfSpaces(s: string, w: string)
    requires AllSpace(w)
    ensures TrimEnd(s + w) == TrimEnd(s)
  {
    if w != [] {
      var w' := w[..|w| - 1];
      assert (s + w)[|s + w| - 1] == w[|w| - 1] && IsSpace(w[|w| - 1]);
      assert (s + w)[..|s + w| - 1] == s + w';
      TrimEndOfSpaces(s, w');
    } else {
      assert s + w == s;
    }
  }

  lemma {:induction false} TrimStartAllSpace(s: string)
    requires AllSpace(s)
    ensures TrimStart(s) == []
  {
    if s != [] { TrimStartAllSpace(s[1..]); }
  }

  lemma {:induction false} TrimStartAppend(s: string, t: string)
    requires !AllSpace(s)
    ensures TrimStart(s + t) == TrimStart(s) + t
  {
    assert |s| > 0;
    if IsSpace(s[0]) {
      assert (s + t)[1..] == s[1..] + t;
      TrimStartAppend(s[1..], t);
    }
  }

  /** `trim` only removes characters, so a character absent before is absent after. */
  lemma TrimKeepsOut(s: string, c: char)
    requires c !in s
    ensures c !in Trim(s)
  {
    var t := TrimStart(s);
    var r := TrimEnd(t);
    forall i | 0 <= i < |r| ensures r[i] != c {
      assert r[i] == t[i] == s[|s| - |t| + i];
    }
  }

  /** Whitespace added around a string does not change what `trim` returns. */
  lemma TrimIgnoresPadding(w1: string, s: string, w2: string)
    requires AllSpace(w1) && AllSpace(w2)
    ensures Trim(w1 + s + w2) == Trim(s)
  {
    assert w1 + s + w2 == w1 + (s + w2);
    TrimStartOfSpaces(w1, s + w2);
    if AllSpace(s) {
      assert AllSpace(s + w2);
      TrimStartAllSpace(s + w2);
      TrimStartAllSpace(s);
    } else {
      TrimStartAppend(s, w2);
      TrimEndOfSpaces(TrimStart(s), w2);
    }
  }

  lemma TrimIdempotent(s: string)
    ensures Trim(Trim(s)) == Trim(s)
  {
    var r := Trim(s);
    if r != [] {
      assert TrimStart(r) == r;
    }
  }

  // ---------------------------------------------------------------------
  // ASCII case mapping (Unicode case mapping is not modelled)

  function LowerChar(c: char): (d: char)
    ensures 'A' <= c <= 'Z' ==> d as int == c as int + 32
    ensures !('A' <= c <= 'Z') ==> d == c
  {
    if 'A' <= c <= 'Z' then (c as int + 32) as char else c
  }

  function UpperChar(c: char): (d: char)
    ensures 'a' <= c <= 'z' ==> d as int == c as int - 32
    ensures !('a' <= c <= 'z') ==> d == c
  {
    if 'a' <= c <= 'z' then (c as int - 32) as char else c
  }

  function ToLower(s: string): (r: string)
    ensures |r| == |s| && forall i :: 0 <= i < |s| ==> r[i] == LowerChar(s[i])
  {
    seq(|s|, i requires 0 <= i < |s| => LowerChar(s[i]))
  }

  function ToUpper(s: string): (r: string)
    ensures |r| == |s| && forall i :: 0 <= i < |s| ==> r[i] == UpperChar(s[i])
  {
    seq(|s|, i requires 0 <= i < |s| => UpperChar(s[i]))
  }

  lemma ToLowerIdempotent(s: string)
    ensures ToLower(ToLower(s)) == ToLower(s)
  {
  }

  /** Two strings that differ only in ASCII letter case lower to the same string. */
  predicate SameIgnoringCase(a: string, b: string)
  {
    ToLower(a) == ToLower(b)
  }

  // ---------------------------------------------------------------------
  // split / join on a single character

  /** `s.split(sep)` for a one-character separator. */
  function Split(s: string, sep: char): (parts: seq<string>)
    ensures |parts| >= 1
    ensures forall k :: 0 <= k < |parts| ==> sep !in parts[k]
  {
    if |s| == 0 then [""]
    else
      var rest := Split(s[1..], sep);
      if s[0] == sep then [""] + rest else [[s[0]] + rest[0]] + rest[1..]
  }

  /** `parts.join(sep)`. */
  function Join(parts: seq<string>, sep: char): string
  {
    if |parts| == 0 then ""
    else if |parts| == 1 then parts[0]
    else parts[0] + [sep] + Join(parts[1..], sep)
  }

  /** Splitting and re-joining on the same character gives the string back. */
  lemma {:induction false} JoinSplit(s: string, sep: char)
    ensures Join(Split(s, sep), sep) == s
  {
    if |s| > 0 {
      var rest := Split(s[1..], sep);
      JoinSplit(s[1..], sep);
      if s[0] == sep {
        assert Split(s, sep) == [""] + rest;
        assert ([""] + rest)[1..] == rest;
      } else {
        var parts := [[s[0]] + rest[0]] + rest[1..];
        assert Split(s, sep) == parts;
        if |rest| == 1 {
          assert Join(parts, sep) == [s[0]] + rest[0];
        } else {
          assert parts[1..] == rest[1..];
          assert Join(parts, sep) == [s[0]] + rest[0] + [sep] + Join(rest[1..], sep);
        }
        assert s == [s[0]] + s[1..];
      }
    }
  }

  /** Joining parts free of the separator and splitting again gives the parts back. */
  lemma {:induction false} SplitJoin(parts: seq<string>, sep: char)
    requires |parts| >= 1
    requires forall k :: 0 <= k < |parts| ==> sep !in parts[k]
    ensures Split(Join(parts, sep), sep) == parts
  {
    if |parts| == 1 {
      SplitNoSeparator(parts[0], sep);
    } else {
      SplitJoin(parts[1..], sep);
      SplitPrefix(parts[0], Join(parts[1..], sep), sep);
      assert [parts[0]] + parts[1..] == parts;
    }
  }

  lemma {:induction false} SplitNoSeparator(s: string, sep: char)
    requires sep !in s
    ensures Split(s, sep) == [s]
  {
    if |s| > 0 {
      SplitNoSeparator(s[1..], sep);
      assert [s[0]] + s[1..] == s;
    }
  }

  lemma {:induction false} SplitPrefix(w: string, t: string, sep: char)
    requires sep !in w
    ensures Split(w + [sep] + t, sep) == [w] + Split(t, sep)
  {
    if |w| == 0 {
      assert w + [sep] + t == [sep] + t;
      assert ([sep] + t)[1..] == t;
    } else {
      assert (w + [sep] + t)[1..] == w[1..] + [sep] + t;
      SplitPrefix(w[1..], t, sep);
      assert [w[0]] + w[1..] == w;
    }
  }

  // ---------------------------------------------------------------------
  // Digits and integers

  function DigitValue(c: char): nat
    requires IsDigit(c)
  {
    c as int - '0' as int
  }

  /** The value of a run of decimal digits, most significant first. */
  function DigitsValue(s: string): nat
    requires AllDigits(s)
  {
    if |s| == 0 then 0 else DigitsValue(s[..|s| - 1]) * 10 + DigitValue(s[|s| - 1])
  }

  /** The longest prefix of `s` made of decimal digits. */
  function DigitPrefix(s: string): (d: string)
    ensures |d| <= |s| && d == s[..|d|] && AllDigits(d)
    ensures |d| == |s| || !IsDigit(s[|d|])
  {
    if |s| > 0 && IsDigit(s[0]) then
      var rest := DigitPrefix(s[1..]);
      assert s[1..][..|rest|] == s[1..|rest| + 1];
      [s[0]] + rest
    else ""
  }

  function DigitChar(d: nat): (c: char)
    requires d < 10
    ensures IsDigit(c)
  {
    ('0' as int + d) as char
  }

  /** The shortest decimal spelling of a natural number, as `String(n)` writes it. */
  function NatToString(n: nat): (s: string)
    ensures |s| >= 1 && AllDigits(s)
    ensures n > 0 ==> s[0] != '0'
  {
    if n < 10 then [DigitChar(n)] else NatToString(n / 10) + [DigitChar(n % 10)]
  }

  /** `String(i)` for an integer. */
  function IntToString(i: int): (s: string)
    ensures i >= 0 ==> s == NatToString(i)
    ensures i < 0 ==> s == "-" + NatToString(-i)
  {
    if i < 0 then "-" + NatToString(-i) else NatToString(i)
  }

  lemma {:induction false} NatToStringValue(n: nat)
    ensures DigitsValue(NatToString(n)) == n
  {
    var s := NatToString(n);
    if n >= 10 {
      NatToStringValue(n / 10);
      assert s[..|s| - 1] == NatToString(n / 10);
    }
  }

  lemma {:induction false} DigitPrefixOfDigits(s: string)
    requires AllDigits(s)
    ensures DigitPrefix(s) == s
  {
    if |s| > 0 {
      DigitPrefixOfDigits(s[1..]);
      assert [s[0]] + s[1..] == s;
    }
  }

  /** JavaScript's `parseInt(s, 10)`: leading whitespace, an optional sign, the
    * longest digit prefix; `None` (`NaN`) when no digit follows. */
  function ParseInt(s: string): Option<int>
  {
    var t := TrimStart(s);
    var digits := DigitPrefix(SignedBody(t));
    if digits == "" then None
    else if IsNegative(t) then Some(-(DigitsValue(digits) as int))
    else Some(DigitsValue(digits))
  }

  predicate IsNegative(t: string) { |t| > 0 && t[0] == '-' }

  function SignedBody(t: string): (b: string)
    ensures |b| <= |t|
  {
    if |t| > 0 && (t[0] == '-' || t[0] == '+') then t[1..] else t
  }

  /** `^[+-]?\d+$`. */
  predicate IsSignedInteger(s: string)
  {
    var b := SignedBody(s);
    |b| > 0 && AllDigits(b)
  }

  /** `parseInt` reads back every integer that `String` writes. */
  lemma ParseIntOfIntToString(i: int)
    ensures ParseInt(IntToString(i)) == Some(i)
  {
    var n: nat := if i < 0 then -i else i;
    var digits := NatToString(n);
    var s := IntToString(i);
    DigitPrefixOfDigits(digits);
    NatToStringValue(n);
    assert SignedBody(s) == digits && (IsNegative(s) <==> i < 0) && (s[0] == '-' || IsDigit(s[0])) by {
      if i < 0 {
        assert s[1..] == digits;
      } else {
        assert IsDigit(digits[0]);
      }
    }
    TrimStartStop(s);
  }

  /** A string matching `^[+-]?\d+$` always parses, to its digits' value with its sign. */
  lemma ParseIntOfSignedInteger(s: string)
    requires IsSignedInteger(s)
    ensures ParseInt(s).Some?
    ensures ParseInt(s).value == if IsNegative(s) then -(DigitsValue(SignedBody(s)) as int) else DigitsValue(SignedBody(s))
  {
    var b := SignedBody(s);
    DigitPrefixOfDigits(b);
    assert !IsSpace(s[0]) by {
      assert s[0] == '-' || s[0] == '+' || s[0] == b[0];
      assert IsDigit(b[0]);
    }
    assert TrimStart(s) == s;
  }

  // ---------------------------------------------------------------------
  // parseInt without a radix: a "0x"/"0X" prefix switches to hexadecimal

  predicate IsHexDigit(c: char)
  {
    IsDigit(c) || 'a' <= c <= 'f' || 'A' <= c <= 'F'
  }

  function HexDigitValue(c: char): nat
    requires IsHexDigit(c)
  {
    if IsDigit(c) then DigitValue(c)
    else if 'a' <= c <= 'f' then c as int - 'a' as int + 10
    else c as int - 'A' as int + 10
  }

  function HexPrefix(s: string): (d: string)
    ensures |d| <= |s| && d == s[..|d|] && forall i :: 0 <= i < |d| ==> IsHexDigit(d[i])
  {
    if |s| > 0 && IsHexDigit(s[0]) then
      var rest := HexPrefix(s[1..]);
      assert s[1..][..|rest|] == s[1..|rest| + 1];
      [s[0]] + rest
    else ""
  }

  function HexValue(s: string): nat
    requires forall i :: 0 <= i < |s| ==> IsHexDigit(s[i])
  {
    if |s| == 0 then 0 else HexValue(s[..|s| - 1]) * 16 + HexDigitValue(s[|s| - 1])
  }

  predicate HasHexPrefix(b: string)
  {
    |b| >= 2 && b[0] == '0' && (b[1] == 'x' || b[1] == 'X')
  }

  /** `parseInt(s)` with no radix argument. */
  function ParseIntAnyRadix(s: string): (r: Option<int>)
    ensures !HasHexPrefix(SignedBody(TrimStart(s))) ==> r == ParseInt(s)
  {
    var t := TrimStart(s);
    var b := SignedBody(t);
    if HasHexPrefix(b) then
      var h := HexPrefix(b[2..]);
      if h == "" then None
      else if IsNegative(t) then Some(-(HexValue(h) as int))
      else Some(HexValue(h))
    else ParseInt(s)
  }

  // ---------------------------------------------------------------------
  // Numbers that may be NaN

  datatype Number = Int(i: int) | NaN
  {
    function Plus(other: Number): Number
    {
      if Int? && other.Int? then Int(i + other.i) else NaN
    }
  }

  function FromParse(p: Option<int>): (n: Number)
    ensures n.Int? <==> p.Some?
  {
    if p.Some? then Int(p.value) else NaN
  }

  /** `String(n)` for a number. */
  function NumberToString(n: Number): string
  {
    if n.Int? then IntToString(n.i) else "NaN"
  }

  // ---------------------------------------------------------------------
  // Array.prototype.slice

  /** How `slice` normalises one bound: negative counts from the end, then clamp to [0, len]. */
  function SliceBound(k: int, len: nat): (b: nat)
    ensures b <= len
    ensures 0 <= k <= len ==> b == k
  {
    if k < 0 then (if len + k < 0 then 0 else len + k) else if k > len then len else k
  }

  /** `xs.slice(start, end)`. */
  function Slice<T>(xs: seq<T>, start: int, end: int): (r: seq<T>)
    ensures |r| <= |xs|
  {
    var a := SliceBound(start, |xs|);
    var b := SliceBound(end, |xs|);
    if a < b then xs[a..b] else []
  }

  /** Removes every occurrence of the characters in `cs` (`replace(/[..]/g, '')`). */
  function RemoveChars(s: string, cs: set<char>): (r: string)
    ensures forall i :: 0 <= i < |r| ==> r[i] !in cs
    ensures |r| <= |s|
  {
    if |s| == 0 then ""
    else if s[0] in cs then RemoveChars(s[1..], cs)
    else [s[0]] + RemoveChars(s[1..], cs)
  }

  lemma {:induction false} RemoveCharsKeepsOthers(s: string, cs: set<char>)
    requires forall i :: 0 <= i < |s| ==> s[i] !in cs
    ensures RemoveChars(s, cs) == s
  {
    if |s| > 0 {
      RemoveCharsKeepsOthers(s[1..], cs);
      assert [s[0]] + s[1..] == s;
    }
  }
}
