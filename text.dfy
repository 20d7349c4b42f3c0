/**
 * The string operations the scripts rely on, written out over `seq<char>`:
 * `startswith`, substring `in`, `split` on one character, `join`, `strip`,
 * ASCII `lower`, Python's `int(...)` on a string, integer formatting, and
 * the two concrete regular expressions of the gateway log scan
 * (a literal followed by a greedy character class).
 */
module Text {
  import opened Wrappers

  // ---------------------------------------------------------------------
  // Prefixes and substrings

  /** `s.startswith(prefix)` */
  predicate StartsWith(s: string, prefix: string) {
    |prefix| <= |s| && s[..|prefix|] == prefix
  }

  /** `sub in s` on strings: `sub` occurs somewhere in `s`. */
  predicate Contains(s: string, sub: string)
    decreases |s|
  {
    StartsWith(s, sub) || (s != [] && Contains(s[1..], sub))
  }

  /** Whatever surrounds a string, the whole still contains it. */
  lemma {:induction false} ContainsInfix(before: string, sub: string, after: string)
    ensures Contains(before + sub + after, sub)
    decreases |before|
  {
    var whole := before + sub + after;
    if before == [] {
      assert whole[..|sub|] == sub;
    } else {
      assert whole[1..] == before[1..] + sub + after;
      ContainsInfix(before[1..], sub, after);
    }
  }

  /** A one-character substring is contained exactly when the character occurs. */
  lemma {:induction false} ContainsChar(s: string, c: char)
    ensures Contains(s, [c]) <==> c in s
    decreases |s|
  {
    if s != [] {
      ContainsChar(s[1..], c);
      assert s == [s[0]] + s[1..];
    }
  }

  // ---------------------------------------------------------------------
  // split and join

  /**
   * `s.split(sep)` for a one-character separator: the pieces between
   * separators, in order, including empty ones; never an empty list.
   */
  function Split(s: string, sep: char): (parts: seq<string>)
    ensures |parts| == multiset(s)[sep] + 1
    ensures forall i | 0 <= i < |parts| :: sep !in parts[i]
    decreases |s|
  {
    if s == [] then [""]
    else
      var rest := Split(s[1..], sep);
      assert s == [s[0]] + s[1..];
      if s[0] == sep then [""] + rest
      else [[s[0]] + rest[0]] + rest[1..]
  }

  /** `sep.join(parts)` */
  function Join(parts: seq<string>, sep: string): string
    decreases |parts|
  {
    if parts == [] then ""
    else if |parts| == 1 then parts[0]
    else parts[0] + sep + Join(parts[1..], sep)
  }

  /** The first piece of a split is the text before the first separator. */
  lemma {:induction false} SplitFirst(s: string, sep: char)
    ensures var p := Split(s, sep)[0];
      StartsWith(s, p) && sep !in p && (|p| < |s| ==> s[|p|] == sep)
    decreases |s|
  {
    if s != [] && s[0] != sep {
      SplitFirst(s[1..], sep);
    }
  }

  /** Prepending a character to the first piece prepends it to the join. */
  lemma JoinConsFirst(c: char, parts: seq<string>, sep: string)
    requires |parts| >= 1
    ensures Join([[c] + parts[0]] + parts[1..], sep) == [c] + Join(parts, sep)
  {
    var joined := [[c] + parts[0]] + parts[1..];
    assert joined[0] == [c] + parts[0];
    assert joined[1..] == parts[1..];
  }

  /** An empty first piece puts the separator first. */
  lemma JoinEmptyFirst(parts: seq<string>, sep: string)
    requires |parts| >= 1
    ensures Join([""] + parts, sep) == sep + Join(parts, sep)
  {
    assert ([""] + parts)[1..] == parts;
  }

  /** Joining the pieces of a split with the separator gives back the string. */
  lemma {:induction false} JoinSplit(s: string, sep: char)
    ensures Join(Split(s, sep), [sep]) == s
    decreases |s|
  {
    if s != [] {
      var rest := Split(s[1..], sep);
      JoinSplit(s[1..], sep);
      assert s == [s[0]] + s[1..];
      if s[0] == sep {
        assert Split(s, sep) == [""] + rest;
        JoinEmptyFirst(rest, [sep]);
      } else {
        assert Split(s, sep) == [[s[0]] + rest[0]] + rest[1..];
        JoinConsFirst(s[0], rest, [sep]);
      }
    }
  }

  /** Splitting a separator-free string followed by a separator. */
  lemma {:induction false} SplitAfterPiece(piece: string, sep: char, tail: string)
    requires sep !in piece
    ensures Split(piece + [sep] + tail, sep) == [piece] + Split(tail, sep)
    decreases |piece|
  {
    if piece != [] {
      var whole := piece + [sep] + tail;
      assert whole[1..] == piece[1..] + [sep] + tail;
      SplitAfterPiece(piece[1..], sep, tail);
      assert [piece[0]] + piece[1..] == piece;
    } else {
      assert piece + [sep] + tail == [sep] + tail;
    }
  }

  /** A string without the separator splits into itself alone. */
  lemma {:induction false} SplitNoSeparator(s: string, sep: char)
    requires sep !in s
    ensures Split(s, sep) == [s]
    decreases |s|
  {
    if s != [] {
      SplitNoSeparator(s[1..], sep);
      assert [s[0]] + s[1..] == s;
    }
  }

  /** Splitting a join of separator-free pieces gives the pieces back. */
  lemma {:induction false} SplitJoin(parts: seq<string>, sep: char)
    requires |parts| >= 1
    requires forall i | 0 <= i < |parts| :: sep !in parts[i]
    ensures Split(Join(parts, [sep]), sep) == parts
    decreases |parts|
  {
    if |parts| == 1 {
      SplitNoSeparator(parts[0], sep);
    } else {
      SplitJoin(parts[1..], sep);
      SplitAfterPiece(parts[0], sep, Join(parts[1..], [sep]));
      assert [parts[0]] + parts[1..] == parts;
    }
  }

  // ---------------------------------------------------------------------
  // strip

  /** The characters for which Python's `str.isspace()` holds. */
  predicate IsSpace(c: char) {
    var n := c as int;
    (9 <= n <= 13) || (28 <= n <= 32) || n == 0x85 || n == 0xA0 || n == 0x1680
    || (0x2000 <= n <= 0x200A) || n == 0x2028 || n == 0x2029 || n == 0x202F
    || n == 0x205F || n == 0x3000
  }

  /** Drops leading whitespace: what is dropped is all whitespace, what is kept does not start with it. */
  function TrimStart(s: string): (r: string)
    ensures |r| <= |s| && r == s[|s| - |r|..]
    ensures forall k | 0 <= k < |s| - |r| :: IsSpace(s[k])
    ensures r == [] || !IsSpace(r[0])
    decreases |s|
  {
    if s != [] && IsSpace(s[0]) then TrimStart(s[1..]) else s
  }

  /** Drops trailing whitespace: what is dropped is all whitespace, what is kept does not end with it. */
  function TrimEnd(s: string): (r: string)
    ensures |r| <= |s| && r == s[..|r|]
    ensures forall k | |r| <= k < |s| :: IsSpace(s[k])
    ensures r == [] || !IsSpace(r[|r| - 1])
    decreases |s|
  {
    if s != [] && IsSpace(s[|s| - 1]) then TrimEnd(s[..|s| - 1]) else s
  }

  /** `s.strip()` */
  function Strip(s: string): string {
    TrimEnd(TrimStart(s))
  }

  /** A string with no whitespace at either end is its own strip. */
  lemma StripUnchanged(s: string)
    requires s == [] || (!IsSpace(s[0]) && !IsSpace(s[|s| - 1]))
    ensures Strip(s) == s
  {
  }

  // ---------------------------------------------------------------------
  // lower

  /** Lower-cases an ASCII capital; other characters are left alone. */
  function LowerChar(c: char): char {
    if 'A' <= c <= 'Z' then (c as int + 32) as char else c
  }

  /** `s.lower()` restricted to ASCII letters. */
  function Lower(s: string): (r: string)
    ensures |r| == |s|
    ensures forall i | 0 <= i < |s| :: r[i] == LowerChar(s[i])
  {
    seq(|s|, i requires 0 <= i < |s| => LowerChar(s[i]))
  }

  // ---------------------------------------------------------------------
  // Integers as text

  predicate IsDigit(c: char) {
    '0' <= c <= '9'
  }

  function DigitChar(d: nat): (c: char)
    requires d < 10
    ensures IsDigit(c) && c as int - '0' as int == d
  {
    ('0' as int + d) as char
  }

  /** Decimal digits of `n`, most significant first, no leading zeros. */
  function NatToString(n: nat): (s: string)
    ensures |s| >= 1 && forall i | 0 <= i < |s| :: IsDigit(s[i])
    decreases n
  {
    if n < 10 then [DigitChar(n)] else NatToString(n / 10) + [DigitChar(n % 10)]
  }

  /** `str(n)` for an integer. */
  function IntToString(n: int): string {
    if n < 0 then "-" + NatToString(-n) else NatToString(n)
  }

  /** Digits, with single underscores allowed between two digits, as `int()` accepts them. */
  predicate IsDigitRun(s: string) {
    && |s| >= 1 && IsDigit(s[0]) && IsDigit(s[|s| - 1])
    && (forall i | 0 <= i < |s| :: IsDigit(s[i]) || s[i] == '_')
    && !Contains(s, "__")
  }

  /** The value of a digit run; underscores carry no value. */
  function DigitsValue(s: string): nat
    decreases |s|
  {
    if s == [] then 0
    else if IsDigit(s[|s| - 1]) then DigitsValue(s[..|s| - 1]) * 10 + (s[|s| - 1] as int - '0' as int)
    else DigitsValue(s[..|s| - 1])
  }

  /**
   * Python's `int(s)` on a string: surrounding whitespace, one optional sign,
   * then a digit run of ASCII digits. `None` stands for the `ValueError` it
   * raises otherwise; `int()` also takes the other Unicode decimal digits,
   * which this function does not.
   */
  function ParseInt(s: string): Option<int> {
    ParseStripped(Strip(s))
  }

  /** `int(...)` once the surrounding whitespace is gone: one optional sign, then a digit run. */
  function ParseStripped(t: string): Option<int> {
    if t != [] && (t[0] == '+' || t[0] == '-') then
      var magnitude: int := DigitsValue(t[1..]);
      if IsDigitRun(t[1..]) then Some(if t[0] == '-' then -magnitude else magnitude)
      else None
    else if IsDigitRun(t) then Some(DigitsValue(t))
    else None
  }

  lemma {:induction false} DigitsValueOfNat(n: nat)
    ensures DigitsValue(NatToString(n)) == n
    decreases n
  {
    var s := NatToString(n);
    if n >= 10 {
      DigitsValueOfNat(n / 10);
      assert s[..|s| - 1] == NatToString(n / 10);
    }
  }

  /** A non-empty string of digits is a digit run and its own strip. */
  lemma {:induction false} DigitsAreRun(s: string)
    requires |s| >= 1 && forall i | 0 <= i < |s| :: IsDigit(s[i])
    ensures IsDigitRun(s) && Strip(s) == s
  {
    NoUnderscorePair(s);
    assert !IsSpace(s[0]) && !IsSpace(s[|s| - 1]) by {
      DigitNotSpace(s[0]);
      DigitNotSpace(s[|s| - 1]);
    }
    StripUnchanged(s);
  }

  lemma {:induction false} NoUnderscorePair(s: string)
    requires forall i | 0 <= i < |s| :: IsDigit(s[i])
    ensures !Contains(s, "__")
    decreases |s|
  {
    if s != [] {
      NoUnderscorePair(s[1..]);
      assert !StartsWith(s, "__") by {
        if |s| >= 2 {
          assert s[..2][0] == s[0];
        }
      }
    }
  }

  lemma DigitNotSpace(c: char)
    requires IsDigit(c)
    ensures !IsSpace(c)
  {
  }

  /** `int(str(n)) == n` for a natural number: formatting and parsing back is the identity. */
  lemma {:induction false} ParseNatural(n: nat)
    ensures ParseInt(NatToString(n)) == Some(n)
  {
    var s := NatToString(n);
    DigitsAreRun(s);
    ParseUnsignedRun(s);
    DigitsValueOfNat(n);
  }

  /** `int(str(-m)) == -m` for a negative number. */
  lemma {:induction false} ParseNegative(m: nat)
    requires m > 0
    ensures ParseInt("-" + NatToString(m)) == Some(-(m as int))
  {
    var digits := NatToString(m);
    DigitsValueOfNat(m);
    ParseNegativeDigits(digits, m);
  }

  /** A minus sign followed by the digits of `m` parses as `-m`. */
  lemma {:induction false} ParseNegativeDigits(digits: string, m: nat)
    requires |digits| >= 1 && forall i | 0 <= i < |digits| :: IsDigit(digits[i])
    requires DigitsValue(digits) == m
    ensures ParseInt("-" + digits) == Some(-(m as int))
  {
    NegativeDigitsStripped(digits);
    DigitsAreRun(digits);
    ParseStrippedNegative(digits, m);
  }

  /** A minus sign followed by digits has no whitespace to strip. */
  lemma {:induction false} NegativeDigitsStripped(digits: string)
    requires |digits| >= 1 && forall i | 0 <= i < |digits| :: IsDigit(digits[i])
    ensures ParseInt("-" + digits) == ParseStripped("-" + digits)
  {
    var s := "-" + digits;
    assert s[1..] == digits;
    DigitNotSpace(s[|s| - 1]);
    StripUnchanged(s);
  }

  lemma {:induction false} ParseStrippedNegative(digits: string, m: nat)
    requires IsDigitRun(digits) && DigitsValue(digits) == m
    ensures ParseStripped("-" + digits) == Some(-(m as int))
  {
    var s := "-" + digits;
    assert s[1..] == digits;
    ParseSignedRun(s);
  }

  lemma {:induction false} ParseSignedRun(t: string)
    requires |t| >= 2 && t[0] == '-' && IsDigitRun(t[1..])
    ensures ParseStripped(t) == Some(-(DigitsValue(t[1..]) as int))
  {
  }

  lemma {:induction false} ParseUnsignedRun(t: string)
    requires IsDigitRun(t)
    ensures ParseStripped(t) == Some(DigitsValue(t) as int)
  {
  }

  // ---------------------------------------------------------------------
  // A literal followed by a greedy character class: `re.search(lit + r"(\w+)", s)`

  /** Python's ASCII `\w`: letters, digits and the underscore. */
  predicate IsWordChar(c: char) {
    ('a' <= c <= 'z') || ('A' <= c <= 'Z') || IsDigit(c) || c == '_'
  }

  /** The longest prefix of `s` made of class characters (a greedy `class*`). */
  function Run(s: string, inClass: char -> bool): (r: string)
    ensures StartsWith(s, r)
    ensures forall i | 0 <= i < |r| :: inClass(r[i])
    ensures |r| < |s| ==> !inClass(s[|r|])
    decreases |s|
  {
    if s != [] && inClass(s[0]) then [s[0]] + Run(s[1..], inClass) else ""
  }

  /**
   * The group of `re.search(literal + "(class+)", s)`: at the leftmost
   * position where the literal is followed by at least one class character,
   * the greedy run of class characters after it; `None` when there is none.
   */
  function CaptureAfter(s: string, literal: string, inClass: char -> bool): (r: Option<string>)
    ensures r.Some? ==> Contains(s, literal + r.value)
    ensures r.Some? ==> |r.value| >= 1 && forall i | 0 <= i < |r.value| :: inClass(r.value[i])
    decreases |s|
  {
    if StartsWith(s, literal) && |literal| < |s| && inClass(s[|literal|]) then
      var run := Run(s[|literal|..], inClass);
      assert s[..|literal| + |run|] == literal + run;
      Some(run)
    else if s == [] then None
    else CaptureAfter(s[1..], literal, inClass)
  }

  /** The literal must occur for a capture to be found. */
  lemma {:induction false} CaptureNeedsLiteral(s: string, literal: string, inClass: char -> bool)
    requires !Contains(s, literal)
    ensures CaptureAfter(s, literal, inClass) == None
    decreases |s|
  {
    if s != [] {
      CaptureNeedsLiteral(s[1..], literal, inClass);
    }
  }
}
