/**
  The handful of Python string operations the lookup engine relies on, written
  out so that their edge cases are the interpreter's: the `in` operator on two
  strings, `replace("\"", "")`, `strip()`, `split(sep)`, `sep.join(parts)`,
  slicing `s[1:]`, `str(n)` for an integer and `int(s)` for a string.
 */
module PyText {
  import opened Wrappers

  // ---------------------------------------------------------------------------
  // `sub in s`
  // ---------------------------------------------------------------------------

  /** Python's `sub in s` on strings: `sub` occurs in `s` as a contiguous run. */
  predicate Contains(s: string, sub: string)
    decreases |s|
  {
    sub <= s || (|s| > 0 && Contains(s[1..], sub))
  }

  /** A string contains every run that is written inside it. */
  lemma {:induction false} ContainsInfix(a: string, b: string, c: string)
    ensures Contains(a + b + c, b)
    decreases |a|
  {
    if a == [] {
      assert a + b + c == b + c;
      assert b <= b + c;
    } else {
      assert (a + b + c)[1..] == a[1..] + b + c;
      ContainsInfix(a[1..], b, c);
    }
  }

  // ---------------------------------------------------------------------------
  // `s.replace("\"", "")` and `s[1:]`
  // ---------------------------------------------------------------------------

  /** `s.replace("\"", "")`: every double-quote character dropped, the rest kept in order. */
  function RemoveQuotes(s: string): (r: string)
    ensures '"' !in r
    ensures |r| <= |s|
    ensures '"' !in s ==> r == s
  {
    if s == [] then []
    else (if s[0] == '"' then [] else [s[0]]) + RemoveQuotes(s[1..])
  }

  /** Dropping quotes distributes over concatenation. */
  lemma {:induction false} RemoveQuotesConcat(a: string, b: string)
    ensures RemoveQuotes(a + b) == RemoveQuotes(a) + RemoveQuotes(b)
    decreases |a|
  {
    if a != [] {
      assert (a + b)[1..] == a[1..] + b;
      RemoveQuotesConcat(a[1..], b);
    } else {
      assert a + b == b;
    }
  }

  /** Python's slice `s[1:]`, which is the empty string when `s` is empty. */
  function DropFirst(s: string): (r: string)
    ensures s == [] ==> r == []
    ensures s != [] ==> s == [s[0]] + r
  {
    if s == [] then [] else s[1..]
  }

  // ---------------------------------------------------------------------------
  // `s.strip()`
  // ---------------------------------------------------------------------------

  /** `c.isspace()` for Python 3 strings: the characters `str.strip()` removes. */
  predicate IsSpace(c: char)
  {
    c in {'\t', '\n', '\U{0B}', '\U{0C}', '\r', '\U{1C}', '\U{1D}', '\U{1E}', '\U{1F}', ' ',
          '\U{85}', '\U{A0}', '\U{1680}', '\U{2028}', '\U{2029}', '\U{202F}', '\U{205F}', '\U{3000}'}
    || ('\U{2000}' <= c <= '\U{200A}')
  }

  function StripLeft(s: string): (r: string)
    ensures r == [] || !IsSpace(r[0])
    decreases |s|
  {
    if s != [] && IsSpace(s[0]) then StripLeft(s[1..]) else s
  }

  function StripRight(s: string): (r: string)
    ensures r <= s
    ensures r == [] || !IsSpace(r[|r| - 1])
    decreases |s|
  {
    if s != [] && IsSpace(s[|s| - 1]) then StripRight(s[..|s| - 1]) else s
  }

  /** `s.strip()`: leading and trailing whitespace removed, the inside kept. */
  function Strip(s: string): (r: string)
    ensures r == [] || (!IsSpace(r[0]) && !IsSpace(r[|r| - 1]))
  {
    StripRight(StripLeft(s))
  }

  /** A string that neither starts nor ends with whitespace is its own strip. */
  lemma StripUnchanged(s: string)
    requires s == [] || (!IsSpace(s[0]) && !IsSpace(s[|s| - 1]))
    ensures Strip(s) == s
  {
  }

  // ---------------------------------------------------------------------------
  // `s.split(sep)` and `sep.join(parts)`
  // ---------------------------------------------------------------------------

  /**
    `s.split(sep)` for a non-empty separator: the separator occurrences found
    scanning left to right without overlap cut `s` into at least one part.
   */
  function SplitOn(s: string, sep: string): (parts: seq<string>)
    requires |sep| > 0
    ensures |parts| >= 1
    decreases |s|
  {
    if |s| < |sep| then [s]
    else if s[..|sep|] == sep then [""] + SplitOn(s[|sep|..], sep)
    else
      var rest := SplitOn(s[1..], sep);
      [[s[0]] + rest[0]] + rest[1..]
  }

  /** `sep.join(parts)`. */
  function Join(parts: seq<string>, sep: string): string
  {
    if |parts| == 0 then ""
    else if |parts| == 1 then parts[0]
    else parts[0] + sep + Join(parts[1..], sep)
  }

  /** Joining the parts of a split with the same separator gives back the string. */
  lemma {:induction false} JoinSplit(s: string, sep: string)
    requires |sep| > 0
    ensures Join(SplitOn(s, sep), sep) == s
    decreases |s|
  {
    if |s| < |sep| {
    } else if s[..|sep|] == sep {
      var rest := SplitOn(s[|sep|..], sep);
      JoinSplit(s[|sep|..], sep);
      assert ([""] + rest)[1..] == rest;
      calc {
        Join([""] + rest, sep);
        "" + sep + Join(rest, sep);
        s[..|sep|] + s[|sep|..];
        s;
      }
    } else {
      var rest := SplitOn(s[1..], sep);
      JoinSplit(s[1..], sep);
      var parts := [[s[0]] + rest[0]] + rest[1..];
      if |rest| == 1 {
        assert parts == [[s[0]] + rest[0]];
        assert Join(rest, sep) == rest[0];
      } else {
        assert parts[1..] == rest[1..];
        assert Join(parts, sep) == [s[0]] + rest[0] + sep + Join(rest[1..], sep);
        assert Join(rest, sep) == rest[0] + sep + Join(rest[1..], sep);
      }
      assert Join(parts, sep) == [s[0]] + Join(rest, sep) == [s[0]] + s[1..];
      assert [s[0]] + s[1..] == s;
    }
  }

  /** A string in which the separator's first character never occurs is not cut. */
  lemma {:induction false} SplitOnUncut(x: string, sep: string)
    requires |sep| > 0 && sep[0] !in x
    ensures SplitOn(x, sep) == [x]
    decreases |x|
  {
    if |x| >= |sep| {
      assert x[..|sep|][0] == x[0] != sep[0];
      SplitOnUncut(x[1..], sep);
      assert [x[0]] + x[1..] == x;
    }
  }

  /**
    The first occurrence of the separator, when the text before it cannot start
    one, ends the first part.
   */
  lemma {:induction false} SplitOnFirst(x: string, sep: string, y: string)
    requires |sep| > 0 && sep[0] !in x
    ensures SplitOn(x + sep + y, sep) == [x] + SplitOn(y, sep)
    decreases |x|
  {
    var s := x + sep + y;
    if x == [] {
      assert s == sep + y;
      assert s[..|sep|] == sep;
      assert s[|sep|..] == y;
    } else {
      assert s[..|sep|][0] == x[0] != sep[0];
      assert s[1..] == x[1..] + sep + y;
      SplitOnFirst(x[1..], sep, y);
      assert [x[0]] + x[1..] == x;
    }
  }

  /**
    Splitting the join of parts that never contain a one-character separator
    gives back the parts.
   */
  lemma {:induction false} SplitJoin(parts: seq<string>, c: char)
    requires |parts| >= 1
    requires forall i :: 0 <= i < |parts| ==> c !in parts[i]
    ensures SplitOn(Join(parts, [c]), [c]) == parts
    decreases |parts|
  {
    if |parts| == 1 {
      SplitOnUncut(parts[0], [c]);
    } else {
      SplitJoin(parts[1..], c);
      SplitOnFirst(parts[0], [c], Join(parts[1..], [c]));
      assert [parts[0]] + parts[1..] == parts;
    }
  }

  /** `name.split("::")[-1]`: the text after the last namespace qualifier. */
  function LastSegment(name: string): (r: string)
  {
    var parts := SplitOn(name, "::");
    parts[|parts| - 1]
  }

  /** Stripping `A::x` leaves `x` when neither part holds a colon. */
  lemma LastSegmentOfQualified(q: string, x: string)
    requires ':' !in q && ':' !in x
    ensures LastSegment(q + "::" + x) == x
    ensures LastSegment(x) == x
  {
    SplitOnUncut(x, "::");
    SplitOnFirst(q, "::", x);
  }

  // ---------------------------------------------------------------------------
  // `str(n)` and `int(s)`
  // ---------------------------------------------------------------------------

  predicate IsDigit(c: char)
  {
    '0' <= c <= '9'
  }

  function DigitValue(c: char): (d: nat)
    requires IsDigit(c)
    ensures d < 10
  {
    (c as int) - ('0' as int)
  }

  function DigitChar(d: nat): (c: char)
    requires d < 10
    ensures IsDigit(c) && DigitValue(c) == d
  {
    (('0' as int) + d) as char
  }

  /** The decimal digits of `n`, without leading zeros. */
  function NatToString(n: nat): (r: string)
    ensures |r| > 0
    ensures forall i :: 0 <= i < |r| ==> IsDigit(r[i])
    decreases n
  {
    if n < 10 then [DigitChar(n)] else NatToString(n / 10) + [DigitChar(n % 10)]
  }

  /** Python's `str(n)` for an integer `n`. */
  function IntToString(n: int): (r: string)
  {
    if n < 0 then "-" + NatToString(-n) else NatToString(n)
  }

  /**
    The body of an integer literal as `int()` accepts it: decimal digits, with
    single underscores allowed between two digits.
   */
  predicate IsDigitRun(s: string)
  {
    && |s| > 0
    && IsDigit(s[0])
    && IsDigit(s[|s| - 1])
    && (forall i :: 0 <= i < |s| ==> IsDigit(s[i]) || s[i] == '_')
    && (forall i :: 0 <= i < |s| - 1 && s[i] == '_' ==> s[i + 1] != '_')
  }

  /** The value of a run of digits and underscores, the underscores ignored. */
  function DigitsValue(s: string): nat
    requires forall i :: 0 <= i < |s| ==> IsDigit(s[i]) || s[i] == '_'
    decreases |s|
  {
    if s == [] then 0
    else if s[|s| - 1] == '_' then DigitsValue(s[..|s| - 1])
    else DigitsValue(s[..|s| - 1]) * 10 + DigitValue(s[|s| - 1])
  }

  /**
    Python's `int(s)` with the default base 10: surrounding whitespace
    removed, an optional sign, then a digit run. `None` stands for the
    `ValueError` `int()` raises on anything else.
   */
  function ParseInt(s: string): (r: Option<int>)
    ensures r.Some? ==> Strip(s) != []
  {
    var t := Strip(s);
    if t == [] then None
    else
      var negative := t[0] == '-';
      var body := if t[0] == '-' || t[0] == '+' then t[1..] else t;
      if IsDigitRun(body) then
        var magnitude: int := DigitsValue(body);
        Some(if negative then -magnitude else magnitude)
      else None
  }

  lemma {:induction false} DigitsValueOfNat(n: nat)
    ensures DigitsValue(NatToString(n)) == n
    decreases n
  {
    if n >= 10 {
      var a := NatToString(n / 10);
      var s := a + [DigitChar(n % 10)];
      assert s[..|s| - 1] == a;
      DigitsValueOfNat(n / 10);
    }
  }

  /** `int(str(n)) == n`: the decimal rendering of an integer reads back as that integer. */
  lemma ParseIntOfString(n: int)
    ensures ParseInt(IntToString(n)) == Some(n)
  {
    var s := IntToString(n);
    var digits := NatToString(if n < 0 then -n else n);
    assert !IsSpace(s[0]) && !IsSpace(s[|s| - 1]);
    StripUnchanged(s);
    DigitsValueOfNat(if n < 0 then -n else n);
    if n < 0 {
      assert s[1..] == digits;
    }
    assert IsDigitRun(digits);
  }
}
