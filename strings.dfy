// Text helpers used across the model: the whitespace classes of Python
// (`str.isspace`, `\s`) and of JavaScript (`String.prototype.trim`, `\s`),
// trimming, ASCII case folding, splitting and joining, and decimal rendering.
module Strings {

  /** Which language's notion of whitespace a helper follows. */
  datatype Dialect = Python | JavaScript

  /** Whitespace as Python's `str.isspace` and JavaScript's `\s` define it. */
  predicate IsSpace(d: Dialect, c: char)
  {
    ('\t' <= c <= '\r') || c == ' ' || c == '\U{A0}' || c == '\U{1680}'
    || ('\U{2000}' <= c <= '\U{200A}') || c == '\U{2028}' || c == '\U{2029}'
    || c == '\U{202F}' || c == '\U{205F}' || c == '\U{3000}'
    || (d == Python && (('\U{1C}' <= c <= '\U{1F}') || c == '\U{85}'))
    || (d == JavaScript && c == '\U{FEFF}')
  }

  predicate IsDigit(c: char) { '0' <= c <= '9' }

  predicate AllDigits(s: string) { forall k | 0 <= k < |s| :: IsDigit(s[k]) }

  predicate HasNoSpace(d: Dialect, s: string) { forall k | 0 <= k < |s| :: !IsSpace(d, s[k]) }

  /** Leading whitespace removed: the result is a suffix of `s` and everything cut was whitespace. */
  function TrimStart(d: Dialect, s: string): (r: string)
    ensures |r| <= |s| && r == s[|s| - |r|..]
    ensures r == [] || !IsSpace(d, r[0])
    ensures forall k | 0 <= k < |s| - |r| :: IsSpace(d, s[k])
    decreases |s|
  {
    if |s| > 0 && IsSpace(d, s[0]) then TrimStart(d, s[1..]) else s
  }

  /** Trailing whitespace removed: the result is a prefix of `s` and everything cut was whitespace. */
  function TrimEnd(d: Dialect, s: string): (r: string)
    ensures |r| <= |s| && r == s[..|r|]
    ensures r == [] || !IsSpace(d, r[|r| - 1])
    ensures forall k | |r| <= k < |s| :: IsSpace(d, s[k])
    decreases |s|
  {
    if |s| > 0 && IsSpace(d, s[|s| - 1]) then TrimEnd(d, s[..|s| - 1]) else s
  }

  /** Python `str.strip()` / JavaScript `trim()`. */
  function Trim(d: Dialect, s: string): string
  {
    TrimEnd(d, TrimStart(d, s))
  }

  lemma {:induction false} TrimStartFixed(d: Dialect, s: string)
    requires s == [] || !IsSpace(d, s[0])
    ensures TrimStart(d, s) == s
  {
  }

  lemma {:induction false} TrimEndFixed(d: Dialect, s: string)
    requires s == [] || !IsSpace(d, s[|s| - 1])
    ensures TrimEnd(d, s) == s
  {
  }

  /** Trimming twice is trimming once. */
  lemma TrimIdempotent(d: Dialect, s: string)
    ensures Trim(d, Trim(d, s)) == Trim(d, s)
  {
    var a := TrimStart(d, s);
    var b := TrimEnd(d, a);
    assert b == [] || b[0] == a[0];
    TrimStartFixed(d, b);
    TrimEndFixed(d, b);
  }

  /** A string with no whitespace at either end is its own trim. */
  lemma TrimFixed(d: Dialect, s: string)
    requires s == [] || (!IsSpace(d, s[0]) && !IsSpace(d, s[|s| - 1]))
    ensures Trim(d, s) == s
  {
    TrimStartFixed(d, s);
    TrimEndFixed(d, s);
  }

  /** The trimmed text is the empty string exactly when the input is all whitespace. */
  lemma TrimEmptyIff(d: Dialect, s: string)
    ensures Trim(d, s) == [] <==> forall k | 0 <= k < |s| :: IsSpace(d, s[k])
  {
    var a := TrimStart(d, s);
    if Trim(d, s) != [] {
      var r := Trim(d, s);
      assert !IsSpace(d, a[0]);
      assert s[|s| - |a|] == a[0];
    }
  }

  /** Whitespace in front of a text is all that trimming the start removes. */
  lemma {:induction false} TrimStartPadded(d: Dialect, pad: string, x: string)
    requires forall k | 0 <= k < |pad| :: IsSpace(d, pad[k])
    ensures TrimStart(d, pad + x) == TrimStart(d, x)
    decreases |pad|
  {
    if pad == [] {
      assert pad + x == x;
    } else {
      assert (pad + x)[1..] == pad[1..] + x;
      TrimStartPadded(d, pad[1..], x);
    }
  }

  lemma {:induction false} TrimEndPadded(d: Dialect, x: string, pad: string)
    requires forall k | 0 <= k < |pad| :: IsSpace(d, pad[k])
    ensures TrimEnd(d, x + pad) == TrimEnd(d, x)
    decreases |pad|
  {
    if pad == [] {
      assert x + pad == x;
    } else {
      assert (x + pad)[..|x + pad| - 1] == x + pad[..|pad| - 1];
      TrimEndPadded(d, x, pad[..|pad| - 1]);
    }
  }

  /** Padding a text that has no whitespace at its ends, and trimming, gives the text back. */
  lemma TrimPadded(d: Dialect, pad: string, x: string, pad2: string)
    requires forall k | 0 <= k < |pad| :: IsSpace(d, pad[k])
    requires forall k | 0 <= k < |pad2| :: IsSpace(d, pad2[k])
    requires x == [] || (!IsSpace(d, x[0]) && !IsSpace(d, x[|x| - 1]))
    ensures Trim(d, pad + x + pad2) == x
  {
    assert pad + x + pad2 == pad + (x + pad2);
    TrimStartPadded(d, pad, x + pad2);
    if x == [] {
      assert x + pad2 == pad2;
      TrimStartAllSpace(d, pad2);
    } else {
      TrimStartFixed(d, x + pad2);
      TrimEndPadded(d, x, pad2);
      TrimEndFixed(d, x);
    }
  }

  lemma {:induction false} TrimStartAllSpace(d: Dialect, s: string)
    requires forall k | 0 <= k < |s| :: IsSpace(d, s[k])
    ensures TrimStart(d, s) == []
    decreases |s|
  {
    if s != [] {
      TrimStartAllSpace(d, s[1..]);
    }
  }

  /**
   * The lower case of one character, for the ASCII letters and the Kelvin sign
   * (whose lower case is the letter k).  Every other character is left as it
   * is: its true lower case is not an ASCII character either, so comparisons
   * with ASCII names come out the same.
   */
  function LowerChar(c: char): char
  {
    if 'A' <= c <= 'Z' then (c as int + 32) as char
    else if c == '\U{212A}' then 'k'
    else c
  }

  /** `lower()` / `toLowerCase()`, character by character as `LowerChar` describes. */
  function Lower(s: string): (r: string)
    ensures |r| == |s|
  {
    seq(|s|, i requires 0 <= i < |s| => LowerChar(s[i]))
  }

  lemma LowerIdempotent(s: string)
    ensures Lower(Lower(s)) == Lower(s)
  {
  }

  /** Case folding maps whitespace to itself and nothing else to whitespace. */
  lemma LowerCharSpace(d: Dialect, c: char)
    ensures IsSpace(d, LowerChar(c)) <==> IsSpace(d, c)
    ensures IsSpace(d, c) ==> LowerChar(c) == c
  {
  }

  /** Case folding never creates or removes whitespace, so it commutes with trimming. */
  lemma {:induction false} LowerTrimStart(d: Dialect, s: string)
    ensures Lower(TrimStart(d, s)) == TrimStart(d, Lower(s))
    decreases |s|
  {
    if |s| > 0 {
      LowerCharSpace(d, s[0]);
      if IsSpace(d, s[0]) {
        assert Lower(s)[1..] == Lower(s[1..]);
        LowerTrimStart(d, s[1..]);
      }
    }
  }

  lemma {:induction false} LowerTrimEnd(d: Dialect, s: string)
    ensures Lower(TrimEnd(d, s)) == TrimEnd(d, Lower(s))
    decreases |s|
  {
    if |s| > 0 {
      LowerCharSpace(d, s[|s| - 1]);
      if IsSpace(d, s[|s| - 1]) {
        assert Lower(s)[..|s| - 1] == Lower(s[..|s| - 1]);
        LowerTrimEnd(d, s[..|s| - 1]);
      }
    }
  }

  lemma LowerTrim(d: Dialect, s: string)
    ensures Lower(Trim(d, s)) == Trim(d, Lower(s))
  {
    LowerTrimStart(d, s);
    LowerTrimEnd(d, TrimStart(d, s));
  }

  predicate StartsWith(s: string, prefix: string)
  {
    |prefix| <= |s| && s[..|prefix|] == prefix
  }

  /** Every occurrence of `c` deleted (Python `s.replace(",", "")`). */
  function RemoveAll(s: string, c: char): (r: string)
    ensures c !in r
    ensures |r| <= |s|
    ensures c !in s ==> r == s
  {
    if s == [] then []
    else if s[0] == c then RemoveAll(s[1..], c)
    else [s[0]] + RemoveAll(s[1..], c)
  }

  /** Python `s.split(sep)` with a one-character separator. */
  function Split(s: string, sep: char): (parts: seq<string>)
    ensures |parts| >= 1
    ensures forall p | p in parts :: sep !in p
    decreases |s|
  {
    if s == [] then [""]
    else
      var rest := Split(s[1..], sep);
      if s[0] == sep then [""] + rest
      else [[s[0]] + rest[0]] + rest[1..]
  }

  /** JavaScript `parts.join(sep)` / Python `sep.join(parts)`. */
  function Join(parts: seq<string>, sep: string): string
  {
    if |parts| == 0 then ""
    else if |parts| == 1 then parts[0]
    else parts[0] + sep + Join(parts[1..], sep)
  }

  /** Joining the pieces of a split with the separator gives back the text. */
  lemma {:induction false} JoinSplit(s: string, sep: char)
    ensures Join(Split(s, sep), [sep]) == s
    decreases |s|
  {
    if s != [] {
      var rest := Split(s[1..], sep);
      JoinSplit(s[1..], sep);
      if s[0] == sep {
        assert Split(s, sep) == [""] + rest;
        assert Join([""] + rest, [sep]) == "" + [sep] + Join(rest, [sep]);
        assert s == [s[0]] + s[1..];
      } else {
        var parts := [[s[0]] + rest[0]] + rest[1..];
        if |rest| == 1 {
          assert Join(parts, [sep]) == [s[0]] + rest[0];
        } else {
          assert parts[1..] == rest[1..];
          assert Join(rest, [sep]) == rest[0] + [sep] + Join(rest[1..], [sep]);
        }
        assert s == [s[0]] + s[1..];
      }
    }
  }

  /** Text before the first separator becomes the first piece. */
  lemma {:induction false} SplitAtSeparator(a: string, sep: char, b: string)
    requires sep !in a
    ensures Split(a + [sep] + b, sep) == [a] + Split(b, sep)
    decreases |a|
  {
    if a == [] {
      assert a + [sep] + b == [sep] + b;
      assert ([sep] + b)[1..] == b;
    } else {
      var s := a + [sep] + b;
      assert s[1..] == a[1..] + [sep] + b;
      SplitAtSeparator(a[1..], sep, b);
      assert [a[0]] + a[1..] == a;
    }
  }

  lemma {:induction false} SplitWithoutSeparator(a: string, sep: char)
    requires sep !in a
    ensures Split(a, sep) == [a]
    decreases |a|
  {
    if a != [] {
      SplitWithoutSeparator(a[1..], sep);
      assert [a[0]] + a[1..] == a;
    }
  }

  /** Splitting a join gives the pieces back when no piece holds the separator. */
  lemma {:induction false} SplitJoin(parts: seq<string>, sep: char)
    requires |parts| >= 1
    requires forall p | p in parts :: sep !in p
    ensures Split(Join(parts, [sep]), sep) == parts
    decreases |parts|
  {
    if |parts| == 1 {
      SplitWithoutSeparator(parts[0], sep);
    } else {
      SplitJoin(parts[1..], sep);
      SplitAtSeparator(parts[0], sep, Join(parts[1..], [sep]));
      assert parts == [parts[0]] + parts[1..];
    }
  }

  function DigitChar(n: nat): char
    requires n < 10
  {
    ('0' as int + n) as char
  }

  function DigitValue(c: char): nat
    requires IsDigit(c)
  {
    c as int - '0' as int
  }

  /** The value of a non-empty run of decimal digits, most significant first. */
  function DigitsValue(s: string): nat
    requires AllDigits(s)
  {
    if s == [] then 0 else DigitsValue(s[..|s| - 1]) * 10 + DigitValue(s[|s| - 1])
  }

  /** Appending a digit shifts the value one decimal place. */
  lemma DigitsValueSnoc(s: string, c: char)
    requires AllDigits(s) && IsDigit(c)
    ensures AllDigits(s + [c]) && DigitsValue(s + [c]) == DigitsValue(s) * 10 + DigitValue(c)
  {
    assert (s + [c])[..|s|] == s;
  }

  function Pow10(n: nat): nat
  {
    if n == 0 then 1 else 10 * Pow10(n - 1)
  }

  /** A run of n digits is worth less than 10^n. */
  lemma {:induction false} DigitsValueBound(s: string)
    requires AllDigits(s)
    ensures DigitsValue(s) < Pow10(|s|)
    decreases |s|
  {
    if s != [] {
      DigitsValueBound(s[..|s| - 1]);
    }
  }

  lemma DigitCharValue(n: nat)
    requires n < 10
    ensures IsDigit(DigitChar(n)) && DigitValue(DigitChar(n)) == n
  {
  }

  /** Decimal rendering of a natural number, as JavaScript template strings and Python f-strings print it. */
  function NatToString(n: nat): (s: string)
    ensures |s| >= 1 && AllDigits(s)
    ensures |s| > 1 ==> s[0] != '0'
    decreases n
  {
    if n < 10 then [DigitChar(n)] else NatToString(n / 10) + [DigitChar(n % 10)]
  }

  function IntToString(i: int): (s: string)
    ensures |s| >= 1
  {
    if i < 0 then "-" + NatToString(-i) else NatToString(i)
  }

  /** Reading back a rendered number gives the number. */
  lemma {:induction false} NatToStringRoundTrip(n: nat)
    ensures DigitsValue(NatToString(n)) == n
    decreases n
  {
    if n >= 10 {
      NatToStringRoundTrip(n / 10);
      var s := NatToString(n);
      assert s[..|s| - 1] == NatToString(n / 10);
    }
  }
}
