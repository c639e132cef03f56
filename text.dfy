/** String operations of Python's `str`, `int()` and `os.path` that the
    bookkeeping code relies on, and the environment-variable lookups of the
    configuration code. */
module Text {
  import opened Outcomes

  // ---------------------------------------------------------------------------
  // Configuration lookups

  /** `os.getenv(key, default)`: the variable's value when it is set, even to "". */
  function Getenv(env: map<string, string>, key: string, default: string): (r: string)
    ensures key in env ==> r == env[key]
    ensures key !in env ==> r == default
  {
    if key in env then env[key] else default
  }

  /** Python's `arg or fallback` on an optional string: `None` and `""` are both falsy. */
  function OrElse(arg: Option<string>, fallback: string): (r: string)
    ensures arg.Some? && arg.value != "" ==> r == arg.value
    ensures arg.None? || arg.value == "" ==> r == fallback
  {
    if arg.Some? && arg.value != "" then arg.value else fallback
  }

  // ---------------------------------------------------------------------------
  // str.split / join

  /** `sep.join(parts)`. */
  function Join(parts: seq<string>, sep: char): string {
    if |parts| == 0 then ""
    else if |parts| == 1 then parts[0]
    else parts[0] + [sep] + Join(parts[1..], sep)
  }

  /** `s.split(sep)` for a one-character separator: always at least one piece,
      empty pieces kept (`"a,,b"` gives `["a", "", "b"]`, `""` gives `[""]`). */
  function Split(s: string, sep: char): (r: seq<string>)
    ensures |r| >= 1
    ensures forall i | 0 <= i < |r| :: sep !in r[i]
  {
    if |s| == 0 then [""]
    else if s[0] == sep then [""] + Split(s[1..], sep)
    else
      var rest := Split(s[1..], sep);
      [[s[0]] + rest[0]] + rest[1..]
  }

  /** Splitting and joining on the same separator gives back the string. */
  lemma {:induction false} JoinSplit(s: string, sep: char)
    ensures Join(Split(s, sep), sep) == s
  {
    if |s| == 0 {
    } else if s[0] == sep {
      var rest := Split(s[1..], sep);
      JoinSplit(s[1..], sep);
      assert Split(s, sep) == [""] + rest;
      assert Split(s, sep)[1..] == rest;
    } else {
      var rest := Split(s[1..], sep);
      JoinSplit(s[1..], sep);
      var r := Split(s, sep);
      assert r == [[s[0]] + rest[0]] + rest[1..];
      assert r[1..] == rest[1..];
      if |rest| == 1 {
        assert s == [s[0]] + s[1..];
      } else {
        assert Join(rest, sep) == rest[0] + [sep] + Join(rest[1..], sep);
        assert s == [s[0]] + s[1..];
      }
    }
  }

  /** Joining pieces that do not contain the separator and splitting again gives back the pieces. */
  lemma {:induction false} SplitJoin(parts: seq<string>, sep: char)
    requires |parts| >= 1
    requires forall i | 0 <= i < |parts| :: sep !in parts[i]
    ensures Split(Join(parts, sep), sep) == parts
  {
    if |parts| == 1 {
      SplitPiece(parts[0], sep, []);
      assert parts[0] + [] == parts[0];
    } else {
      SplitJoin(parts[1..], sep);
      var tail := Join(parts[1..], sep);
      assert Join(parts, sep) == parts[0] + ([sep] + tail);
      SplitPiece(parts[0], sep, [sep] + tail);
      assert ([sep] + tail)[1..] == tail;
      assert parts == [parts[0]] + parts[1..];
    }
  }

  /** Splitting `p + rest`, where `p` holds no separator, prepends `p` to the first piece of `rest`. */
  lemma {:induction false} SplitPiece(p: string, sep: char, rest: string)
    requires sep !in p
    ensures rest == [] ==> Split(p + rest, sep) == [p]
    ensures |rest| > 0 && rest[0] == sep ==> Split(p + rest, sep) == [p] + Split(rest[1..], sep)
  {
    if |p| == 0 {
      assert p + rest == rest;
    } else {
      SplitPiece(p[1..], sep, rest);
      assert (p + rest)[1..] == p[1..] + rest;
      assert [p[0]] + p[1..] == p;
    }
  }

  // ---------------------------------------------------------------------------
  // str.replace(old, new)

  /** `s.replace(pattern, with)`: every leftmost, non-overlapping occurrence of `pattern` replaced by `with`. */
  function Replace(s: string, pattern: string, with: string): (r: string)
    requires |pattern| > 0
    ensures |with| == 0 ==> |r| <= |s|
    decreases |s|
  {
    if |s| < |pattern| then s
    else if s[..|pattern|] == pattern then with + Replace(s[|pattern|..], pattern, with)
    else [s[0]] + Replace(s[1..], pattern, with)
  }

  /** A character that occurs in neither the text nor the replacement does not occur in the result. */
  lemma {:induction false} ReplaceAvoids(s: string, pattern: string, with: string, c: char)
    requires |pattern| > 0 && c !in s && c !in with
    ensures c !in Replace(s, pattern, with)
    decreases |s|
  {
    if |s| >= |pattern| {
      if s[..|pattern|] == pattern {
        ReplaceAvoids(s[|pattern|..], pattern, with, c);
      } else {
        ReplaceAvoids(s[1..], pattern, with, c);
      }
    }
  }

  /** A string that does not contain the pattern's first character is left as it is. */
  lemma {:induction false} ReplaceAbsent(s: string, pattern: string, with: string)
    requires |pattern| > 0 && pattern[0] !in s
    ensures Replace(s, pattern, with) == s
    decreases |s|
  {
    if |s| >= |pattern| {
      assert s[..|pattern|][0] == s[0];
      ReplaceAbsent(s[1..], pattern, with);
      assert s == [s[0]] + s[1..];
    }
  }

  /** A trailing occurrence of the pattern, after text without its first character, is the only one replaced. */
  lemma {:induction false} ReplaceSuffix(s: string, pattern: string, with: string)
    requires |pattern| > 0 && pattern[0] !in s
    ensures Replace(s + pattern, pattern, with) == s + with
    decreases |s|
  {
    if |s| == 0 {
      assert s + pattern == pattern && pattern[..|pattern|] == pattern && pattern[|pattern|..] == "";
      assert Replace(pattern, pattern, with) == with + Replace("", pattern, with);
    } else {
      var t := s + pattern;
      assert t[..|pattern|][0] == s[0];
      assert t[1..] == s[1..] + pattern;
      assert Replace(t, pattern, with) == [s[0]] + Replace(t[1..], pattern, with);
      ReplaceSuffix(s[1..], pattern, with);
      assert s == [s[0]] + s[1..];
    }
  }

  /** A leading occurrence of the pattern is replaced, and the scan resumes after it. */
  lemma ReplacePrefix(p: string, s: string, with: string)
    requires |p| > 0
    ensures Replace(p + s, p, with) == with + Replace(s, p, with)
  {
    assert (p + s)[..|p|] == p;
    assert (p + s)[|p|..] == s;
  }

  // ---------------------------------------------------------------------------
  // Decimal numbers

  predicate IsDigit(c: char) {
    '0' <= c <= '9'
  }

  function DigitValue(c: char): (d: nat)
    requires IsDigit(c)
    ensures d < 10
  {
    (c as int) - ('0' as int)
  }

  function DigitChar(d: nat): (c: char)
    requires d < 10
    ensures IsDigit(c) && DigitValue(c) == d
  {
    ((d + '0' as int) as char)
  }

  /** `str(n)` for a natural number: its decimal digits, no leading zeros. */
  function NatText(n: nat): (s: string)
    ensures |s| >= 1
    ensures forall i | 0 <= i < |s| :: IsDigit(s[i])
    decreases n
  {
    if n < 10 then [DigitChar(n)] else NatText(n / 10) + [DigitChar(n % 10)]
  }

  /** The value of a non-empty string of decimal digits. */
  function DigitsValue(s: string): nat
    requires forall i | 0 <= i < |s| :: IsDigit(s[i])
  {
    if |s| == 0 then 0 else DigitsValue(s[..|s| - 1]) * 10 + DigitValue(s[|s| - 1])
  }

  /** Leading zeros do not change a digit string's value. */
  lemma {:induction false} DigitsValueLeadingZeros(z: nat, s: string)
    requires forall i | 0 <= i < |s| :: IsDigit(s[i])
    ensures DigitsValue(Zeros(z) + s) == DigitsValue(s)
    decreases |s|
  {
    if |s| == 0 {
      ZerosValue(z);
      assert Zeros(z) + s == Zeros(z);
    } else {
      var t := Zeros(z) + s;
      assert t[..|t| - 1] == Zeros(z) + s[..|s| - 1];
      DigitsValueLeadingZeros(z, s[..|s| - 1]);
    }
  }

  lemma {:induction false} ZerosValue(z: nat)
    ensures DigitsValue(Zeros(z)) == 0
  {
    if z > 0 {
      assert Zeros(z)[..z - 1] == Zeros(z - 1);
      ZerosValue(z - 1);
    }
  }

  /** Reading back the decimal text of `n` gives `n`. */
  lemma {:induction false} NatTextValue(n: nat)
    ensures DigitsValue(NatText(n)) == n
    decreases n
  {
    if n >= 10 {
      NatTextValue(n / 10);
      var s := NatText(n);
      assert s[..|s| - 1] == NatText(n / 10);
    }
  }

  /** `NatText(n)` has one digit per power of ten not above `n`. */
  lemma {:induction false} NatTextLength(n: nat, k: nat)
    requires n < Pow10(k) && k >= 1
    ensures |NatText(n)| <= k
    decreases k
  {
    if n >= 10 {
      assert k >= 2;
      NatTextLength(n / 10, k - 1);
    }
  }

  function Pow10(k: nat): (p: nat)
    ensures p >= 1
  {
    if k == 0 then 1 else 10 * Pow10(k - 1)
  }

  function Zeros(z: nat): (s: string)
    ensures |s| == z && forall i | 0 <= i < z :: s[i] == '0'
  {
    if z == 0 then "" else Zeros(z - 1) + "0"
  }

  /** `f"{n:0{width}d}"`: the decimal digits of `n`, left-padded with zeros to at least `width` characters. */
  function ZeroPadded(n: nat, width: nat): (s: string)
    ensures |s| == if |NatText(n)| < width then width else |NatText(n)|
    ensures forall i | 0 <= i < |s| :: IsDigit(s[i])
  {
    var digits := NatText(n);
    Zeros(if |digits| < width then width - |digits| else 0) + digits
  }

  /** The padding does not change the value the digits denote. */
  lemma ZeroPaddedValue(n: nat, width: nat)
    ensures DigitsValue(ZeroPadded(n, width)) == n
  {
    var digits := NatText(n);
    DigitsValueLeadingZeros(if |digits| < width then width - |digits| else 0, digits);
    NatTextValue(n);
  }

  /** `int(s)` for an optionally signed run of ASCII digits; any other text raises ValueError. */
  function ParseInt(s: string): (r: Result<int>)
    ensures |s| > 0 && (forall i | 0 <= i < |s| :: IsDigit(s[i])) ==> r == Ok(DigitsValue(s))
    ensures |s| == 0 ==> r.Err? && r.error.kind == ValueError
  {
    var sign, digits := if |s| > 0 && s[0] == '-' then -1 else 1, if |s| > 0 && (s[0] == '-' || s[0] == '+') then s[1..] else s;
    if |digits| > 0 && forall i | 0 <= i < |digits| :: IsDigit(digits[i]) then
      Ok(sign * DigitsValue(digits))
    else
      Err(Error(ValueError, "invalid literal for int() with base 10: '" + s + "'"))
  }

  /** `str(n)` for any integer: a minus sign before the digits of a negative number. */
  function IntText(n: int): (s: string)
    ensures n >= 0 ==> s == NatText(n)
    ensures n < 0 ==> s == "-" + NatText(-n)
    ensures '/' !in s
  {
    if n < 0 then "-" + NatText(-n) else NatText(n)
  }

  /** `int()` reads back what `str()` writes for every integer. */
  lemma IntTextParses(n: int)
    ensures ParseInt(IntText(n)) == Ok(n)
  {
    var s := IntText(n);
    NatTextValue(if n < 0 then -n else n);
    assert n < 0 ==> s[1..] == NatText(-n);
    assert n >= 0 ==> IsDigit(s[0]);
  }

  /** `str(t)` for a tuple of naturals, as numpy prints a shape: `()`, `(5,)`, `(480, 640, 3)`. */
  function TupleText(t: seq<nat>): string {
    if |t| == 0 then "()"
    else if |t| == 1 then "(" + NatText(t[0]) + ",)"
    else "(" + ItemsText(t) + ")"
  }

  function ItemsText(t: seq<nat>): string
    requires |t| >= 1
  {
    if |t| == 1 then NatText(t[0]) else NatText(t[0]) + ", " + ItemsText(t[1..])
  }

  // ---------------------------------------------------------------------------
  // os.path

  /** `os.path.basename(p)`: the text after the last `/`. */
  function Basename(p: string): (r: string)
    ensures '/' !in r
    ensures |r| <= |p| && r == p[|p| - |r|..]
  {
    if |p| == 0 then ""
    else if p[|p| - 1] == '/' then ""
    else Basename(p[..|p| - 1]) + [p[|p| - 1]]
  }

  /** The base name is the longest such suffix: it is the whole path or
      follows a `/`. */
  lemma {:induction false} BasenameMaximal(p: string)
    ensures var r := Basename(p); |r| == |p| || p[|p| - |r| - 1] == '/'
  {
    if |p| > 0 && p[|p| - 1] != '/' {
      BasenameMaximal(p[..|p| - 1]);
    }
  }

  /** `os.path.join(a, b)`: an absolute `b` replaces `a`; otherwise a `/` is
      put between them unless `a` is empty or already ends with one. */
  function PathJoin(a: string, b: string): string {
    if |b| > 0 && b[0] == '/' then b
    else if |a| == 0 || a[|a| - 1] == '/' then a + b
    else a + "/" + b
  }

  /** The base name of a path ending in a separator is empty. */
  lemma BasenameOfDirectory(d: string)
    requires |d| == 0 || d[|d| - 1] == '/'
    ensures Basename(d) == ""
  {
  }

  /** `basename` undoes `join` for a relative name without separators. */
  lemma {:induction false} BasenameOfJoin(dir: string, name: string)
    requires |name| > 0 && '/' !in name
    ensures Basename(PathJoin(dir, name)) == name
  {
    var d := if |dir| == 0 || dir[|dir| - 1] == '/' then dir else dir + "/";
    assert PathJoin(dir, name) == d + name;
    BasenameOfDirectory(d);
    BasenameAfter(d, name);
  }

  lemma {:induction false} BasenameAfter(d: string, name: string)
    requires Basename(d) == "" && '/' !in name
    ensures Basename(d + name) == name
    decreases |name|
  {
    if |name| == 0 {
      assert d + name == d;
    } else {
      var init := name[..|name| - 1];
      assert (d + name)[..|d + name| - 1] == d + init;
      assert name[|name| - 1] in name;
      BasenameAfter(d, init);
      assert init + [name[|name| - 1]] == name;
    }
  }

  // ---------------------------------------------------------------------------
  // String order

  /** Python's `a <= b` on strings: lexicographic by code point, a proper prefix first. */
  predicate LexLe(a: string, b: string) {
    |a| == 0 || (|b| > 0 && (a[0] < b[0] || (a[0] == b[0] && LexLe(a[1..], b[1..]))))
  }

  lemma {:induction false} LexLeTotal(a: string, b: string)
    ensures LexLe(a, b) || LexLe(b, a)
  {
    if |a| > 0 && |b| > 0 && a[0] == b[0] {
      LexLeTotal(a[1..], b[1..]);
    }
  }

  lemma {:induction false} LexLeTransitive(a: string, b: string, c: string)
    requires LexLe(a, b) && LexLe(b, c)
    ensures LexLe(a, c)
  {
    if |a| > 0 && a[0] == b[0] && b[0] == c[0] {
      LexLeTransitive(a[1..], b[1..], c[1..]);
    }
  }

  lemma {:induction false} LexLeAntisymmetric(a: string, b: string)
    requires LexLe(a, b) && LexLe(b, a)
    ensures a == b
  {
    if |a| > 0 {
      LexLeAntisymmetric(a[1..], b[1..]);
      assert a == [a[0]] + a[1..] && b == [b[0]] + b[1..];
    }
  }
}
