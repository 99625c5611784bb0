/** Values and string operations shared by every module of the model: an
    Option type for Python's None, and the few pieces of Python's string and
    integer behaviour the modelled code relies on (str.join, slicing,
    str.split, str.strip, str.replace, int() and '%d'). */
module Common {

  /** Python's `None` next to a present value. */
  datatype Option<T> = None | Some(value: T)

  /** The characters Python 2's `str.strip()` and `int()` treat as whitespace. */
  const Whitespace: set<char> := {' ', '\t', '\n', '\r', '\U{0B}', '\U{0C}'}

  /** `xs` lists every element of `s` exactly once: one possible iteration
      order of a Python dict or set whose order the code does not fix. */
  predicate Enumerates<T(==)>(xs: seq<T>, s: set<T>)
  {
    (forall i, j | 0 <= i < j < |xs| :: xs[i] != xs[j]) && (forall x | x in xs :: x in s) && (forall x | x in s :: x in xs)
  }

  /** Appending a new element enumerates the set grown by it. */
  lemma EnumeratesAppend<T>(xs: seq<T>, s: set<T>, x: T)
    requires Enumerates(xs, s) && x !in s
    ensures Enumerates(xs + [x], s + {x})
  {
  }

  /** Enumerations of disjoint sets concatenate to an enumeration of their
      union. */
  lemma EnumeratesConcat<T>(xs: seq<T>, s: set<T>, ys: seq<T>, u: set<T>)
    requires Enumerates(xs, s) && Enumerates(ys, u) && s !! u
    ensures Enumerates(xs + ys, s + u)
  {
    var zs := xs + ys;
    forall i, j | 0 <= i < j < |zs|
      ensures zs[i] != zs[j]
    {
      if j < |xs| {
      } else if i >= |xs| {
        assert zs[i] == ys[i - |xs|] && zs[j] == ys[j - |xs|];
      } else {
        assert zs[i] == xs[i] && xs[i] in s;
        assert zs[j] == ys[j - |xs|] && ys[j - |xs|] in u;
      }
    }
  }

  /** Lists the elements of a set in some order, as iterating over a
      Python set does. */
  method SetToSeq<T(==)>(s: set<T>) returns (xs: seq<T>)
    ensures Enumerates(xs, s)
  {
    xs := [];
    var rest := s;
    while rest != {}
      invariant rest <= s && Enumerates(xs, s - rest)
      decreases |rest|
    {
      var x :| x in rest;
      EnumeratesAppend(xs, s - rest, x);
      assert (s - rest) + {x} == s - (rest - {x});
      xs := xs + [x];
      rest := rest - {x};
    }
  }

  /** `sep.join(parts)`. */
  function Join(parts: seq<string>, sep: string): (r: string)
    ensures |parts| == 0 ==> r == ""
    ensures |parts| == 1 ==> r == parts[0]
  {
    if |parts| == 0 then ""
    else if |parts| == 1 then parts[0]
    else Join(parts[..|parts| - 1], sep) + sep + parts[|parts| - 1]
  }

  /** Appending one more part adds the separator and that part at the end. */
  lemma JoinSnoc(parts: seq<string>, sep: string, x: string)
    requires |parts| > 0
    ensures Join(parts + [x], sep) == Join(parts, sep) + sep + x
  {
    assert (parts + [x])[..|parts|] == parts;
  }

  /** `s[:n]`: the first `n` characters, or all of `s` when it is shorter. */
  function Take(s: string, n: nat): (r: string)
    ensures |r| == if |s| <= n then |s| else n
    ensures r == s[..|r|]
  {
    if |s| <= n then s else s[..n]
  }

  /** `s.startswith(prefix)`. */
  predicate StartsWith(s: string, prefix: string)
  {
    |prefix| <= |s| && s[..|prefix|] == prefix
  }

  /** A common prefix keeps a prefix. */
  lemma StartsWithPrepend(p: string, s: string, prefix: string)
    requires StartsWith(s, prefix)
    ensures StartsWith(p + s, p + prefix)
  {
    assert (p + s)[..|p + prefix|] == p + s[..|prefix|];
  }

  /** `s.endswith(suffix)`. */
  predicate EndsWith(s: string, suffix: string)
  {
    |suffix| <= |s| && s[|s| - |suffix|..] == suffix
  }

  /** A string contains its own suffix. */
  lemma EndsWithContains(s: string, suffix: string)
    requires EndsWith(s, suffix)
    ensures Contains(s, suffix)
  {
    assert StartsWith(s[|s| - |suffix|..], suffix);
  }

  /** `sep.join(parts)` starts with the first part. */
  lemma {:induction false} JoinStartsWithFirst(parts: seq<string>, sep: string)
    requires |parts| > 0
    ensures StartsWith(Join(parts, sep), parts[0])
  {
    if |parts| > 1 {
      var init := parts[..|parts| - 1];
      JoinStartsWithFirst(init, sep);
      assert init[0] == parts[0];
      var j := Join(init, sep);
      assert Join(parts, sep) == j + (sep + parts[|parts| - 1]);
      assert (j + (sep + parts[|parts| - 1]))[..|parts[0]|] == j[..|parts[0]|];
    }
  }

  /** `sep.join(parts)` ends with the last part. */
  lemma JoinEndsWithLast(parts: seq<string>, sep: string)
    requires |parts| > 0
    ensures EndsWith(Join(parts, sep), parts[|parts| - 1])
  {
    var last := parts[|parts| - 1];
    if |parts| > 1 {
      var j := Join(parts[..|parts| - 1], sep) + sep;
      assert Join(parts, sep) == j + last;
      assert (j + last)[|j + last| - |last|..] == last;
    }
  }

  /** `sub in s` for strings. */
  predicate Contains(s: string, sub: string)
  {
    exists i :: 0 <= i <= |s| - |sub| && StartsWith(s[i..], sub)
  }

  /** `s.replace(c, with)` for a single-character pattern. */
  function Replace(s: string, c: char, with: string): (r: string)
    ensures c !in s ==> r == s
    ensures c !in with ==> c !in r
  {
    if |s| == 0 then ""
    else (if s[0] == c then with else [s[0]]) + Replace(s[1..], c, with)
  }

  /** `s.split(sep)` for a single-character separator: the pieces between
      separators, empty pieces included, so that there is always one piece
      more than there are separators. */
  function Split(s: string, sep: char): (r: seq<string>)
    ensures |r| > 0
    ensures forall i :: 0 <= i < |r| ==> sep !in r[i]
    ensures sep in s ==> |r| >= 2
    ensures sep !in s ==> r == [s]
    ensures forall i, ch :: 0 <= i < |r| && ch in r[i] ==> ch in s
  {
    if |s| == 0 then [""]
    else
      var rest := Split(s[1..], sep);
      assert forall ch :: ch in s[1..] ==> ch in s;
      if s[0] == sep then [""] + rest
      else
        assert sep !in s ==> s == [s[0]] + s[1..];
        [[s[0]] + rest[0]] + rest[1..]
  }

  /** Splitting at the one separator of a string gives the two sides. */
  lemma {:induction false} SplitAtOneSeparator(a: string, b: string, sep: char)
    requires sep !in a && sep !in b
    ensures Split(a + [sep] + b, sep) == [a, b]
  {
    var s := a + [sep] + b;
    if |a| == 0 {
      assert s[1..] == b;
    } else {
      assert s[1..] == a[1..] + [sep] + b;
      SplitAtOneSeparator(a[1..], b, sep);
      assert [a[0]] + a[1..] == a;
    }
  }

  /** `s.lstrip()` */
  function StripLeft(s: string): (r: string)
    ensures |r| <= |s|
    ensures |r| > 0 ==> r[0] !in Whitespace
  {
    if |s| > 0 && s[0] in Whitespace then StripLeft(s[1..]) else s
  }

  /** `s.rstrip()` */
  function StripRight(s: string): (r: string)
    ensures |r| <= |s|
    ensures |r| > 0 ==> r[|r| - 1] !in Whitespace
  {
    if |s| > 0 && s[|s| - 1] in Whitespace then StripRight(s[..|s| - 1]) else s
  }

  /** `s.strip()` */
  function Strip(s: string): string
  {
    StripRight(StripLeft(s))
  }

  predicate IsDigit(c: char)
  {
    '0' <= c <= '9'
  }

  predicate AllDigits(s: string)
  {
    forall i :: 0 <= i < |s| ==> IsDigit(s[i])
  }

  /** The value of a string of decimal digits. */
  function DigitsValue(s: string): nat
    requires AllDigits(s)
  {
    if |s| == 0 then 0
    else DigitsValue(s[..|s| - 1]) * 10 + (s[|s| - 1] as int - '0' as int)
  }

  /** Python 2's `int(s)` on a string, base 10: surrounding whitespace is
      ignored, one optional sign, then at least one digit; anything else is a
      ValueError, written here as None. */
  function ParseInt(s: string): Option<int>
  {
    var t := Strip(s);
    if |t| > 0 && (t[0] == '+' || t[0] == '-') then
      (if |t| > 1 && AllDigits(t[1..])
       then (var v: int := DigitsValue(t[1..]); Some(if t[0] == '-' then -v else v))
       else None)
    else if |t| > 0 && AllDigits(t) then Some(DigitsValue(t))
    else None
  }

  /** `str(n)` for a natural number: its decimal digits, no leading zero. */
  function NatToString(n: nat): (r: string)
    ensures |r| > 0 && AllDigits(r)
  {
    if n < 10 then [('0' as int + n) as char]
    else NatToString(n / 10) + [('0' as int + n % 10) as char]
  }

  /** `'%d' % i` (and `str(i)`) for any integer. */
  function IntToString(i: int): (r: string)
    ensures |r| > 0
  {
    if i < 0 then "-" + NatToString(-i) else NatToString(i)
  }

  /** Reading back the digits `str(n)` wrote gives `n`. */
  lemma {:induction false} DigitsValueOfNatToString(n: nat)
    ensures DigitsValue(NatToString(n)) == n
  {
    if n >= 10 {
      DigitsValueOfNatToString(n / 10);
      var s := NatToString(n);
      assert s[..|s| - 1] == NatToString(n / 10);
    }
  }

  lemma StripOfDigits(s: string)
    requires |s| > 0 && AllDigits(s)
    ensures Strip(s) == s
  {
    assert s[0] !in Whitespace;
    assert s[|s| - 1] !in Whitespace;
  }

  /** `int(str(n)) == n`: the decimal text of a natural number parses back
      to that number. */
  lemma ParseIntOfNatToString(n: nat)
    ensures ParseInt(NatToString(n)) == Some(n)
  {
    var s := NatToString(n);
    StripOfDigits(s);
    DigitsValueOfNatToString(n);
  }

  predicate IsHexDigit(c: char)
  {
    ('0' <= c <= '9') || ('a' <= c <= 'f') || ('A' <= c <= 'F')
  }

  predicate AllHexDigits(s: string)
  {
    forall i :: 0 <= i < |s| ==> IsHexDigit(s[i])
  }

  function HexDigitValue(c: char): (v: nat)
    requires IsHexDigit(c)
    ensures v < 16
  {
    if '0' <= c <= '9' then c as int - '0' as int
    else if 'a' <= c <= 'f' then c as int - 'a' as int + 10
    else c as int - 'A' as int + 10
  }

  function HexValue(s: string): nat
    requires AllHexDigits(s)
  {
    if |s| == 0 then 0
    else HexValue(s[..|s| - 1]) * 16 + HexDigitValue(s[|s| - 1])
  }

  /** A value read from `k` hexadecimal digits is below 16^k. */
  lemma {:induction false} HexValueBound(s: string)
    requires AllHexDigits(s)
    ensures HexValue(s) < Pow16(|s|)
  {
    if |s| > 0 {
      HexValueBound(s[..|s| - 1]);
    }
  }

  function Pow16(k: nat): (r: nat)
    ensures r > 0
  {
    if k == 0 then 1 else 16 * Pow16(k - 1)
  }

  /** Python 2's `int(s, 16)` for a string that starts with "0x" (the only
      shape the modelled code passes): trailing whitespace is ignored, and
      the rest must be at least one hexadecimal digit; otherwise a
      ValueError, written here as None. */
  function ParseHexWithPrefix(s: string): Option<nat>
    requires StartsWith(s, "0x")
  {
    var digits := StripRight(s[2..]);
    if |digits| > 0 && AllHexDigits(digits) then Some(HexValue(digits)) else None
  }
}
