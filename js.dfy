/** JavaScript values and string built-ins that the TypeScript sources rely on:
    optional values, thrown-or-returned outcomes, `includes`, `split`, `join`,
    `parseInt` and the rendering of an integer in a template literal. */
module Js {

  datatype Option<+T> = None | Some(value: T)

  /** The outcome of a call that either returns a value or throws (rejects). */
  datatype Result<+T, +E> = Ok(value: T) | Err(error: E)

  // ---------------------------------------------------------------------------
  // Substrings

  predicate IsPrefix(p: string, s: string) {
    |p| <= |s| && s[..|p|] == p
  }

  /** `hay.includes(needle)`. */
  predicate IsInfix(needle: string, hay: string)
    decreases |hay|
  {
    IsPrefix(needle, hay) || (|hay| > 0 && IsInfix(needle, hay[1..]))
  }

  lemma {:induction false} InfixOfConcat(a: string, n: string, b: string)
    ensures IsInfix(n, a + n + b)
  {
    if a == [] {
      assert a + n + b == n + b;
      assert (n + b)[..|n|] == n;
    } else {
      assert (a + n + b)[1..] == a[1..] + n + b;
      InfixOfConcat(a[1..], n, b);
    }
  }

  lemma {:induction false} InfixAt(n: string, s: string, i: nat)
    requires i <= |s| && IsPrefix(n, s[i..])
    ensures IsInfix(n, s)
  {
    if i > 0 {
      assert s[1..][i - 1..] == s[i..];
      InfixAt(n, s[1..], i - 1);
    }
  }

  /** Every character of an infix occurs in the enclosing string. */
  lemma {:induction false} InfixChars(n: string, s: string, c: char)
    requires IsInfix(n, s) && c in n
    ensures c in s
  {
    if IsPrefix(n, s) {
      var k :| 0 <= k < |n| && n[k] == c;
      assert s[k] == c;
    } else {
      InfixChars(n, s[1..], c);
    }
  }

  /** `s || d` for a string that may be missing: the empty string is falsy too. */
  function Or(s: Option<string>, d: string): string {
    if s.Some? && s.value != "" then s.value else d
  }

  // ---------------------------------------------------------------------------
  // split and join

  /** `parts.join(sep)`. */
  function Join(parts: seq<string>, sep: string): string
    decreases |parts|
  {
    if |parts| == 0 then ""
    else if |parts| == 1 then parts[0]
    else parts[0] + sep + Join(parts[1..], sep)
  }

  /** `s.split(sep)` for a one-character separator: never empty, and no piece
      contains the separator. */
  function Split(s: string, sep: char): (parts: seq<string>)
    ensures |parts| >= 1
    ensures forall i :: 0 <= i < |parts| ==> sep !in parts[i]
    decreases |s|
  {
    if s == [] then [""]
    else
      var rest := Split(s[1..], sep);
      if s[0] == sep then [""] + rest
      else [[s[0]] + rest[0]] + rest[1..]
  }

  lemma JoinCons(p: string, parts: seq<string>, sep: string)
    requires |parts| >= 1
    ensures Join([p] + parts, sep) == p + sep + Join(parts, sep)
  {
    assert ([p] + parts)[1..] == parts;
  }

  /** Joining the pieces of a split gives back the string. */
  lemma {:induction false} JoinSplit(s: string, sep: char)
    ensures Join(Split(s, sep), [sep]) == s
  {
    if s != [] {
      var rest := Split(s[1..], sep);
      JoinSplit(s[1..], sep);
      if s[0] == sep {
        JoinCons("", rest, [sep]);
        assert s == [sep] + s[1..];
      } else if |rest| == 1 {
        assert s == [s[0]] + s[1..];
      } else {
        JoinCons([s[0]] + rest[0], rest[1..], [sep]);
        JoinCons(rest[0], rest[1..], [sep]);
        assert s == [s[0]] + s[1..];
      }
    }
  }

  lemma {:induction false} SplitNoSep(p: string, sep: char)
    requires sep !in p
    ensures Split(p, sep) == [p]
  {
    if p != [] {
      SplitNoSep(p[1..], sep);
      assert p == [p[0]] + p[1..];
    }
  }

  lemma {:induction false} SplitAfter(p: string, sep: char, t: string)
    requires sep !in p
    ensures Split(p + [sep] + t, sep) == [p] + Split(t, sep)
  {
    if p == [] {
      assert p + [sep] + t == [sep] + t;
      assert ([sep] + t)[1..] == t;
    } else {
      assert (p + [sep] + t)[1..] == p[1..] + [sep] + t;
      SplitAfter(p[1..], sep, t);
      assert p == [p[0]] + p[1..];
    }
  }

  /** Splitting a join of separator-free pieces gives back the pieces. */
  lemma {:induction false} SplitJoin(parts: seq<string>, sep: char)
    requires |parts| >= 1
    requires forall i :: 0 <= i < |parts| ==> sep !in parts[i]
    ensures Split(Join(parts, [sep]), sep) == parts
  {
    if |parts| == 1 {
      SplitNoSep(parts[0], sep);
    } else {
      SplitJoin(parts[1..], sep);
      SplitAfter(parts[0], sep, Join(parts[1..], [sep]));
      assert [parts[0]] + parts[1..] == parts;
    }
  }

  /** `parts.filter(Boolean)` on strings: keeps the non-empty pieces, in order. */
  function FilterNonEmpty(parts: seq<string>): (r: seq<string>)
    ensures |r| <= |parts|
    ensures forall i :: 0 <= i < |r| ==> r[i] != ""
    ensures (forall i :: 0 <= i < |parts| ==> parts[i] != "") ==> r == parts
    ensures forall p :: p in r <==> p in parts && p != ""
  {
    if parts == [] then []
    else if parts[0] == "" then FilterNonEmpty(parts[1..])
    else [parts[0]] + FilterNonEmpty(parts[1..])
  }

  /** Filtering distributes over concatenation, so the kept pieces keep their
      order. */
  lemma {:induction false} FilterAppend(a: seq<string>, b: seq<string>)
    ensures FilterNonEmpty(a + b) == FilterNonEmpty(a) + FilterNonEmpty(b)
  {
    if a != [] {
      assert (a + b)[1..] == a[1..] + b;
      FilterAppend(a[1..], b);
    } else {
      assert a + b == b;
    }
  }

  /** A separator at the end of the string adds one empty piece. */
  lemma {:induction false} SplitTrailing(s: string, sep: char)
    ensures Split(s + [sep], sep) == Split(s, sep) + [""]
  {
    if s != [] {
      assert (s + [sep])[1..] == s[1..] + [sep];
      SplitTrailing(s[1..], sep);
    }
  }

  // ---------------------------------------------------------------------------
  // parseInt

  /** The characters ECMA-262 lets `parseInt` skip before the number. */
  predicate IsSpace(c: char) {
    c == '\t' || c == '\n' || c == '\U{B}' || c == '\U{C}' || c == '\r' || c == ' '
    || c == '\U{A0}' || c == '\U{1680}' || ('\U{2000}' <= c <= '\U{200A}')
    || c == '\U{2028}' || c == '\U{2029}' || c == '\U{202F}' || c == '\U{205F}'
    || c == '\U{3000}' || c == '\U{FEFF}'
  }

  /** Value of an ASCII letter or digit as a base-36 digit, -1 for anything else. */
  function DigitValue(c: char): int {
    if '0' <= c <= '9' then c as int - '0' as int
    else if 'a' <= c <= 'z' then c as int - 'a' as int + 10
    else if 'A' <= c <= 'Z' then c as int - 'A' as int + 10
    else -1
  }

  predicate IsDigitIn(c: char, radix: nat) {
    0 <= DigitValue(c) < radix
  }

  predicate AllDigits(s: string, radix: nat) {
    forall i :: 0 <= i < |s| ==> IsDigitIn(s[i], radix)
  }

  /** Length of the longest prefix of `s` made of digits of `radix`. */
  function DigitRun(s: string, radix: nat): (n: nat)
    ensures n <= |s|
    ensures AllDigits(s[..n], radix)
    ensures n < |s| ==> !IsDigitIn(s[n], radix)
  {
    if s != [] && IsDigitIn(s[0], radix) then
      var k := DigitRun(s[1..], radix);
      assert s[..k + 1] == [s[0]] + s[1..][..k];
      1 + k
    else 0
  }

  /** Positional value of a digit string, most significant digit first. */
  function ValueIn(digits: string, radix: nat): nat
    requires AllDigits(digits, radix)
  {
    if digits == [] then 0
    else ValueIn(digits[..|digits| - 1], radix) * radix + DigitValue(digits[|digits| - 1])
  }

  function TrimStart(s: string): string {
    if s != [] && IsSpace(s[0]) then TrimStart(s[1..]) else s
  }

  /** ECMA-262 `parseInt(s, 10)` when `decimal` holds and `parseInt(s)` otherwise;
      `None` stands for `NaN`. Skips leading white space, takes one sign, with no
      radix accepts a `0x`/`0X` prefix and then reads hexadecimal digits, and
      stops at the first character that is not a digit. */
  function ParseIntWith(s: string, decimal: bool): (r: Option<int>)
    ensures TrimStart(s) == [] ==> r.None?
    ensures r.Some? && r.value < 0 ==> TrimStart(s) != [] && TrimStart(s)[0] == '-'
  {
    var t := TrimStart(s);
    var negative := t != [] && t[0] == '-';
    var u := if t != [] && (t[0] == '-' || t[0] == '+') then t[1..] else t;
    var hex := !decimal && |u| >= 2 && u[0] == '0' && (u[1] == 'x' || u[1] == 'X');
    var radix := if hex then 16 else 10;
    var w := if hex then u[2..] else u;
    var n := DigitRun(w, radix);
    if n == 0 then None
    else
      var v: int := ValueIn(w[..n], radix);
      Some(if negative then -v else v)
  }

  /** `parseInt(s, 10)`: a number exactly when a digit follows the white
      space and the optional sign; NaN when something else comes first. */
  function ParseIntDecimal(s: string): (r: Option<int>)
    ensures var t := TrimStart(s); t != [] && IsDigitIn(t[0], 10) ==> r.Some? && r.value >= 0
    ensures var t := TrimStart(s); t != [] && !IsDigitIn(t[0], 10) && t[0] != '-' && t[0] != '+' ==> r.None?
  {
    ParseIntWith(s, true)
  }

  /** `parseInt(s)`, with no radix: after a `0x` or `0X` prefix it is a number
      exactly when a hexadecimal digit follows; an unsigned string that starts
      with a digit and has no such prefix reads as with radix 10. */
  function ParseInt(s: string): (r: Option<int>)
    ensures var t := TrimStart(s); |t| >= 2 && t[0] == '0' && (t[1] == 'x' || t[1] == 'X') ==>
              (r.Some? <==> |t| > 2 && IsDigitIn(t[2], 16))
    ensures var t := TrimStart(s); t != [] && IsDigitIn(t[0], 10) && !(|t| >= 2 && t[0] == '0' && (t[1] == 'x' || t[1] == 'X')) ==>
              r == ParseIntDecimal(s)
  {
    ParseIntWith(s, false)
  }

  /** A run of decimal digits followed by anything that does not continue the
      run is read as the value of the run ("12abc" gives 12); without a radix
      the same holds unless the run is a lone `0` followed by `x` or `X`. */
  lemma DecimalPrefix(d: string, rest: string)
    requires d != [] && AllDigits(d, 10)
    requires rest == [] || !IsDigitIn(rest[0], 10)
    ensures ParseIntDecimal(d + rest) == Some(ValueIn(d, 10))
    ensures !(d == "0" && rest != [] && (rest[0] == 'x' || rest[0] == 'X')) ==>
              ParseInt(d + rest) == Some(ValueIn(d, 10))
  {
    var s := d + rest;
    assert TrimStart(s) == s by { assert !IsSpace(s[0]); }
    assert !(s[0] == '-' || s[0] == '+');
    DigitRunOf(d, rest);
    assert s[..|d|] == d;
    if !(d == "0" && rest != [] && (rest[0] == 'x' || rest[0] == 'X')) && |s| >= 2 && s[0] == '0' {
      if |d| >= 2 {
        assert s[1] == d[1] && IsDigitIn(d[1], 10);
      } else {
        assert d == "0" && s[1] == rest[0];
      }
    }
  }

  lemma {:induction false} DigitRunOf(d: string, rest: string)
    requires AllDigits(d, 10)
    requires rest == [] || !IsDigitIn(rest[0], 10)
    ensures DigitRun(d + rest, 10) == |d|
  {
    if d != [] {
      assert (d + rest)[1..] == d[1..] + rest;
      DigitRunOf(d[1..], rest);
    } else {
      assert d + rest == rest;
    }
  }

  // ---------------------------------------------------------------------------
  // Integers in template literals

  function DigitChar(d: nat): char
    requires d < 10
  {
    ('0' as int + d) as char
  }

  /** Decimal digits of `n`, as `${n}` renders a non-negative integer. */
  function NatToString(n: nat): (s: string)
    ensures s != [] && AllDigits(s, 10)
  {
    if n < 10 then [DigitChar(n)] else NatToString(n / 10) + [DigitChar(n % 10)]
  }

  /** `${n}` for an integer. */
  function IntToString(n: int): string {
    if n < 0 then "-" + NatToString(-n) else NatToString(n)
  }

  /** Reading back the rendered digits gives the number. */
  lemma {:induction false} NatToStringValue(n: nat)
    ensures ValueIn(NatToString(n), 10) == n
  {
    var s := NatToString(n);
    if n >= 10 {
      NatToStringValue(n / 10);
      assert s[..|s| - 1] == NatToString(n / 10);
    }
  }

  /** `parseInt` inverts `${n}` on non-negative integers. */
  lemma ParseIntNatToString(n: nat)
    ensures ParseIntDecimal(NatToString(n)) == Some(n)
    ensures ParseInt(NatToString(n)) == Some(n)
  {
    NatToStringValue(n);
    DecimalPrefix(NatToString(n), "");
    assert NatToString(n) + "" == NatToString(n);
  }
}
