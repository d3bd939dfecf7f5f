/**
 * The string operations the front end relies on: `Array.prototype.join`,
 * splitting at a separator (the reading side of a join), `Number.prototype.toString`
 * on integers and `String.prototype.trim`, plus the white-space test that the
 * back end's `[Required]` validation applies.
 */
module Text {

  /** `xs.join(sep)`: the elements with `sep` between consecutive ones; `[]` joins to "". */
  function JoinWith(xs: seq<string>, sep: string): string {
    if |xs| == 0 then ""
    else if |xs| == 1 then xs[0]
    else xs[0] + sep + JoinWith(xs[1..], sep)
  }

  /** `s.split(c)`: the maximal pieces of `s` that do not contain `c`; "" splits to [""]. */
  function Split(s: string, c: char): (r: seq<string>)
    ensures |r| > 0
    ensures forall k :: 0 <= k < |r| ==> c !in r[k]
  {
    if s == [] then [""]
    else
      var rest := Split(s[1..], c);
      if s[0] == c then [""] + rest
      else [[s[0]] + rest[0]] + rest[1..]
  }

  /** A piece without the separator splits to itself. */
  lemma {:induction false} SplitSemSeparador(a: string, c: char)
    requires c !in a
    ensures Split(a, c) == [a]
  {
    if a != [] {
      SplitSemSeparador(a[1..], c);
      assert [a[0]] + a[1..] == a;
    }
  }

  /** Splitting `a + [c] + b` cuts at the first separator when `a` has none. */
  lemma {:induction false} SplitAposPrimeiro(a: string, c: char, b: string)
    requires c !in a
    ensures Split(a + [c] + b, c) == [a] + Split(b, c)
  {
    if a == [] {
      assert a + [c] + b == [c] + b;
      assert ([c] + b)[1..] == b;
    } else {
      assert (a + [c] + b)[1..] == a[1..] + [c] + b;
      SplitAposPrimeiro(a[1..], c, b);
      assert [a[0]] + a[1..] == a;
    }
  }

  /** Round trip: joining pieces free of the separator and splitting again gives them back. */
  lemma {:induction false} SplitJoin(xs: seq<string>, c: char)
    requires |xs| > 0
    requires forall k :: 0 <= k < |xs| ==> c !in xs[k]
    ensures Split(JoinWith(xs, [c]), c) == xs
  {
    if |xs| == 1 {
      SplitSemSeparador(xs[0], c);
    } else {
      SplitJoin(xs[1..], c);
      SplitAposPrimeiro(xs[0], c, JoinWith(xs[1..], [c]));
      assert [xs[0]] + xs[1..] == xs;
    }
  }

  /** Every character of a join comes from an element or from the separator. */
  lemma {:induction false} JoinWithChars(xs: seq<string>, sep: string, ch: char)
    requires ch in JoinWith(xs, sep)
    ensures ch in sep || exists k :: 0 <= k < |xs| && ch in xs[k]
  {
    if |xs| > 1 {
      var rest := JoinWith(xs[1..], sep);
      assert JoinWith(xs, sep) == xs[0] + sep + rest;
      if ch !in xs[0] && ch !in sep {
        JoinWithChars(xs[1..], sep, ch);
        var k :| 0 <= k < |xs[1..]| && ch in xs[1..][k];
        assert ch in xs[k + 1];
      }
    }
  }

  function Digito(d: int): (ch: char)
    requires 0 <= d < 10
    ensures '0' <= ch <= '9' && ch as int - '0' as int == d
  {
    ('0' as int + d) as char
  }

  /** The number a string of decimal digits denotes, most significant digit first. */
  function ValorDecimal(s: string): int {
    if s == [] then 0 else ValorDecimal(s[..|s| - 1]) * 10 + (s[|s| - 1] as int - '0' as int)
  }

  /**
   * Decimal digits of a natural number, most significant first: they denote
   * `n`, and there is no leading zero except in "0" itself.
   */
  function NatToString(n: nat): (r: string)
    ensures |r| > 0
    ensures forall k :: 0 <= k < |r| ==> '0' <= r[k] <= '9'
    ensures ValorDecimal(r) == n
    ensures r[0] == '0' <==> n == 0
  {
    if n < 10 then [Digito(n)]
    else
      var frente := NatToString(n / 10);
      assert (frente + [Digito(n % 10)])[..|frente|] == frente;
      frente + [Digito(n % 10)]
  }

  /** `n.toString()` on an integer: a minus sign exactly when `n` is negative, then digits. */
  function IntToString(n: int): (r: string)
    ensures |r| > 0
    ensures forall k :: 0 <= k < |r| ==> r[k] == '-' || '0' <= r[k] <= '9'
    ensures r[0] == '-' <==> n < 0
  {
    if n < 0 then "-" + NatToString(-n) else NatToString(n)
  }

  /**
   * After the sign, `IntToString(n)` is the decimal digits of the magnitude
   * of `n`, with no leading zero unless the magnitude is zero.
   */
  lemma IntToStringValor(n: int)
    ensures var r := IntToString(n);
            var digitos := if n < 0 then r[1..] else r;
            && |digitos| > 0
            && (forall k :: 0 <= k < |digitos| ==> '0' <= digitos[k] <= '9')
            && ValorDecimal(digitos) == (if n < 0 then -n else n)
            && (digitos[0] == '0' <==> n == 0)
  {
    if n < 0 {
      assert IntToString(n)[1..] == NatToString(-n);
    }
  }

  /** ECMAScript WhiteSpace and LineTerminator code points, the characters `trim` removes. */
  predicate IsJsWhitespace(c: char) {
    || c == '\t' || c == '\n' || c == '\U{000B}' || c == '\U{000C}' || c == '\r'
    || c == ' ' || c == '\U{00A0}' || c == '\U{1680}'
    || ('\U{2000}' <= c <= '\U{200A}')
    || c == '\U{2028}' || c == '\U{2029}' || c == '\U{202F}' || c == '\U{205F}'
    || c == '\U{3000}' || c == '\U{FEFF}'
  }

  /** .NET `char.IsWhiteSpace`, the test behind `string.IsNullOrWhiteSpace`. */
  predicate IsDotNetWhitespace(c: char) {
    || ('\t' <= c <= '\r') || c == ' ' || c == '\U{0085}' || c == '\U{00A0}'
    || c == '\U{1680}' || ('\U{2000}' <= c <= '\U{200A}')
    || c == '\U{2028}' || c == '\U{2029}' || c == '\U{202F}' || c == '\U{205F}'
    || c == '\U{3000}'
  }

  function TrimStart(s: string): (r: string)
    ensures |r| <= |s| && r == s[|s| - |r|..]
    ensures forall k :: 0 <= k < |s| - |r| ==> IsJsWhitespace(s[k])
    ensures r != [] ==> !IsJsWhitespace(r[0])
    ensures r == [] <==> forall k :: 0 <= k < |s| ==> IsJsWhitespace(s[k])
  {
    if s != [] && IsJsWhitespace(s[0]) then
      TrimStart(s[1..])
    else s
  }

  function TrimEnd(s: string): (r: string)
    ensures |r| <= |s| && r == s[..|r|]
    ensures forall k :: |r| <= k < |s| ==> IsJsWhitespace(s[k])
    ensures r != [] ==> !IsJsWhitespace(r[|r| - 1])
    ensures r == [] <==> forall k :: 0 <= k < |s| ==> IsJsWhitespace(s[k])
  {
    if s != [] && IsJsWhitespace(s[|s| - 1]) then
      TrimEnd(s[..|s| - 1])
    else s
  }

  /**
   * `s.trim()`: the part of `s` between its leading and trailing white space.
   * It is empty exactly when `s` is white space throughout.
   */
  function Trim(s: string): (r: string)
    ensures r != [] ==> !IsJsWhitespace(r[0]) && !IsJsWhitespace(r[|r| - 1])
    ensures r == [] <==> forall k :: 0 <= k < |s| ==> IsJsWhitespace(s[k])
  {
    var t := TrimStart(s);
    var r := TrimEnd(t);
    assert t != [] ==> t[0] == t[..|r|][0] || r == [];
    assert r == [] <==> t == [];
    assert r != [] ==> r[0] == t[0];
    r
  }

  /**
   * `r` is the slice `s[i..j]` and everything of `s` outside that slice is
   * white space.
   */
  predicate RecorteEntreBrancos(s: string, r: string, i: int, j: int) {
    && 0 <= i <= j <= |s| && r == s[i..j]
    && (forall k :: 0 <= k < i ==> IsJsWhitespace(s[k]))
    && (forall k :: j <= k < |s| ==> IsJsWhitespace(s[k]))
  }

  /** Cutting `n` elements off the front of the suffix from `i` on is the slice `s[i..i + n]`. */
  lemma PrefixoDoSufixo<T>(s: seq<T>, i: nat, n: nat)
    requires i + n <= |s|
    ensures s[i..][..n] == s[i..i + n]
  {
  }

  /** White space after position `n` of the suffix `s[i..]` is white space after `i + n` in `s`. */
  lemma BrancosDoSufixo(s: string, i: nat, n: nat)
    requires i + n <= |s|
    requires forall k :: n <= k < |s[i..]| ==> IsJsWhitespace(s[i..][k])
    ensures forall k :: i + n <= k < |s| ==> IsJsWhitespace(s[k])
  {
    forall k | i + n <= k < |s|
      ensures IsJsWhitespace(s[k])
    {
      assert s[k] == s[i..][k - i];
    }
  }

  /**
   * What `trim` keeps is a slice of `s` with only white space before and
   * after it; with the ends of the slice not being white space (the contract
   * of `Trim`), it is exactly the text between the leading and the trailing
   * white space.
   */
  lemma TrimRecorta(s: string)
    ensures exists i, j :: RecorteEntreBrancos(s, Trim(s), i, j)
  {
    var t := TrimStart(s);
    var r := TrimEnd(t);
    var i := |s| - |t|;
    var j := i + |r|;
    PrefixoDoSufixo(s, i, |r|);
    assert Trim(s) == r;
    assert r == t[..|r|];
    assert t == s[i..];
    BrancosDoSufixo(s, i, |r|);
    assert RecorteEntreBrancos(s, Trim(s), i, j);
  }
}
