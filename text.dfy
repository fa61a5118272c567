/** String helpers standing in for the PHP built-ins the renderers rely on:
    integer interpolation, strtoupper and implode. */
module Text {

  predicate IsDigit(c: char) {
    '0' <= c <= '9'
  }

  predicate AllDigits(s: string) {
    forall i :: 0 <= i < |s| ==> IsDigit(s[i])
  }

  function DigitChar(d: nat): (c: char)
    requires d < 10
    ensures IsDigit(c) && c as int - '0' as int == d
  {
    ('0' as int + d) as char
  }

  /** The decimal text PHP produces when a non-negative integer is interpolated
      into a string: at least one digit, and no leading zero unless the number
      is zero. */
  function Decimal(n: nat): (s: string)
    ensures |s| > 0 && AllDigits(s)
    ensures s[0] == '0' ==> n == 0 && |s| == 1
    decreases n
  {
    if n < 10 then [DigitChar(n)] else Decimal(n / 10) + [DigitChar(n % 10)]
  }

  /** Reads a string of decimal digits back as a number. */
  function ParseDecimal(s: string): nat
    requires AllDigits(s)
  {
    if s == [] then 0
    else ParseDecimal(s[..|s| - 1]) * 10 + (s[|s| - 1] as int - '0' as int)
  }

  /** The digits printed for `n` read back as `n`: the numbers a renderer puts
      into SQL text carry exactly the values it computed. */
  lemma {:induction false} DecimalRoundTrip(n: nat)
    ensures ParseDecimal(Decimal(n)) == n
    decreases n
  {
    if n >= 10 {
      DecimalRoundTrip(n / 10);
      var s := Decimal(n);
      assert s[..|s| - 1] == Decimal(n / 10);
    }
  }

  /** PHP's string form of any integer ('' . $i). */
  function IntString(i: int): (s: string)
    ensures |s| > 0
    ensures i < 0 <==> s[0] == '-'
  {
    if i < 0 then "-" + Decimal(-i) else Decimal(i)
  }

  function UpperChar(c: char): char {
    if 'a' <= c <= 'z' then (c as int - 32) as char else c
  }

  /** PHP's strtoupper: ASCII lower-case letters are upper-cased, every other
      character is kept. */
  function Upper(s: string): (r: string)
    ensures |r| == |s|
    ensures forall i :: 0 <= i < |s| ==> r[i] == UpperChar(s[i])
  {
    seq(|s|, i requires 0 <= i < |s| => UpperChar(s[i]))
  }

  /** PHP's implode(sep, xs): the items in order with `sep` between neighbours. */
  function Implode(sep: string, xs: seq<string>): string {
    if |xs| == 0 then ""
    else if |xs| == 1 then xs[0]
    else Implode(sep, xs[..|xs| - 1]) + sep + xs[|xs| - 1]
  }

  /** Implode read from the front: the first item, then each later item preceded
      by the separator. */
  lemma {:induction false} ImplodeCons(sep: string, x: string, xs: seq<string>)
    requires |xs| > 0
    ensures Implode(sep, [x] + xs) == x + sep + Implode(sep, xs)
    decreases |xs|
  {
    var ys := [x] + xs;
    if |xs| > 1 {
      assert ys[..|ys| - 1] == [x] + xs[..|xs| - 1];
      ImplodeCons(sep, x, xs[..|xs| - 1]);
    } else {
      assert ys[..|ys| - 1] == [x];
    }
  }

  predicate StartsWith(s: string, prefix: string) {
    |prefix| <= |s| && s[..|prefix|] == prefix
  }

  predicate EndsWith(s: string, suffix: string) {
    |suffix| <= |s| && s[|s| - |suffix|..] == suffix
  }

  lemma StartsWithAppend(s: string, t: string, prefix: string)
    requires StartsWith(s, prefix)
    ensures StartsWith(s + t, prefix)
  {
    assert (s + t)[..|prefix|] == s[..|prefix|];
  }

  lemma StartsWithPrepend(p: string, s: string, prefix: string)
    requires StartsWith(s, prefix)
    ensures StartsWith(p + s, p + prefix)
  {
    assert (p + s)[..|p + prefix|] == p + s[..|prefix|];
  }

  lemma PrefixOfConcat(a: string, b: string)
    ensures StartsWith(a + b, a)
  {
    assert (a + b)[..|a|] == a;
  }

  lemma SuffixOfConcat(a: string, b: string)
    ensures EndsWith(a + b, b)
  {
    assert (a + b)[|a + b| - |b|..] == b;
  }

  lemma StartsWithTrans(s: string, p: string, q: string)
    requires StartsWith(s, p) && StartsWith(p, q)
    ensures StartsWith(s, q)
  {
    assert s[..|q|] == s[..|p|][..|q|];
  }

  /** Concatenation regrouped, stated over opaque parts so that the solver
      need not unfold what the parts are. */
  lemma Assoc(a: string, b: string, c: string)
    ensures a + b + c == a + (b + c)
  {
  }

  lemma AppendEmpty(s: string)
    ensures s + "" == s && "" + s == s
  {
  }

  /** Four parts appended one by one to `p` are `p` followed by their
      concatenation. */
  lemma Regroup4(p: string, a: string, b: string, c: string, d: string)
    ensures p + a + b + c + d == p + (a + b + c + d)
  {
    Assoc(p, a, b);
    Assoc(p, a + b, c);
    Assoc(p, a + b + c, d);
  }

  /** A string built by appending to `p` starts with `p`. */
  lemma PrefixChain(p: string, a: string, b: string, c: string, d: string)
    ensures StartsWith(p + a + b + c + d, p)
  {
    PrefixOfConcat(p, a);
    PrefixOfConcat(p + a, b);
    PrefixOfConcat(p + a + b, c);
    PrefixOfConcat(p + a + b + c, d);
    StartsWithTrans(p + a + b, p + a, p);
    StartsWithTrans(p + a + b + c, p + a + b, p);
    StartsWithTrans(p + a + b + c + d, p + a + b + c, p);
  }

  /** Within a prefix, a string and the prefix agree. */
  lemma SliceOfPrefix(s: string, p: string, i: nat, j: nat)
    requires StartsWith(s, p) && i <= j <= |p|
    ensures s[i..j] == p[i..j]
  {
    assert forall k :: i <= k < j ==> s[k] == s[..|p|][k];
    assert forall k :: 0 <= k < j - i ==> s[i..j][k] == p[i..j][k];
  }

  /** Slicing past a prefix slices the rest. */
  lemma SliceAfter(p: string, s: string, i: nat, j: nat)
    requires i <= j <= |s|
    ensures (p + s)[|p| + i..|p| + j] == s[i..j]
  {
  }
}
