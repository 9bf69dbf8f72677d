/** String logic the components rely on: decimal rendering of page numbers and `Array.prototype.join`. */
module Text {

  predicate IsDigit(c: char)
  {
    '0' <= c <= '9'
  }

  predicate AllDigits(s: string)
  {
    forall i :: 0 <= i < |s| ==> IsDigit(s[i])
  }

  function DigitChar(d: nat): (c: char)
    requires d < 10
    ensures IsDigit(c) && c as int - '0' as int == d
  {
    ('0' as int + d) as char
  }

  /** The decimal text of `n` that a template literal `${n}` produces for a non-negative integer. */
  function NatToString(n: nat): (r: string)
    ensures r != [] && AllDigits(r)
    ensures r[0] == '0' ==> n == 0
  {
    if n < 10 then [DigitChar(n)] else NatToString(n / 10) + [DigitChar(n % 10)]
  }

  /** The number a string of decimal digits denotes. */
  function DigitsValue(s: string): nat
    requires AllDigits(s)
  {
    if s == [] then 0 else DigitsValue(s[..|s| - 1]) * 10 + (s[|s| - 1] as int - '0' as int)
  }

  /** Reading the decimal text of `n` back gives `n`. */
  lemma {:induction false} DigitsValueOfNatToString(n: nat)
    ensures DigitsValue(NatToString(n)) == n
  {
    if n >= 10 {
      DigitsValueOfNatToString(n / 10);
      var r := NatToString(n);
      assert r[..|r| - 1] == NatToString(n / 10);
    }
  }

  /** Different numbers print differently. */
  lemma NatToStringInjective(m: nat, n: nat)
    requires NatToString(m) == NatToString(n)
    ensures m == n
  {
    DigitsValueOfNatToString(m);
    DigitsValueOfNatToString(n);
  }

  /** The longest suffix of `s` made of digits. */
  function TrailingDigits(s: string): (r: string)
    ensures |r| <= |s| && r == s[|s| - |r|..] && AllDigits(r)
  {
    if s != [] && IsDigit(s[|s| - 1]) then TrailingDigits(s[..|s| - 1]) + [s[|s| - 1]] else []
  }

  /** A digit run that follows a non-digit is exactly the trailing digits. */
  lemma {:induction false} TrailingDigitsAfter(x: string, d: string)
    requires x != [] && !IsDigit(x[|x| - 1]) && AllDigits(d)
    ensures TrailingDigits(x + d) == d
  {
    if d == [] {
      assert x + d == x;
    } else {
      var s := x + d;
      assert s[..|s| - 1] == x + d[..|d| - 1];
      TrailingDigitsAfter(x, d[..|d| - 1]);
      assert d == d[..|d| - 1] + [d[|d| - 1]];
    }
  }

  /** `parts.join(sep)`: the parts in order with `sep` between neighbours. */
  function Join(parts: seq<string>, sep: string): string
  {
    if |parts| == 0 then ""
    else if |parts| == 1 then parts[0]
    else parts[0] + sep + Join(parts[1..], sep)
  }

  /** `s.split(sep)` for a non-empty separator: cut at each occurrence of `sep`, left to right. */
  function Split(s: string, sep: string): (r: seq<string>)
    requires sep != []
    ensures |r| >= 1
    decreases |s|
  {
    if |s| < |sep| then [s]
    else if s[..|sep|] == sep then [""] + Split(s[|sep|..], sep)
    else
      var r := Split(s[1..], sep);
      [[s[0]] + r[0]] + r[1..]
  }

  const ListSeparator := ", "

  /** `s` holds no `", "`. */
  predicate NoListSeparator(s: string)
  {
    forall i :: 0 <= i < |s| - 1 ==> !(s[i] == ',' && s[i + 1] == ' ')
  }

  /** Splitting cuts a part that holds no separator off at the first separator after it. */
  lemma {:induction false} SplitAfterPart(p: string, rest: string)
    requires NoListSeparator(p)
    ensures Split(p + ListSeparator + rest, ListSeparator) == [p] + Split(rest, ListSeparator)
  {
    var s := p + ListSeparator + rest;
    if p == [] {
      assert s == ListSeparator + rest;
      assert s[..2] == ListSeparator && s[2..] == rest;
    } else {
      var p' := p[1..];
      assert NoListSeparator(p') by {
        forall i | 0 <= i < |p'| - 1 ensures !(p'[i] == ',' && p'[i + 1] == ' ') {
          assert p'[i] == p[i + 1] && p'[i + 1] == p[i + 2];
        }
      }
      assert s[0] == p[0] && s[1] == if p' == [] then ',' else p[1];
      if p' != [] {
        assert !(p[0] == ',' && p[1] == ' ');
      }
      assert s[..2][1] != ' ' || s[..2][0] != ',';
      assert s[1..] == p' + ListSeparator + rest;
      SplitAfterPart(p', rest);
      assert [p[0]] + p' == p;
    }
  }

  /** A part that holds no separator splits to itself alone. */
  lemma {:induction false} SplitWhole(p: string)
    requires NoListSeparator(p)
    ensures Split(p, ListSeparator) == [p]
  {
    if |p| >= 2 {
      assert !(p[0] == ',' && p[1] == ' ');
      assert p[..2] != ListSeparator;
      var p' := p[1..];
      assert NoListSeparator(p') by {
        forall i | 0 <= i < |p'| - 1 ensures !(p'[i] == ',' && p'[i + 1] == ' ') {
          assert p'[i] == p[i + 1] && p'[i + 1] == p[i + 2];
        }
      }
      SplitWhole(p');
      assert [p[0]] + p' == p;
    }
  }

  /** Joining with `", "` loses nothing when no part holds the separator and there is at least one part. */
  lemma {:induction false} SplitJoin(parts: seq<string>)
    requires |parts| >= 1
    requires forall i :: 0 <= i < |parts| ==> NoListSeparator(parts[i])
    ensures Split(Join(parts, ListSeparator), ListSeparator) == parts
  {
    if |parts| == 1 {
      SplitWhole(parts[0]);
    } else {
      SplitJoin(parts[1..]);
      SplitAfterPart(parts[0], Join(parts[1..], ListSeparator));
      assert [parts[0]] + parts[1..] == parts;
    }
  }
}
