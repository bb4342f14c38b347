/**
 * The part of JavaScript's string and number behaviour that the storefront relies on:
 * `trim`, `toLowerCase`, `split` on one character, `join`, `includes`, `padStart(2, "0")`,
 * `Number(text)` and `String(integer)`.  Strings are sequences of characters.
 */
module JsText {
  import opened Wrappers

  // ---------------------------------------------------------------- whitespace, trim

  /** Characters removed by `String.prototype.trim` (and matched by `\s`). */
  predicate IsSpace(c: char) {
    c == ' ' || c == '\t' || c == '\n' || c == '\r' || c == '\U{000B}' || c == '\U{000C}'
    || c == '\U{00A0}' || c == '\U{FEFF}' || c == '\U{2028}' || c == '\U{2029}'
  }

  function TrimStart(s: string): (r: string)
    ensures |r| <= |s| && r == s[|s| - |r|..]
    ensures r == [] || !IsSpace(r[0])
    ensures forall i :: 0 <= i < |s| - |r| ==> IsSpace(s[i])
  {
    if s != [] && IsSpace(s[0]) then TrimStart(s[1..]) else s
  }

  function TrimEnd(s: string): (r: string)
    ensures |r| <= |s| && r == s[..|r|]
    ensures r == [] || !IsSpace(r[|r| - 1])
    ensures forall i :: |r| <= i < |s| ==> IsSpace(s[i])
  {
    if s != [] && IsSpace(s[|s| - 1]) then TrimEnd(s[..|s| - 1]) else s
  }

  /** `s.trim()` */
  function Trim(s: string): (r: string)
    ensures |r| <= |s|
    ensures r == [] || (!IsSpace(r[0]) && !IsSpace(r[|r| - 1]))
  {
    TrimEnd(TrimStart(s))
  }

  /** A string that neither starts nor ends with whitespace is its own trim. */
  lemma TrimNoEdges(s: string)
    requires s == [] || (!IsSpace(s[0]) && !IsSpace(s[|s| - 1]))
    ensures Trim(s) == s
  {
  }

  predicate AllSpace(s: string) {
    forall i :: 0 <= i < |s| ==> IsSpace(s[i])
  }

  /** Trimming whitespace that surrounds a string without whitespace at its edges gives that string back. */
  lemma {:induction false} TrimSurrounded(pre: string, b: string, post: string)
    requires AllSpace(pre) && AllSpace(post)
    requires b != [] && !IsSpace(b[0]) && !IsSpace(b[|b| - 1])
    ensures Trim(pre + b + post) == b
  {
    TrimStartPrefix(pre, b + post);
    assert pre + b + post == pre + (b + post);
    TrimEndSuffix(b, post);
  }

  lemma {:induction false} TrimStartPrefix(pre: string, rest: string)
    requires AllSpace(pre)
    requires rest != [] && !IsSpace(rest[0])
    ensures TrimStart(pre + rest) == rest
  {
    if pre != [] {
      assert (pre + rest)[1..] == pre[1..] + rest;
      TrimStartPrefix(pre[1..], rest);
    }
  }

  lemma {:induction false} TrimEndSuffix(b: string, post: string)
    requires AllSpace(post)
    requires b != [] && !IsSpace(b[|b| - 1])
    ensures TrimEnd(b + post) == b
  {
    if post != [] {
      assert (b + post)[..|b + post| - 1] == b + post[..|post| - 1];
      TrimEndSuffix(b, post[..|post| - 1]);
    }
  }

  /** `${v}` for a text that may be `undefined`: a missing value prints as "undefined". */
  function Shown(v: Option<string>): string {
    v.GetOr("undefined")
  }

  // ---------------------------------------------------------------- case, filters

  function LowerChar(c: char): char {
    if 'A' <= c <= 'Z' then (c as int + 32) as char else c
  }

  /** `s.toLowerCase()` on ASCII letters. */
  function Lower(s: string): (r: string)
    ensures |r| == |s| && forall i :: 0 <= i < |s| ==> r[i] == LowerChar(s[i])
  {
    seq(|s|, i requires 0 <= i < |s| => LowerChar(s[i]))
  }

  /** Lower-casing twice is lower-casing once. */
  lemma LowerIdempotent(s: string)
    ensures Lower(Lower(s)) == Lower(s)
  {
  }

  /** `s.slice(0, n)` */
  function Prefix(s: string, n: nat): (r: string)
    ensures |r| == if |s| < n then |s| else n
  {
    if |s| <= n then s else s[..n]
  }

  /** The characters of `s` for which `keep` holds, in order (a `replace(/[...]/g, "")`). */
  function KeepChars(s: string, keep: char -> bool): (r: string)
    ensures |r| <= |s|
    ensures forall c :: c in r ==> c in s && keep(c)
  {
    if s == [] then [] else (if keep(s[0]) then [s[0]] else []) + KeepChars(s[1..], keep)
  }

  /** Nothing is removed when every character is kept. */
  lemma {:induction false} KeepAll(s: string, keep: char -> bool)
    requires forall c :: c in s ==> keep(c)
    ensures KeepChars(s, keep) == s
  {
    if s != [] {
      assert s[0] in s;
      assert forall c :: c in s[1..] ==> c in s;
      KeepAll(s[1..], keep);
      assert s == [s[0]] + s[1..];
    }
  }

  /** Dropping characters splits over concatenation, so the kept ones stay in order. */
  lemma {:induction false} KeepCharsAppend(a: string, b: string, keep: char -> bool)
    ensures KeepChars(a + b, keep) == KeepChars(a, keep) + KeepChars(b, keep)
  {
    if a == [] {
      assert a + b == b;
    } else {
      assert (a + b)[0] == a[0] && (a + b)[1..] == a[1..] + b;
      KeepCharsAppend(a[1..], b, keep);
    }
  }

  /** Trimming text without white space changes nothing. */
  lemma TrimNoSpace(s: string)
    requires forall c :: c in s ==> !IsSpace(c)
    ensures Trim(s) == s
  {
    if s != [] {
      assert s[0] in s && s[|s| - 1] in s;
    }
  }

  /** `xs.filter(p)`: the elements satisfying `p`, in order. */
  function Filter<T(!new)>(xs: seq<T>, p: T -> bool): (r: seq<T>)
    ensures |r| <= |xs|
    ensures forall x :: x in r <==> x in xs && p(x)
  {
    if xs == [] then [] else (if p(xs[0]) then [xs[0]] else []) + Filter(xs[1..], p)
  }

  lemma {:induction false} FilterAppend<T(!new)>(a: seq<T>, b: seq<T>, p: T -> bool)
    ensures Filter(a + b, p) == Filter(a, p) + Filter(b, p)
  {
    if a == [] {
      assert a + b == b;
    } else {
      assert (a + b)[0] == a[0] && (a + b)[1..] == a[1..] + b;
      FilterAppend(a[1..], b, p);
    }
  }

  /** A prefix one longer is the shorter prefix and the next element. */
  lemma PrefixSnoc<T>(xs: seq<T>, k: nat)
    requires k < |xs|
    ensures xs[..k + 1] == xs[..k] + [xs[k]]
  {
  }

  /** Filtering one more element of a prefix appends it when it passes. */
  lemma FilterSnoc<T(!new)>(xs: seq<T>, k: nat, p: T -> bool)
    requires k < |xs|
    ensures Filter(xs[..k + 1], p) == Filter(xs[..k], p) + (if p(xs[k]) then [xs[k]] else [])
  {
    PrefixSnoc(xs, k);
    FilterAppend(xs[..k], [xs[k]], p);
    assert Filter([xs[k]], p) == (if p(xs[k]) then [xs[k]] else []) + Filter([], p);
  }

  /** Concatenation regroups. */
  lemma ConcatAssoc<T>(a: seq<T>, b: seq<T>, c: seq<T>)
    ensures a + b + c == a + (b + c)
  {
  }

  /** `s.includes(x)` for a string `x`. */
  predicate IsInfix(x: string, s: string) {
    exists i | 0 <= i <= |s| :: InfixAt(x, s, i)
  }

  /** `x` occurs in `s` starting at index `i`. */
  predicate InfixAt(x: string, s: string, i: int) {
    0 <= i <= |s| - |x| && s[i..i + |x|] == x
  }

  lemma InfixOfConcat(a: string, x: string, b: string)
    ensures IsInfix(x, a + x + b)
  {
    assert (a + x + b)[|a|..|a| + |x|] == x;
    assert InfixAt(x, a + x + b, |a|);
  }

  lemma InfixEnd(a: string, x: string)
    ensures IsInfix(x, a + x)
  {
    assert (a + x)[|a|..|a| + |x|] == x;
    assert InfixAt(x, a + x, |a|);
  }

  lemma InfixStart(x: string, b: string)
    ensures IsInfix(x, x + b)
  {
    assert (x + b)[0..|x|] == x;
    assert InfixAt(x, x + b, 0);
  }

  /** Infixes compose: a part of a part is a part. */
  lemma InfixTransitive(x: string, y: string, s: string)
    requires IsInfix(x, y) && IsInfix(y, s)
    ensures IsInfix(x, s)
  {
    var i :| 0 <= i <= |y| && InfixAt(x, y, i);
    var j :| 0 <= j <= |s| && InfixAt(y, s, j);
    assert 0 <= i <= |y| - |x| && y[i..i + |x|] == x;
    assert 0 <= j <= |s| - |y| && s[j..j + |y|] == y;
    forall k | 0 <= k < |x|
      ensures s[j + i..j + i + |x|][k] == x[k]
    {
      assert x[k] == y[i + k] == s[j + i + k];
    }
    assert InfixAt(x, s, j + i);
  }

  lemma InfixLeft(x: string, a: string, b: string)
    requires IsInfix(x, a)
    ensures IsInfix(x, a + b)
  {
    InfixOfConcat("", a, b);
    assert "" + a + b == a + b;
    InfixTransitive(x, a, a + b);
  }

  lemma InfixRight(x: string, a: string, b: string)
    requires IsInfix(x, b)
    ensures IsInfix(x, a + b)
  {
    InfixOfConcat(a, b, "");
    assert a + b + "" == a + b;
    InfixTransitive(x, b, a + b);
  }

  // ---------------------------------------------------------------- split and join

  function Count(s: string, c: char): nat {
    if s == [] then 0 else (if s[0] == c then 1 else 0) + Count(s[1..], c)
  }

  /** `s.split(c)` for a one-character separator `c`. */
  function SplitOn(s: string, c: char): (r: seq<string>)
    ensures |r| == Count(s, c) + 1
    ensures forall p :: p in r ==> c !in p
  {
    if s == [] then [""]
    else
      var rest := SplitOn(s[1..], c);
      if s[0] == c then [""] + rest
      else
        assert rest[0] in rest;
        [[s[0]] + rest[0]] + rest[1..]
  }

  /** `ps.join(sep)` */
  function Join(ps: seq<string>, sep: string): string {
    if |ps| == 0 then "" else if |ps| == 1 then ps[0] else ps[0] + sep + Join(ps[1..], sep)
  }

  /** Two separator-free pieces around one separator split back into those two pieces. */
  lemma SplitPair(a: string, b: string, c: char)
    requires c !in a && c !in b
    ensures SplitOn(a + [c] + b, c) == [a, b]
  {
    SplitGlue(b, [], c);
    assert b + [] == b;
    assert SplitOn(b, c) == [b];
    var t := [c] + b;
    assert t[0] == c && t[1..] == b;
    assert SplitOn(t, c) == [""] + [b];
    assert a + [c] + b == a + t;
    SplitGlue(a, t, c);
    assert a + "" == a;
  }

  /** A prefix free of the separator glues onto the first piece. */
  lemma {:induction false} SplitGlue(a: string, rest: string, c: char)
    requires c !in a
    ensures SplitOn(a + rest, c) == [a + SplitOn(rest, c)[0]] + SplitOn(rest, c)[1..]
  {
    if a != [] {
      var s := a + rest;
      assert s[0] == a[0] && s[1..] == a[1..] + rest;
      SplitGlue(a[1..], rest, c);
      var r := SplitOn(s[1..], c);
      assert r[0] == a[1..] + SplitOn(rest, c)[0] && r[1..] == SplitOn(rest, c)[1..];
      assert SplitOn(s, c) == [[a[0]] + r[0]] + r[1..];
      assert [a[0]] + (a[1..] + SplitOn(rest, c)[0]) == a + SplitOn(rest, c)[0];
    } else {
      var r := SplitOn(rest, c);
      assert a + rest == rest && a + r[0] == r[0];
      assert r == [r[0]] + r[1..];
    }
  }

  /** Splitting undoes joining when no piece holds the separator. */
  lemma {:induction false} SplitJoin(ps: seq<string>, c: char)
    requires |ps| >= 1
    requires forall p :: p in ps ==> c !in p
    ensures SplitOn(Join(ps, [c]), c) == ps
  {
    if |ps| == 1 {
      SplitGlue(ps[0], "", c);
      assert ps[0] + "" == ps[0];
    } else {
      var tail := Join(ps[1..], [c]);
      SplitJoin(ps[1..], c);
      assert Join(ps, [c]) == ps[0] + ([c] + tail);
      SplitGlue(ps[0], [c] + tail, c);
      assert ([c] + tail)[1..] == tail;
      assert SplitOn([c] + tail, c) == [""] + ps[1..];
      assert ps[0] + "" == ps[0];
      assert ps == [ps[0]] + ps[1..];
    }
  }

  /** Every piece of a join occurs in it. */
  lemma {:induction false} InfixOfJoin(ps: seq<string>, sep: string, k: nat)
    requires k < |ps|
    ensures IsInfix(ps[k], Join(ps, sep))
    decreases |ps|
  {
    if |ps| == 1 {
      InfixOfConcat("", ps[0], "");
      assert "" + ps[0] + "" == ps[0];
    } else if k == 0 {
      InfixOfConcat("", ps[0], sep + Join(ps[1..], sep));
      assert "" + ps[0] + (sep + Join(ps[1..], sep)) == Join(ps, sep);
    } else {
      InfixOfJoin(ps[1..], sep, k - 1);
      InfixRight(ps[k], ps[0] + sep, Join(ps[1..], sep));
      assert ps[0] + sep + Join(ps[1..], sep) == Join(ps, sep);
    }
  }

  // ---------------------------------------------------------------- numbers

  /** A JavaScript number read from text: an integer, or NaN. */
  datatype Num = Finite(n: int) | NaN

  predicate IsDigit(c: char) { '0' <= c <= '9' }

  predicate AllDigits(s: string) {
    forall i :: 0 <= i < |s| ==> IsDigit(s[i])
  }

  function DigitsValue(s: string): nat
    requires AllDigits(s)
  {
    if s == [] then 0 else DigitsValue(s[..|s| - 1]) * 10 + (s[|s| - 1] as int - '0' as int)
  }

  /** `Number(s)` for decimal integers with an optional sign; blank text is 0. */
  function ToNumber(s: string): Num {
    var t := Trim(s);
    if t == [] then Finite(0)
    else if |t| > 1 && t[0] == '-' && AllDigits(t[1..]) then Finite(-(DigitsValue(t[1..]) as int))
    else if |t| > 1 && t[0] == '+' && AllDigits(t[1..]) then Finite(DigitsValue(t[1..]))
    else if AllDigits(t) then Finite(DigitsValue(t))
    else NaN
  }

  /** `Number(s) || 0`: NaN and 0 both give 0. */
  function NumberOrZero(s: string): int {
    match ToNumber(s)
    case Finite(n) => n
    case NaN => 0
  }

  function DigitChar(d: int): char
    requires 0 <= d < 10
  {
    ('0' as int + d) as char
  }

  /** `String(n)` for a natural number. */
  function NatToString(n: nat): (r: string)
    ensures r != [] && AllDigits(r)
    ensures DigitsValue(r) == n
  {
    if n < 10 then [DigitChar(n)]
    else
      var r := NatToString(n / 10) + [DigitChar(n % 10)];
      assert r[..|r| - 1] == NatToString(n / 10);
      r
  }

  /** `String(i)` for an integer. */
  function IntToString(i: int): (r: string)
    ensures r != [] && !IsSpace(r[0]) && !IsSpace(r[|r| - 1])
    ensures ':' !in r && '&' !in r && '=' !in r && '-' !in r[1..]
  {
    if i < 0 then "-" + NatToString(-i) else NatToString(i)
  }

  /** Reading back a printed integer gives the integer. */
  lemma NumberOfIntToString(i: int)
    ensures ToNumber(IntToString(i)) == Finite(i)
  {
    var s := IntToString(i);
    TrimNoEdges(s);
    if i < 0 {
      assert s[1..] == NatToString(-i);
    }
  }

  /** Unsigned digit text reads as its decimal value. */
  lemma NumberOfDigits(t: string)
    requires t != [] && AllDigits(t)
    ensures ToNumber(t) == Finite(DigitsValue(t))
  {
    assert !IsSpace(t[0]) && !IsSpace(t[|t| - 1]);
    TrimNoEdges(t);
  }

  /** `s.padStart(2, "0")` */
  function PadStart2(s: string): (r: string)
    ensures |r| >= 2
    ensures |s| >= 2 ==> r == s
  {
    if |s| >= 2 then s else if |s| == 1 then "0" + s else "00"
  }

  /** Zero padding does not change the number a printed integer reads as. */
  lemma NumberOfPaddedInt(i: int)
    ensures ToNumber(PadStart2(IntToString(i))) == Finite(i)
    ensures ':' !in PadStart2(IntToString(i))
  {
    var s := IntToString(i);
    NumberOfIntToString(i);
    if |s| == 1 {
      assert 0 <= i < 10 && s == [DigitChar(i)];
      var p := PadStart2(s);
      assert p == ['0', DigitChar(i)];
      assert p[..1] == "0" && p[..1][..0] == "";
      assert DigitsValue(p) == i;
      NumberOfDigits(p);
    }
  }

  // ---------------------------------------------------------------- object fields

  /** `row[k]`: the value of a key, or undefined. */
  function Get(row: map<string, string>, k: string): Option<string> {
    if k in row then Some(row[k]) else None
  }

  /** `v || d` for a string that may be undefined: undefined and "" are falsy. */
  function OrElse(v: Option<string>, d: string): (r: string)
    ensures r == d || (v.Some? && r == v.value && r != "")
  {
    if v.Some? && v.value != "" then v.value else d
  }
}
