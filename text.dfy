/**
 * The JavaScript string primitives the editor relies on, over `seq<char>`:
 * the `\s` character class (which is also the set `parseInt` trims),
 * `toLowerCase` restricted to ASCII, `includes`, `replace` with a string
 * pattern (first occurrence only), the global `parseInt` with no radix
 * argument, and the decimal rendering of a non-negative integer in a
 * template string.
 */
module Text {
  import opened Wrappers

  /** JavaScript's WhiteSpace and LineTerminator code points: what `\s` matches and what `parseInt` skips. */
  predicate IsSpace(c: char) {
    var k := c as int;
    || k == 0x09 || k == 0x0A || k == 0x0B || k == 0x0C || k == 0x0D
    || k == 0x20 || k == 0xA0 || k == 0x1680
    || (0x2000 <= k <= 0x200A)
    || k == 0x2028 || k == 0x2029 || k == 0x202F || k == 0x205F
    || k == 0x3000 || k == 0xFEFF
  }

  predicate IsUpper(c: char) {
    'A' <= c <= 'Z'
  }

  function LowerChar(c: char): char {
    if IsUpper(c) then (c as int + 32) as char else c
  }

  /**
   * `toLowerCase`, restricted to the ASCII letters: each upper-case letter
   * becomes its lower-case letter (32 code points on), every other character
   * stays where it was, no upper-case letter is left, and white space stays
   * white space.
   */
  function Lower(s: string): (r: string)
    ensures |r| == |s|
    ensures forall i :: 0 <= i < |s| ==> !IsUpper(r[i])
    ensures forall i :: 0 <= i < |s| && IsUpper(s[i]) ==> r[i] as int == s[i] as int + 32
    ensures forall i :: 0 <= i < |s| && !IsUpper(s[i]) ==> r[i] == s[i]
    ensures forall i :: 0 <= i < |s| ==> (IsSpace(r[i]) <==> IsSpace(s[i]))
  {
    seq(|s|, i requires 0 <= i < |s| => LowerChar(s[i]))
  }

  /** Lower-casing twice is lower-casing once. */
  lemma LowerIdempotent(s: string)
    ensures Lower(Lower(s)) == Lower(s)
  {
  }

  /** `p` occurs in `s` starting at index `i`. */
  predicate OccursAt(s: string, p: string, i: nat) {
    i + |p| <= |s| && s[i..i + |p|] == p
  }

  /** `s.includes(p)`. */
  predicate Includes(s: string, p: string) {
    exists i: nat | i <= |s| :: OccursAt(s, p, i)
  }

  lemma {:induction false} IncludesEmpty(s: string)
    ensures Includes(s, "")
  {
    assert OccursAt(s, "", 0);
  }

  lemma {:induction false} IncludesTransitive(a: string, b: string, c: string)
    requires Includes(a, b) && Includes(b, c)
    ensures Includes(a, c)
  {
    var i: nat :| i <= |a| && OccursAt(a, b, i);
    var j: nat :| j <= |b| && OccursAt(b, c, j);
    assert forall k :: 0 <= k < |c| ==> a[i + j + k] == b[j + k] == c[k];
    assert a[i + j..i + j + |c|] == c;
    assert OccursAt(a, c, i + j);
  }

  lemma {:induction false} LowerPreservesIncludes(s: string, p: string)
    requires Includes(s, p)
    ensures Includes(Lower(s), Lower(p))
  {
    var i: nat :| i <= |s| && OccursAt(s, p, i);
    assert Lower(s)[i..i + |p|] == Lower(p);
    assert OccursAt(Lower(s), Lower(p), i);
  }

  /** `p` occurs at index `i` and at no earlier index. */
  predicate FirstAt(s: string, p: string, i: nat) {
    OccursAt(s, p, i) && forall j: nat :: j < i ==> !OccursAt(s, p, j)
  }

  /** The search behind `indexOf`: the first index at or after `from` where `p` occurs. */
  function IndexFrom(s: string, p: string, from: nat): (r: Option<nat>)
    ensures r.Some? ==> from <= r.value && OccursAt(s, p, r.value)
    ensures r.Some? ==> forall j: nat :: from <= j < r.value ==> !OccursAt(s, p, j)
    ensures r.None? ==> forall j: nat :: from <= j ==> !OccursAt(s, p, j)
    decreases |s| - from
  {
    if from > |s| then None
    else if OccursAt(s, p, from) then Some(from)
    else IndexFrom(s, p, from + 1)
  }

  /** `s.indexOf(p)`: the first occurrence, or none exactly when `s` does not include `p`. */
  function IndexOf(s: string, p: string): (r: Option<nat>)
    ensures r.Some? ==> FirstAt(s, p, r.value)
    ensures r.None? <==> !Includes(s, p)
  {
    var r := IndexFrom(s, p, 0);
    assert r.Some? ==> r.value <= |s|;
    r
  }

  /**
   * `s.replace(pat, rep)` with a string pattern: the first occurrence, wherever
   * it is, is replaced and nothing else changes; without one the string is
   * left as it is.
   */
  function ReplaceFirst(s: string, pat: string, rep: string): (r: string)
    ensures !Includes(s, pat) ==> r == s
    ensures forall k: nat :: FirstAt(s, pat, k) ==> r == s[..k] + rep + s[k + |pat|..]
  {
    match IndexOf(s, pat)
    case None => s
    case Some(k) =>
      assert forall k': nat :: FirstAt(s, pat, k') ==> k' == k;
      s[..k] + rep + s[k + |pat|..]
  }

  /** A digit of the given radix: 0-9 for radix 10; 0-9, a-f and A-F for radix 16. */
  predicate IsDigitIn(c: char, radix: nat) {
    || ('0' <= c <= '9')
    || (radix == 16 && ('a' <= c <= 'f' || 'A' <= c <= 'F'))
  }

  function DigitValue(c: char): nat {
    if '0' <= c <= '9' then c as int - '0' as int
    else if 'a' <= c <= 'f' then c as int - 'a' as int + 10
    else if 'A' <= c <= 'F' then c as int - 'A' as int + 10
    else 0
  }

  /** The longest prefix of `s` made of digits of the radix. */
  function DigitRun(s: string, radix: nat): string
  {
    if s == [] || !IsDigitIn(s[0], radix) then [] else [s[0]] + DigitRun(s[1..], radix)
  }

  /** The value of a digit string in the radix, most significant digit first. */
  function RadixValue(z: string, radix: nat): nat
  {
    if z == [] then 0 else RadixValue(z[..|z| - 1], radix) * radix + DigitValue(z[|z| - 1])
  }

  /** The string with its leading JavaScript white space removed. */
  function TrimStart(s: string): string
  {
    if s != [] && IsSpace(s[0]) then TrimStart(s[1..]) else s
  }

  /** Trimming removes exactly the leading white space: a suffix remains, and it does not start with white space. */
  lemma {:induction false} TrimStartFacts(s: string)
    ensures |TrimStart(s)| <= |s| && TrimStart(s) == s[|s| - |TrimStart(s)|..]
    ensures forall i :: 0 <= i < |s| - |TrimStart(s)| ==> IsSpace(s[i])
    ensures TrimStart(s) != [] ==> !IsSpace(TrimStart(s)[0])
  {
    if s != [] && IsSpace(s[0]) {
      var t := s[1..];
      TrimStartFacts(t);
      var r := TrimStart(t);
      assert TrimStart(s) == r;
      assert s[|s| - |r|..] == t[|t| - |r|..];
      forall i | 0 <= i < |s| - |r|
        ensures IsSpace(s[i])
      {
        if i > 0 {
          assert s[i] == t[i - 1];
        }
      }
    }
  }

  /** Leading white space followed by text that does not start with white space trims to that text. */
  lemma {:induction false} TrimSpacesBefore(w: string, b: string)
    requires forall i :: 0 <= i < |w| ==> IsSpace(w[i])
    requires b == [] || !IsSpace(b[0])
    ensures TrimStart(w + b) == b
  {
    if w != [] {
      assert (w + b)[1..] == w[1..] + b;
      TrimSpacesBefore(w[1..], b);
    } else {
      assert w + b == b;
    }
  }

  /** Trimming stops inside the first operand when it holds a character that is not white space. */
  lemma {:induction false} TrimStartAppend(x: string, y: string)
    requires exists i :: 0 <= i < |x| && !IsSpace(x[i])
    ensures TrimStart(x + y) == TrimStart(x) + y
  {
    assert x != [];
    if IsSpace(x[0]) {
      TrimStartFacts(x);
      assert (x + y)[1..] == x[1..] + y;
      var i :| 0 <= i < |x| && !IsSpace(x[i]);
      assert i > 0 && !IsSpace(x[1..][i - 1]);
      TrimStartAppend(x[1..], y);
    }
  }

  /** Trimming a string that ends in a character that is not white space keeps that last character, and never reaches past the string. */
  lemma TrimStartKeepsLast(x: string, y: string)
    requires x != [] && !IsSpace(x[|x| - 1])
    ensures 0 < |TrimStart(x)| <= |x| && TrimStart(x)[|TrimStart(x)| - 1] == x[|x| - 1]
    ensures TrimStart(x + y) == TrimStart(x) + y
  {
    TrimStartFacts(x);
    TrimStartAppend(x, y);
  }

  /**
   * `parseInt(s) || 0`: skip leading white space and read an optional sign; NaN
   * (no digits) and -0 both become 0 under `|| 0`.
   */
  function ParseIntOrZero(s: string): (v: int)
    ensures v != 0 ==> HasDecimalDigit(s)
    ensures v < 0 ==> HasMinusSign(s)
  {
    TrimStartFacts(s);
    var t := TrimStart(s);
    var k := |s| - |t|;
    assert forall i :: 0 <= i < |t| ==> t[i] == s[k + i];
    if t != [] && t[0] == '-' then -(ParseMagnitude(t[1..]) as int)
    else if t != [] && t[0] == '+' then ParseMagnitude(t[1..])
    else ParseMagnitude(t)
  }

  predicate HasDecimalDigit(s: string) {
    exists i :: 0 <= i < |s| && '0' <= s[i] <= '9'
  }

  predicate HasMinusSign(s: string) {
    exists i :: 0 <= i < |s| && s[i] == '-'
  }

  /** The unsigned part of `parseInt`: radix 16 after a `0x`/`0X` prefix, else radix 10; 0 when no digit follows. */
  function ParseMagnitude(u: string): (m: nat)
    ensures m != 0 ==> u != [] && '0' <= u[0] <= '9'
  {
    if |u| >= 2 && u[0] == '0' && (u[1] == 'x' || u[1] == 'X') then RadixValue(DigitRun(u[2..], 16), 16)
    else RadixValue(DigitRun(u, 10), 10)
  }

  function DigitChar(d: nat): char
    requires d < 10
  {
    ('0' as int + d) as char
  }

  /** A non-negative integer as a template string renders it. */
  function DecimalString(n: nat): string
  {
    if n < 10 then [DigitChar(n)] else DecimalString(n / 10) + [DigitChar(n % 10)]
  }

  lemma {:induction false} DecimalStringDigits(n: nat)
    ensures DecimalString(n) != []
    ensures forall i :: 0 <= i < |DecimalString(n)| ==> '0' <= DecimalString(n)[i] <= '9'
    ensures RadixValue(DecimalString(n), 10) == n
    ensures DecimalString(n)[0] == '0' ==> n == 0
  {
    if n >= 10 {
      DecimalStringDigits(n / 10);
      var s := DecimalString(n / 10);
      assert DecimalString(n) == s + [DigitChar(n % 10)];
      assert DecimalString(n)[..|DecimalString(n)| - 1] == s;
    }
  }

  lemma {:induction false} DigitRunOfDigits(ds: string, rest: string)
    requires forall i :: 0 <= i < |ds| ==> '0' <= ds[i] <= '9'
    requires rest == [] || !IsDigitIn(rest[0], 10)
    ensures DigitRun(ds + rest, 10) == ds
  {
    if ds != [] {
      assert (ds + rest)[1..] == ds[1..] + rest;
      DigitRunOfDigits(ds[1..], rest);
    } else {
      assert ds + rest == rest;
    }
  }

  /**
   * `parseInt` reads back a rendered integer followed by any text that does not
   * continue its digits, except that `0` followed by `x` or `X` starts a
   * hexadecimal number instead.
   */
  lemma ParseDecimalPrefix(n: nat, rest: string)
    requires rest == [] || !IsDigitIn(rest[0], 10)
    requires n == 0 ==> rest == [] || (rest[0] != 'x' && rest[0] != 'X')
    ensures ParseIntOrZero(DecimalString(n) + rest) == n
  {
    var ds := DecimalString(n);
    DecimalStringDigits(n);
    var s := ds + rest;
    assert s[0] == ds[0];
    assert !IsSpace(s[0]) && s[0] != '-' && s[0] != '+';
    assert TrimStart(s) == s;
    assert ParseIntOrZero(s) == ParseMagnitude(s);
    assert !(|s| >= 2 && s[0] == '0' && (s[1] == 'x' || s[1] == 'X')) by {
      if |s| >= 2 && s[0] == '0' {
        assert ds == [DigitChar(0)];
        assert s[1] == rest[0];
      }
    }
    DigitRunOfDigits(ds, rest);
    assert ParseMagnitude(s) == RadixValue(ds, 10);
  }
}
