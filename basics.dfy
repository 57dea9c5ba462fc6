/**
 * Small vocabulary shared by every other module: optional values, results
 * carrying an error message, JavaScript whitespace and `trim`, `join`,
 * substring occurrence and the decimal rendering of integers.
 */
module Basics {

  datatype Option<+T> = None | Some(value: T)

  /** The outcome of an operation that may throw: the thrown Error's message. */
  datatype Result<+T> = Ok(value: T) | Err(message: string)

  /**
   * ECMAScript WhiteSpace and LineTerminator code points: what `\s` in a
   * regular expression and `String.prototype.trim` treat as whitespace
   * (the space separators of category Zs are listed explicitly).
   */
  predicate IsSpace(c: char)
  {
    if c <= ' ' then c == ' ' || '\t' <= c <= '\r'
    else if c < '\U{2000}' then c == '\U{00A0}' || c == '\U{1680}'
    else if c <= '\U{205F}' then c <= '\U{200A}' || c == '\U{2028}' || c == '\U{2029}' || c == '\U{202F}' || c == '\U{205F}'
    else c == '\U{3000}' || c == '\U{FEFF}'
  }

  predicate AllSpace(s: string)
  {
    forall k :: 0 <= k < |s| ==> IsSpace(s[k])
  }

  predicate NoSpace(s: string)
  {
    forall k :: 0 <= k < |s| ==> !IsSpace(s[k])
  }

  /** Number of whitespace code points at the start of `s`. */
  function LeadingSpace(s: string): (n: nat)
    ensures n <= |s|
    ensures forall k :: 0 <= k < n ==> IsSpace(s[k])
    ensures n < |s| ==> !IsSpace(s[n])
  {
    if s != [] && IsSpace(s[0]) then 1 + LeadingSpace(s[1..]) else 0
  }

  /** Index just past the last non-whitespace code point of `s` (0 if none). */
  function ContentEnd(s: string): (e: nat)
    ensures e <= |s|
    ensures forall k :: e <= k < |s| ==> IsSpace(s[k])
    ensures e > 0 ==> !IsSpace(s[e - 1])
  {
    if s != [] && IsSpace(s[|s| - 1]) then ContentEnd(s[..|s| - 1]) else |s|
  }

  /** `String.prototype.trimStart`: only leading whitespace is removed. */
  function TrimStart(s: string): (r: string)
    ensures r == [] || !IsSpace(r[0])
  {
    s[LeadingSpace(s)..]
  }

  /**
   * `String.prototype.trim`: the slice of `s` between its first and last
   * non-whitespace code points, empty when `s` is all whitespace.
   */
  function Trim(s: string): (r: string)
    ensures r == [] <==> AllSpace(s)
    ensures r == [] || (!IsSpace(r[0]) && !IsSpace(r[|r| - 1]))
    ensures LeadingSpace(s) + |r| <= |s| && r == s[LeadingSpace(s)..LeadingSpace(s) + |r|]
  {
    var lo, hi := LeadingSpace(s), ContentEnd(s);
    if lo == |s| then
      assert AllSpace(s);
      []
    else
      assert !AllSpace(s);
      assert lo < hi;
      s[lo..hi]
  }

  /** The trimmed text is fixed by where the non-space characters begin and end. */
  lemma {:induction false} TrimExact(s: string, lo: nat, hi: nat)
    requires lo < hi <= |s|
    requires forall k :: 0 <= k < lo ==> IsSpace(s[k])
    requires forall k :: hi <= k < |s| ==> IsSpace(s[k])
    requires !IsSpace(s[lo]) && !IsSpace(s[hi - 1])
    ensures Trim(s) == s[lo..hi]
  {
    assert LeadingSpace(s) == lo;
    assert ContentEnd(s) == hi;
  }

  /** Text without whitespace at either end is its own trim: `trim` is idempotent. */
  lemma {:induction false} TrimOfNonSpaceEnds(s: string)
    requires s == [] || (!IsSpace(s[0]) && !IsSpace(s[|s| - 1]))
    ensures Trim(s) == s
  {
    if s != [] {
      TrimExact(s, 0, |s|);
    }
  }

  /** `Array.prototype.join(sep)` on an array of strings. */
  function Join(xs: seq<string>, sep: string): (r: string)
    ensures xs == [] ==> r == []
    ensures |xs| == 1 ==> r == xs[0]
  {
    if xs == [] then []
    else if |xs| == 1 then xs[0]
    else xs[0] + sep + Join(xs[1..], sep)
  }

  /** `part` occurs in `whole` starting at index `i`. */
  predicate OccursAt(part: string, whole: string, i: int)
  {
    0 <= i && i + |part| <= |whole| && whole[i..i + |part|] == part
  }

  ghost predicate IsInfix(part: string, whole: string)
  {
    exists i :: OccursAt(part, whole, i)
  }

  lemma {:induction false} InfixOfConcat(before: string, part: string, after: string)
    ensures OccursAt(part, before + part + after, |before|)
    ensures IsInfix(part, before + part + after)
  {
    var w := before + part + after;
    assert w[|before|..|before| + |part|] == part;
    assert OccursAt(part, w, |before|);
  }

  lemma {:induction false} InfixExtends(part: string, mid: string, before: string, after: string)
    requires IsInfix(part, mid)
    ensures IsInfix(part, before + mid + after)
  {
    var i :| OccursAt(part, mid, i);
    var w := before + mid + after;
    assert w[|before| + i..|before| + i + |part|] == mid[i..i + |part|];
    assert OccursAt(part, w, |before| + i);
  }

  lemma {:induction false} InfixAtStart(part: string, rest: string)
    ensures IsInfix(part, part + rest)
  {
    assert (part + rest)[..|part|] == part;
    assert OccursAt(part, part + rest, 0);
  }

  lemma {:induction false} InfixPrepend(part: string, w: string, before: string)
    requires IsInfix(part, w)
    ensures IsInfix(part, before + w)
  {
    var i :| OccursAt(part, w, i);
    assert (before + w)[|before| + i..|before| + i + |part|] == w[i..i + |part|];
    assert OccursAt(part, before + w, |before| + i);
  }

  lemma {:induction false} InfixAppend(part: string, w: string, after: string)
    requires IsInfix(part, w)
    ensures IsInfix(part, w + after)
  {
    var i :| OccursAt(part, w, i);
    assert (w + after)[i..i + |part|] == w[i..i + |part|];
    assert OccursAt(part, w + after, i);
  }

  /** The pieces concatenated in order. */
  function Concat(parts: seq<string>): string
  {
    if parts == [] then [] else parts[0] + Concat(parts[1..])
  }

  /** Concatenating two runs of pieces is concatenating their results. */
  lemma {:induction false} ConcatSplit(a: seq<string>, b: seq<string>)
    ensures Concat(a + b) == Concat(a) + Concat(b)
  {
    if a == [] {
      assert a + b == b;
    } else {
      assert (a + b)[1..] == a[1..] + b;
      ConcatSplit(a[1..], b);
      AppendAssociative(a[0], Concat(a[1..]), Concat(b));
    }
  }

  /** The concatenation ends with its last piece. */
  lemma {:induction false} ConcatEndsWithLast(parts: seq<string>)
    requires parts != []
    ensures EndsWith(Concat(parts), parts[|parts| - 1])
  {
    var n := |parts| - 1;
    ConcatSplit(parts[..n], [parts[n]]);
    assert parts[..n] + [parts[n]] == parts;
    assert [parts[n]][1..] == [];
    assert parts[n] + [] == parts[n];
    AppendParts(Concat(parts[..n]), parts[n]);
  }

  /** Whatever occurs in one piece occurs in the concatenation. */
  lemma {:induction false} ConcatHasInfix(parts: seq<string>, k: nat, part: string)
    requires k < |parts| && IsInfix(part, parts[k])
    ensures IsInfix(part, Concat(parts))
  {
    if k == 0 {
      InfixAppend(part, parts[0], Concat(parts[1..]));
    } else {
      ConcatHasInfix(parts[1..], k - 1, part);
      InfixPrepend(part, Concat(parts[1..]), parts[0]);
    }
  }

  /** Each piece occurs in the concatenation. */
  lemma {:induction false} ConcatHasPart(parts: seq<string>, k: nat)
    requires k < |parts|
    ensures IsInfix(parts[k], Concat(parts))
  {
    InfixAtStart(parts[k], []);
    assert parts[k] + [] == parts[k];
    ConcatHasInfix(parts, k, parts[k]);
  }

  /** A slice lying wholly in the second part of a concatenation. */
  lemma SliceAfterPrefix(a: string, b: string, lo: nat, hi: nat)
    requires |a| <= lo <= hi <= |a| + |b|
    ensures (a + b)[lo..hi] == b[lo - |a|..hi - |a|]
  {
  }

  /** String concatenation is associative. */
  lemma AppendAssociative(x: string, y: string, z: string)
    ensures x + (y + z) == x + y + z
  {
  }

  predicate StartsWith(s: string, prefix: string)
  {
    |prefix| <= |s| && s[..|prefix|] == prefix
  }

  predicate EndsWith(s: string, suffix: string)
  {
    |suffix| <= |s| && s[|s| - |suffix|..] == suffix
  }

  /** Each part of a concatenation can be read back from it. */
  lemma AppendParts(x: string, y: string)
    ensures StartsWith(x + y, x)
    ensures (x + y)[|x + y| - |y|..] == y
  {
    assert (x + y)[..|x|] == x;
    assert (x + y)[|x|..] == y;
  }

  /** The decimal digit character of `d`. */
  function DecimalDigit(d: nat): (c: char)
    requires d < 10
    ensures '0' <= c <= '9'
    ensures c as int - '0' as int == d
  {
    ('0' as int + d) as char
  }

  predicate IsDecimal(s: string)
  {
    forall k :: 0 <= k < |s| ==> '0' <= s[k] <= '9'
  }

  /** The number a string of decimal digits denotes (most significant digit first). */
  function DecimalValue(digits: string): nat
    requires IsDecimal(digits)
  {
    if digits == [] then 0
    else 10 * DecimalValue(digits[..|digits| - 1]) + (digits[|digits| - 1] as int - '0' as int)
  }

  /** `String(n)` for a non-negative integer: decimal, no leading zeros. */
  function NatToString(n: nat): (r: string)
    ensures r != []
    ensures IsDecimal(r)
    ensures |r| > 1 ==> r[0] != '0'
  {
    if n < 10 then [DecimalDigit(n)]
    else NatToString(n / 10) + [DecimalDigit(n % 10)]
  }

  /** The digits of `String(n)` denote `n`. */
  lemma {:induction false} NatToStringValue(n: nat)
    ensures DecimalValue(NatToString(n)) == n
  {
    if n >= 10 {
      var r := NatToString(n);
      NatToStringValue(n / 10);
      assert r[..|r| - 1] == NatToString(n / 10);
    }
  }

  /** `String(n)` for an integer. */
  function IntToString(n: int): (r: string)
    ensures r != []
    ensures n < 0 <==> r[0] == '-'
  {
    if n < 0 then "-" + NatToString(-n) else NatToString(n)
  }

  /**
   * `String(n)` is the decimal of `n`, after a minus sign when `n` is
   * negative.
   */
  lemma IntToStringValue(n: int)
    ensures n >= 0 ==> IsDecimal(IntToString(n)) && DecimalValue(IntToString(n)) == n
    ensures n < 0 ==> IsDecimal(IntToString(n)[1..]) && DecimalValue(IntToString(n)[1..]) == -n
  {
    if n < 0 {
      NatToStringValue(-n);
      assert IntToString(n)[1..] == NatToString(-n);
    } else {
      NatToStringValue(n);
    }
  }

  /** Different integers print differently. */
  lemma IntToStringInjective(a: int, b: int)
    requires IntToString(a) == IntToString(b)
    ensures a == b
  {
    IntToStringValue(a);
    IntToStringValue(b);
  }
}
