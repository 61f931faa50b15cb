/**
 * Text primitives the Go code takes from its standard library: base-10 rendering of
 * integers (strconv.FormatInt, fmt's %d), strconv.ParseInt(s, 10, 64),
 * strings.Contains, strings.Trim with a one-character cutset and strings.ReplaceAll
 * with an empty replacement.
 */
module Text {
  import opened Wrappers

  const Int64Min: int := -0x8000_0000_0000_0000
  const Int64Max: int := 0x7FFF_FFFF_FFFF_FFFF

  predicate InInt64(n: int) {
    Int64Min <= n <= Int64Max
  }

  /** ASCII decimal digit. */
  predicate IsDigit(c: char) {
    '0' <= c <= '9'
  }

  predicate AllDigits(s: string) {
    forall i :: 0 <= i < |s| ==> IsDigit(s[i])
  }

  function DigitChar(d: nat): (c: char)
    requires d < 10
    ensures IsDigit(c) && DigitValue(c) == d
  {
    (d + '0' as int) as char
  }

  function DigitValue(c: char): nat
    requires IsDigit(c)
  {
    c as int - '0' as int
  }

  /** Shortest base-10 rendering of a natural number (no sign, no leading zero). */
  function NatToDecimal(n: nat): (r: string)
    ensures |r| >= 1 && AllDigits(r)
    ensures |r| > 1 ==> r[0] != '0'
    decreases n
  {
    if n < 10 then [DigitChar(n)] else NatToDecimal(n / 10) + [DigitChar(n % 10)]
  }

  /** The number a string of digits denotes; leading zeros contribute nothing. */
  function DecimalValue(s: string): nat
    requires AllDigits(s)
  {
    if s == [] then 0 else DecimalValue(s[..|s| - 1]) * 10 + DigitValue(s[|s| - 1])
  }

  lemma {:induction false} DecimalValueOfNatToDecimal(n: nat)
    ensures DecimalValue(NatToDecimal(n)) == n
    decreases n
  {
    var s := NatToDecimal(n);
    if n < 10 {
      assert s[..|s| - 1] == [];
    } else {
      assert s[..|s| - 1] == NatToDecimal(n / 10);
      DecimalValueOfNatToDecimal(n / 10);
    }
  }

  /** strconv.FormatInt(n, 10), also what fmt's %d prints. */
  function IntToDecimal(n: int): (r: string)
    ensures |r| >= 1
    ensures n >= 0 <==> IsDigit(r[0])
    ensures n < 0 <==> r[0] == '-'
  {
    if n < 0 then "-" + NatToDecimal(-n) else NatToDecimal(n)
  }

  datatype ParseError = SyntaxError | RangeError

  /**
   * strconv.ParseInt(s, 10, 64): an optional '+' or '-', then at least one ASCII
   * digit and nothing else; the value must fit in a signed 64-bit integer.
   */
  function ParseInt64(s: string): (r: Result<int, ParseError>)
    ensures r.Success? ==> InInt64(r.value)
    ensures s == [] ==> r == Failure(SyntaxError)
  {
    if s == [] then Failure(SyntaxError)
    else
      var digits := if s[0] == '+' || s[0] == '-' then s[1..] else s;
      if digits == [] || !AllDigits(digits) then Failure(SyntaxError)
      else
        var v: int := if s[0] == '-' then -(DecimalValue(digits) as int) else DecimalValue(digits) as int;
        if InInt64(v) then Success(v) else Failure(RangeError)
  }

  /** Rendering a 64-bit integer and parsing it back gives the same integer. */
  lemma ParseInt64OfIntToDecimal(n: int)
    requires InInt64(n)
    ensures ParseInt64(IntToDecimal(n)) == Success(n)
  {
    var m: nat := if n < 0 then -n else n;
    var digits := NatToDecimal(m);
    DecimalValueOfNatToDecimal(m);
    var s := IntToDecimal(n);
    if n < 0 {
      assert s[1..] == digits;
      assert s[0] == '-';
    } else {
      assert s == digits && IsDigit(s[0]);
    }
  }

  /** Distinct integers have distinct renderings. */
  lemma IntToDecimalInjective(a: int, b: int)
    requires InInt64(a) && InInt64(b)
    requires IntToDecimal(a) == IntToDecimal(b)
    ensures a == b
  {
    ParseInt64OfIntToDecimal(a);
    ParseInt64OfIntToDecimal(b);
  }

  /** `sub` occurs in `s` starting at index `i`. */
  predicate OccursAt(s: string, sub: string, i: int) {
    0 <= i && i + |sub| <= |s| && s[i..i + |sub|] == sub
  }

  /** strings.Contains(s, sub). */
  predicate Contains(s: string, sub: string) {
    exists i | 0 <= i <= |s| - |sub| :: OccursAt(s, sub, i)
  }

  /** A substring of a prefix is a substring of the whole. */
  lemma ContainsInPrefix(p: string, q: string, sub: string)
    requires Contains(p, sub)
    ensures Contains(p + q, sub)
  {
    var i :| 0 <= i <= |p| - |sub| && OccursAt(p, sub, i);
    assert (p + q)[i..i + |sub|] == sub;
    assert OccursAt(p + q, sub, i);
  }

  /** strings.HasSuffix(s, suffix). */
  predicate EndsWith(s: string, suffix: string) {
    |suffix| <= |s| && s[|s| - |suffix|..] == suffix
  }

  /** Whatever sits between two pieces of a concatenation occurs in it. */
  lemma ContainsMiddle(a: string, b: string, c: string)
    ensures Contains(a + b + c, b)
  {
    assert (a + b + c)[|a|..|a| + |b|] == b;
    assert OccursAt(a + b + c, b, |a|);
  }

  function TrimLeft(s: string, c: char): (r: string)
    ensures |r| <= |s| && r == s[|s| - |r|..]
    ensures r == [] || r[0] != c
  {
    if s != [] && s[0] == c then TrimLeft(s[1..], c) else s
  }

  function TrimRight(s: string, c: char): (r: string)
    ensures |r| <= |s| && r == s[..|r|]
    ensures r == [] || r[|r| - 1] != c
  {
    if s != [] && s[|s| - 1] == c then TrimRight(s[..|s| - 1], c) else s
  }

  /** strings.Trim(s, cutset) for a one-character cutset: strips every leading and trailing `c`. */
  function Trim(s: string, c: char): (r: string)
    ensures r == [] || (r[0] != c && r[|r| - 1] != c)
  {
    TrimRight(TrimLeft(s, c), c)
  }

  lemma {:induction false} TrimLeftRepeated(k: nat, x: string, c: char)
    requires x == [] || x[0] != c
    ensures TrimLeft(seq(k, _ => c) + x, c) == x
    decreases k
  {
    if k > 0 {
      assert (seq(k, _ => c) + x)[1..] == seq(k - 1, _ => c) + x;
      TrimLeftRepeated(k - 1, x, c);
    }
  }

  lemma {:induction false} TrimRightRepeated(x: string, k: nat, c: char)
    requires x == [] || x[|x| - 1] != c
    ensures TrimRight(x + seq(k, _ => c), c) == x
    decreases k
  {
    if k > 0 {
      var s := x + seq(k, _ => c);
      assert s[..|s| - 1] == x + seq(k - 1, _ => c);
      TrimRightRepeated(x, k - 1, c);
    }
  }

  /** Trimming undoes wrapping in one pair of `c` when the text itself neither starts nor ends with `c`. */
  lemma TrimWrapped(x: string, c: char)
    requires x == [] || (x[0] != c && x[|x| - 1] != c)
    ensures Trim([c] + x + [c], c) == x
  {
    if x == [] {
      TrimLeftRepeated(2, [], c);
      assert seq(2, _ => c) + [] == [c] + x + [c];
      return;
    }
    TrimLeftRepeated(1, x + [c], c);
    assert seq(1, _ => c) + (x + [c]) == [c] + x + [c];
    TrimRightRepeated(x, 1, c);
    assert x + seq(1, _ => c) == x + [c];
  }

  /** strings.ReplaceAll(s, string(c), ""): every `c` removed, everything else kept in order. */
  function RemoveAll(s: string, c: char): (r: string)
    ensures c !in r
    ensures |r| <= |s|
    ensures forall x :: x in r <==> x in s && x != c
  {
    if s == [] then [] else (if s[0] == c then [] else [s[0]]) + RemoveAll(s[1..], c)
  }

  /** Every character other than `c` is kept as often as it occurs, and `c` not at all. */
  lemma {:induction false} RemoveAllCounts(s: string, c: char)
    ensures multiset(RemoveAll(s, c)) == multiset(s)[c := 0]
  {
    if s != [] {
      assert s == [s[0]] + s[1..];
      RemoveAllCounts(s[1..], c);
    }
  }

  /** Removal works piece by piece, so the characters kept stay in their order. */
  lemma {:induction false} RemoveAllAppend(u: string, v: string, c: char)
    ensures RemoveAll(u + v, c) == RemoveAll(u, c) + RemoveAll(v, c)
  {
    if u != [] {
      assert (u + v)[0] == u[0] && (u + v)[1..] == u[1..] + v;
      RemoveAllAppend(u[1..], v, c);
      assert RemoveAll(u + v, c) == (if u[0] == c then [] else [u[0]]) + RemoveAll(u[1..] + v, c);
    } else {
      assert u + v == v;
    }
  }

  lemma {:induction false} RemoveAllAbsent(s: string, c: char)
    requires c !in s
    ensures RemoveAll(s, c) == s
  {
    if s != [] {
      RemoveAllAbsent(s[1..], c);
    }
  }
}
