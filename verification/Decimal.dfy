/**
 Decimal indices in error labels: strconv.Itoa and the bracketed suffix built from it.
 */
module Decimal {

  const DIGITS: string := "0123456789"

  predicate IsDigit(c: char) { '0' <= c <= '9' }

  function Digit(d: nat): (c: char)
    requires d < 10
    ensures IsDigit(c)
  {
    DIGITS[d]
  }

  /** strconv.Itoa of a non-negative index. */
  function Itoa(n: nat): (s: string)
    ensures s != "" && forall i :: 0 <= i < |s| ==> IsDigit(s[i])
  {
    if n < 10 then [Digit(n)] else Itoa(n / 10) + [Digit(n % 10)]
  }

  lemma {:induction false} ItoaInjective(m: nat, n: nat)
    requires Itoa(m) == Itoa(n)
    ensures m == n
  {
    var s := Itoa(m);
    assert m < 10 <==> |s| == 1 by { ItoaLength(m); }
    assert n < 10 <==> |s| == 1 by { ItoaLength(n); }
    assert s[|s| - 1] == Digit(m % 10) == Digit(n % 10);
    if m >= 10 {
      assert Itoa(m / 10) == s[..|s| - 1] == Itoa(n / 10);
      ItoaInjective(m / 10, n / 10);
    }
  }

  /** The number a decimal numeral stands for, its characters read by their code. */
  function ValueOf(s: string): int {
    if s == "" then 0 else 10 * ValueOf(s[..|s| - 1]) + (s[|s| - 1] as int - '0' as int)
  }

  /** The rendering is the decimal numeral of the index, without leading zeros. */
  lemma {:induction false} ItoaIsDecimal(n: nat)
    ensures ValueOf(Itoa(n)) == n
    ensures n > 0 ==> Itoa(n)[0] != '0'
  {
    DigitIsItsValue(n % 10);
    var s := Itoa(n);
    if n < 10 {
      DigitIsItsValue(n);
      assert s[..0] == "" && ValueOf(s[..0]) == 0;
    } else {
      ItoaIsDecimal(n / 10);
      assert s[..|s| - 1] == Itoa(n / 10);
    }
  }

  lemma DigitIsItsValue(d: nat)
    requires d < 10
    ensures Digit(d) as int - '0' as int == d
  {
  }

  lemma ItoaLength(n: nat)
    ensures n < 10 <==> |Itoa(n)| == 1
  {
    if n >= 10 {
      assert |Itoa(n)| == |Itoa(n / 10)| + 1;
    }
  }

  /** The suffix naming element `i` of a repeat. */
  function Index(i: nat): string {
    "[" + Itoa(i) + "]"
  }

  /** The suffix naming a place by the indices of the repeats that hold it, outermost first. */
  function Indices(at: seq<nat>): string {
    if at == [] then "" else Index(at[0]) + Indices(at[1..])
  }

  predicate FreeOf(s: string, stops: set<char>) {
    forall i :: 0 <= i < |s| ==> s[i] !in stops
  }

  predicate Stopped(s: string, stops: set<char>) {
    s == "" || s[0] in stops
  }

  /** A text splits in one way into a part free of stop characters and a rest that is empty or starts at one. */
  lemma SplitUnique(a: string, b: string, s: string, t: string, stops: set<char>)
    requires FreeOf(a, stops) && FreeOf(b, stops) && Stopped(s, stops) && Stopped(t, stops)
    requires a + s == b + t
    ensures a == b && s == t
  {
    var u := a + s;
    assert forall i :: 0 <= i < |b| ==> u[i] == b[i];
    assert forall i :: 0 <= i < |a| ==> u[i] == a[i];
    assert |u| == |a| || u[|a|] in stops;
    assert |u| == |b| || u[|b|] in stops;
    assert a == u[..|a|] && b == (b + t)[..|b|];
    assert s == u[|a|..] && t == (b + t)[|b|..];
  }

  /** Two bracketed indices that start equal texts are the same index, and the rests are the same text. */
  lemma IndexPrefix(i: nat, j: nat, s: string, t: string)
    requires Index(i) + s == Index(j) + t
    ensures i == j && s == t
  {
    var a, b := Itoa(i), Itoa(j);
    assert a + ("]" + s) == (Index(i) + s)[1..];
    assert b + ("]" + t) == (Index(j) + t)[1..];
    SplitUnique(a, b, "]" + s, "]" + t, {']'});
    ItoaInjective(i, j);
    assert s == ("]" + s)[1..] && t == ("]" + t)[1..];
  }

  lemma {:induction false} IndicesSnoc(at: seq<nat>, i: nat)
    ensures Indices(at + [i]) == Indices(at) + Index(i)
  {
    if at == [] {
      assert at + [i] == [i];
      assert [i][1..] == [];
      assert Index(i) + "" == Index(i);
      assert "" + Index(i) == Index(i);
    } else {
      assert (at + [i])[1..] == at[1..] + [i];
      IndicesSnoc(at[1..], i);
      assert Index(at[0]) + (Indices(at[1..]) + Index(i)) == (Index(at[0]) + Indices(at[1..])) + Index(i);
    }
  }

  /** The rendered suffix determines the whole index sequence, whatever its length. */
  lemma {:induction false} IndicesInjective(at: seq<nat>, other: seq<nat>)
    requires Indices(at) == Indices(other)
    ensures at == other
  {
    if at != [] && other != [] {
      IndexPrefix(at[0], other[0], Indices(at[1..]), Indices(other[1..]));
      IndicesInjective(at[1..], other[1..]);
      assert at == [at[0]] + at[1..];
      assert other == [other[0]] + other[1..];
    }
  }
}
