// Facts about printed text: where a span of characters ends, and decimal numerals.
// They carry the proofs that printed versions and render-cache keys can be read back.
module Text {
  ghost predicate All(s: string, p: char -> bool) {
    forall k :: 0 <= k < |s| ==> p(s[k])
  }

  ghost predicate Free(s: string, c: char) {
    forall k :: 0 <= k < |s| ==> s[k] != c
  }

  // `r` is empty or its first character lies outside the class `p`.
  ghost predicate Stops(r: string, p: char -> bool) {
    r == "" || !p(r[0])
  }

  // A text splits in one way only into a run of the class `p` and a rest that leaves the class.
  lemma SpanUnique(p: char -> bool, a: string, r: string, a': string, r': string)
    requires All(a, p) && All(a', p) && Stops(r, p) && Stops(r', p)
    requires a + r == a' + r'
    ensures a == a' && r == r'
  {
    var s := a + r;
    assert forall k :: 0 <= k < |a| ==> p(s[k]);
    assert forall k :: 0 <= k < |a'| ==> p(s[k]);
    assert |a| < |s| ==> s[|a|] == r[0];
    assert |a'| < |s| ==> s[|a'|] == r'[0];
    assert |a| == |a'|;
    assert s[..|a|] == a && s[..|a'|] == a';
    assert s[|a|..] == r && s[|a'|..] == r';
  }

  // The same for the first occurrence of a separator.
  lemma SplitFirst(c: char, a: string, r: string, a': string, r': string)
    requires Free(a, c) && Free(a', c)
    requires a + [c] + r == a' + [c] + r'
    ensures a == a' && r == r'
  {
    assert a + [c] + r == a + ([c] + r) && a' + [c] + r' == a' + ([c] + r');
    SpanUnique(x => x != c, a, [c] + r, a', [c] + r');
    assert ([c] + r)[1..] == r && ([c] + r')[1..] == r';
  }

  // The same for the last occurrence of a separator.
  lemma SplitLast(c: char, a: string, r: string, a': string, r': string)
    requires Free(r, c) && Free(r', c)
    requires a + [c] + r == a' + [c] + r'
    ensures a == a' && r == r'
  {
    var s := a + [c] + r;
    assert s[|a|] == c && s[|a'|] == c;
    assert forall k :: |a| < k < |s| ==> s[k] == r[k - |a| - 1];
    assert forall k :: |a'| < k < |s| ==> s[k] == r'[k - |a'| - 1];
    assert |a| == |a'|;
    assert s[..|a|] == a && s[..|a'|] == a';
    assert s[|a| + 1..] == r && s[|a'| + 1..] == r';
  }

  predicate IsDigit(c: char) { '0' <= c <= '9' }

  function Decimal(n: nat): (s: string)
    ensures |s| > 0 && All(s, IsDigit)
  {
    if n < 10 then [('0' as int + n) as char] else Decimal(n / 10) + [('0' as int + n % 10) as char]
  }

  function Value(s: string): int {
    if s == "" then 0 else 10 * Value(s[..|s| - 1]) + (s[|s| - 1] as int - '0' as int)
  }

  lemma {:induction false} DecimalValue(n: nat)
    ensures Value(Decimal(n)) == n
  {
    var s := Decimal(n);
    if n < 10 {
      assert s[..|s| - 1] == "";
    } else {
      assert s[..|s| - 1] == Decimal(n / 10);
      DecimalValue(n / 10);
    }
  }

  lemma DecimalInjective(m: nat, n: nat)
    requires Decimal(m) == Decimal(n)
    ensures m == n
  {
    DecimalValue(m);
    DecimalValue(n);
  }
}
