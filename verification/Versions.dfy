// Specific chart versions: the order of section 11 of Semantic Versioning 2.0.0 and the printed form.
module Versions {
  import opened Text

  datatype Order = Less | Same | Greater

  datatype Identifier = Numeric(n: nat) | Alphanumeric(text: string)

  datatype Version = Version(major: nat, minor: nat, patch: nat, pre: seq<Identifier>, meta: string) {
    // True when this version is newer; build metadata takes no part.
    predicate IsNewerThan(other: Version) { Compare(this, other) == Greater }

    predicate Equal(other: Version) { Compare(this, other) == Same }
  }

  function Flip(o: Order): Order {
    match o case Less => Greater case Same => Same case Greater => Less
  }

  function CompareInt(a: int, b: int): Order {
    if a < b then Less else if a == b then Same else Greater
  }

  function CompareChar(a: char, b: char): Order {
    CompareInt(a as int, b as int)
  }

  // Field by field; a proper prefix is smaller (sections 11.4.2 and 11.4.4).
  function Lexicographic<T>(cmp: (T, T) -> Order, a: seq<T>, b: seq<T>): Order
    decreases |a|
  {
    if a == [] then (if b == [] then Same else Less)
    else if b == [] then Greater
    else if cmp(a[0], b[0]) != Same then cmp(a[0], b[0])
    else Lexicographic(cmp, a[1..], b[1..])
  }

  // Numeric identifiers are below alphanumeric ones (section 11.4.3).
  function CompareIdentifier(a: Identifier, b: Identifier): Order {
    match (a, b)
    case (Numeric(m), Numeric(n)) => CompareInt(m, n)
    case (Numeric(_), Alphanumeric(_)) => Less
    case (Alphanumeric(_), Numeric(_)) => Greater
    case (Alphanumeric(s), Alphanumeric(t)) => Lexicographic(CompareChar, s, t)
  }

  // A version with a pre-release is below the same version without one (section 11.3).
  function ComparePre(a: seq<Identifier>, b: seq<Identifier>): Order {
    if a == [] then (if b == [] then Same else Greater)
    else if b == [] then Less
    else Lexicographic(CompareIdentifier, a, b)
  }

  function Compare(v: Version, w: Version): Order {
    if v.major != w.major then CompareInt(v.major, w.major)
    else if v.minor != w.minor then CompareInt(v.minor, w.minor)
    else if v.patch != w.patch then CompareInt(v.patch, w.patch)
    else ComparePre(v.pre, w.pre)
  }

  ghost predicate Antisymmetric<T(!new)>(cmp: (T, T) -> Order) {
    forall a, b :: cmp(b, a) == Flip(cmp(a, b))
  }

  ghost predicate Transitive<T(!new)>(cmp: (T, T) -> Order) {
    forall a, b, c :: cmp(a, b) != Greater && cmp(b, c) != Greater ==> cmp(a, c) != Greater
  }

  lemma {:induction false} LexicographicFlip<T(!new)>(cmp: (T, T) -> Order, a: seq<T>, b: seq<T>)
    requires Antisymmetric(cmp)
    ensures Lexicographic(cmp, b, a) == Flip(Lexicographic(cmp, a, b))
    decreases |a|
  {
    if a != [] && b != [] {
      assert cmp(b[0], a[0]) == Flip(cmp(a[0], b[0]));
      LexicographicFlip(cmp, a[1..], b[1..]);
    }
  }

  lemma {:induction false} LexicographicTransitive<T(!new)>(cmp: (T, T) -> Order, a: seq<T>, b: seq<T>, c: seq<T>)
    requires Antisymmetric(cmp) && Transitive(cmp)
    requires Lexicographic(cmp, a, b) != Greater && Lexicographic(cmp, b, c) != Greater
    ensures Lexicographic(cmp, a, c) != Greater
    decreases |a|
  {
    if a != [] && b != [] && c != [] {
      var x, y, z := a[0], b[0], c[0];
      assert cmp(x, y) != Greater && cmp(y, z) != Greater;
      assert cmp(x, z) != Greater;
      if cmp(x, z) == Same {
        assert cmp(z, x) == Same && cmp(y, x) == Flip(cmp(x, y)) && cmp(z, y) == Flip(cmp(y, z));
        assert cmp(y, x) != Greater && cmp(z, y) != Greater;
        LexicographicTransitive(cmp, a[1..], b[1..], c[1..]);
      }
    }
  }

  lemma IdentifiersOrdered()
    ensures Antisymmetric(CompareIdentifier) && Transitive(CompareIdentifier)
  {
    assert Antisymmetric(CompareChar) && Transitive(CompareChar);
    forall a, b ensures CompareIdentifier(b, a) == Flip(CompareIdentifier(a, b)) {
      if a.Alphanumeric? && b.Alphanumeric? { LexicographicFlip(CompareChar, a.text, b.text); }
    }
    forall a, b, c | CompareIdentifier(a, b) != Greater && CompareIdentifier(b, c) != Greater
      ensures CompareIdentifier(a, c) != Greater
    {
      if a.Alphanumeric? && b.Alphanumeric? && c.Alphanumeric? {
        LexicographicTransitive(CompareChar, a.text, b.text, c.text);
      }
    }
  }

  // Precedence is a total preorder: exactly one of newer, equal, older holds, and "not newer" chains.
  lemma PrecedenceFlip(v: Version, w: Version)
    ensures Compare(w, v) == Flip(Compare(v, w))
    ensures Compare(v, v) == Same
  {
    IdentifiersOrdered();
    LexicographicFlip(CompareIdentifier, v.pre, w.pre);
    LexicographicFlip(CompareIdentifier, v.pre, v.pre);
  }

  lemma PrecedenceTransitive(u: Version, v: Version, w: Version)
    requires !u.IsNewerThan(v) && !v.IsNewerThan(w)
    ensures !u.IsNewerThan(w)
    ensures u.Equal(w) ==> u.Equal(v) && v.Equal(w)
  {
    IdentifiersOrdered();
    NotNewerChains(u, v, w);
    PrecedenceFlip(u, w);
    PrecedenceFlip(u, v);
    PrecedenceFlip(v, w);
    if u.Equal(w) {
      NotNewerChains(v, w, u);
      NotNewerChains(w, u, v);
    }
  }

  lemma NotNewerChains(u: Version, v: Version, w: Version)
    requires Compare(u, v) != Greater && Compare(v, w) != Greater
    ensures Compare(u, w) != Greater
  {
    IdentifiersOrdered();
    if u.major == v.major == w.major && u.minor == v.minor == w.minor && u.patch == v.patch == w.patch
       && u.pre != [] && v.pre != [] && w.pre != [] {
      LexicographicTransitive(CompareIdentifier, u.pre, v.pre, w.pre);
    }
  }

  // ---- the order in the words of section 11 ----

  // `a` is above `b` at the first difference, or goes on where `b` ends.
  ghost predicate Above<T(!new)>(above: (T, T) -> bool, a: seq<T>, b: seq<T>) {
    exists i :: AboveAt(above, a, b, i)
  }

  ghost predicate AboveAt<T(!new)>(above: (T, T) -> bool, a: seq<T>, b: seq<T>, i: int) {
    && 0 <= i < |a| && i <= |b| && a[..i] == b[..i]
    && (i == |b| || above(a[i], b[i]))
  }

  predicate LargerChar(a: char, b: char) { a > b }

  // Numeric identifiers by value and below texts; texts by their characters.
  ghost predicate LargerIdentifier(a: Identifier, b: Identifier) {
    match (a, b)
    case (Numeric(m), Numeric(n)) => m > n
    case (Numeric(_), Alphanumeric(_)) => false
    case (Alphanumeric(_), Numeric(_)) => true
    case (Alphanumeric(s), Alphanumeric(t)) => Above(LargerChar, s, t)
  }

  // The numbers decide first, from left to right.
  predicate LargerNumbers(v: Version, w: Version) {
    || v.major > w.major
    || (v.major == w.major && v.minor > w.minor)
    || (v.major == w.major && v.minor == w.minor && v.patch > w.patch)
  }

  predicate SameNumbers(v: Version, w: Version) { v.major == w.major && v.minor == w.minor && v.patch == w.patch }

  // Then a release is above its pre-releases, and these are ordered by their identifiers.
  ghost predicate LargerPre(p: seq<Identifier>, q: seq<Identifier>) {
    if p == [] || q == [] then p == [] && q != [] else Above(LargerIdentifier, p, q)
  }

  lemma {:induction false} AboveStep<T(!new)>(above: (T, T) -> bool, a: seq<T>, b: seq<T>)
    requires a != [] && b != []
    ensures Above(above, a, b) <==> above(a[0], b[0]) || (a[0] == b[0] && Above(above, a[1..], b[1..]))
  {
    if i :| AboveAt(above, a, b, i) {
      if i > 0 {
        assert a[..i][0] == b[..i][0];
        assert a[1..][..i - 1] == a[..i][1..] && b[1..][..i - 1] == b[..i][1..];
        assert AboveAt(above, a[1..], b[1..], i - 1);
      }
    }
    if above(a[0], b[0]) { assert AboveAt(above, a, b, 0); }
    if a[0] == b[0] {
      if i :| AboveAt(above, a[1..], b[1..], i) {
        assert a[..i + 1] == [a[0]] + a[1..][..i] && b[..i + 1] == [b[0]] + b[1..][..i];
        assert AboveAt(above, a, b, i + 1);
      }
    }
  }

  lemma {:induction false} LexicographicIs<T(!new)>(cmp: (T, T) -> Order, above: (T, T) -> bool, a: seq<T>, b: seq<T>)
    requires forall x, y :: cmp(x, y) == Greater <==> above(x, y)
    requires forall x, y :: cmp(x, y) == Same <==> x == y
    ensures Lexicographic(cmp, a, b) == Greater <==> Above(above, a, b)
    ensures Lexicographic(cmp, a, b) == Same <==> a == b
    decreases |a|
  {
    if a != [] && b == [] {
      assert AboveAt(above, a, b, 0);
    } else if a != [] {
      AboveStep(above, a, b);
      LexicographicIs(cmp, above, a[1..], b[1..]);
      assert cmp(a[0], b[0]) == Greater <==> above(a[0], b[0]);
      assert cmp(a[0], b[0]) == Same <==> a[0] == b[0];
      assert a == [a[0]] + a[1..] && b == [b[0]] + b[1..];
    }
  }

  lemma IdentifierIs(a: Identifier, b: Identifier)
    ensures CompareIdentifier(a, b) == Greater <==> LargerIdentifier(a, b)
    ensures CompareIdentifier(a, b) == Same <==> a == b
  {
    if a.Alphanumeric? && b.Alphanumeric? { LexicographicIs(CompareChar, LargerChar, a.text, b.text); }
  }

  // Which version is newer, and which tie: everything but the metadata counts.
  lemma NewerExactlyWhen(v: Version, w: Version)
    ensures v.IsNewerThan(w) <==> LargerNumbers(v, w) || (SameNumbers(v, w) && LargerPre(v.pre, w.pre))
    ensures v.Equal(w) <==> SameNumbers(v, w) && v.pre == w.pre
  {
    forall a, b
      ensures CompareIdentifier(a, b) == Greater <==> LargerIdentifier(a, b)
      ensures CompareIdentifier(a, b) == Same <==> a == b
    {
      IdentifierIs(a, b);
    }
    if v.pre != [] && w.pre != [] { LexicographicIs(CompareIdentifier, LargerIdentifier, v.pre, w.pre); }
  }

  // ---- the printed form ----

  predicate IsTextChar(c: char) { IsDigit(c) || 'a' <= c <= 'z' || 'A' <= c <= 'Z' || c == '-' }

  // What section 9 and 10 of Semantic Versioning 2.0.0 allow in a version.
  ghost predicate WellFormed(v: Version) {
    && (forall k :: 0 <= k < |v.pre| ==> WellFormedIdentifier(v.pre[k]))
    && All(v.meta, c => IsTextChar(c) || c == '.')
  }

  ghost predicate WellFormedIdentifier(i: Identifier) {
    i.Alphanumeric? ==> All(i.text, IsTextChar) && !All(i.text, IsDigit)
  }

  function IdentifierText(i: Identifier): string {
    match i case Numeric(n) => Decimal(n) case Alphanumeric(text) => text
  }

  function Dotted(pre: seq<Identifier>): string {
    if pre == [] then "" else IdentifierText(pre[0]) + (if |pre| == 1 then "" else ['.'] + Dotted(pre[1..]))
  }

  function Suffix(v: Version): string {
    PreText(v.pre) + MetaText(v.meta)
  }

  function PreText(pre: seq<Identifier>): string {
    if pre == [] then "" else ['-'] + Dotted(pre)
  }

  function MetaText(meta: string): string {
    if meta == "" then "" else ['+'] + meta
  }

  // SpecificVersion.ToString.
  function ToText(v: Version): string {
    Decimal(v.major) + ['.'] + (Decimal(v.minor) + ['.'] + (Decimal(v.patch) + Suffix(v)))
  }

  lemma IdentifierTextInjective(i: Identifier, j: Identifier)
    requires WellFormedIdentifier(i) && WellFormedIdentifier(j)
    requires IdentifierText(i) == IdentifierText(j)
    ensures i == j
  {
    if i.Numeric? && j.Numeric? { DecimalInjective(i.n, j.n); }
  }

  ghost predicate WellFormedPre(pre: seq<Identifier>) {
    forall k :: 0 <= k < |pre| ==> WellFormedIdentifier(pre[k])
  }

  lemma {:induction false} DottedChars(pre: seq<Identifier>)
    requires WellFormedPre(pre)
    ensures All(Dotted(pre), c => IsTextChar(c) || c == '.')
    ensures pre != [] ==> Dotted(pre) != ""
  {
    if pre != [] {
      assert WellFormedIdentifier(pre[0]);
      DottedChars(pre[1..]);
    }
  }

  lemma {:induction false} DottedInjective(p: seq<Identifier>, q: seq<Identifier>)
    requires WellFormedPre(p) && WellFormedPre(q)
    requires Dotted(p) == Dotted(q)
    ensures p == q
  {
    DottedChars(p);
    DottedChars(q);
    if p != [] && q != [] {
      FirstIdentifier(p, q);
      if |p| > 1 && |q| > 1 {
        assert AfterFirst(p)[1..] == Dotted(p[1..]) && AfterFirst(q)[1..] == Dotted(q[1..]);
        DottedInjective(p[1..], q[1..]);
      }
      assert p == [p[0]] + p[1..] && q == [q[0]] + q[1..];
    }
  }

  predicate NotDot(c: char) { c != '.' }

  function AfterFirst(pre: seq<Identifier>): string {
    if |pre| <= 1 then "" else ['.'] + Dotted(pre[1..])
  }

  lemma IdentifierChars(i: Identifier)
    requires WellFormedIdentifier(i)
    ensures All(IdentifierText(i), NotDot)
  {}

  lemma FirstIdentifier(p: seq<Identifier>, q: seq<Identifier>)
    requires WellFormedPre(p) && WellFormedPre(q) && p != [] && q != [] && Dotted(p) == Dotted(q)
    ensures p[0] == q[0] && AfterFirst(p) == AfterFirst(q)
  {
    assert WellFormedIdentifier(p[0]) && WellFormedIdentifier(q[0]);
    IdentifierChars(p[0]);
    IdentifierChars(q[0]);
    SpanUnique(NotDot, IdentifierText(p[0]), AfterFirst(p), IdentifierText(q[0]), AfterFirst(q));
    IdentifierTextInjective(p[0], q[0]);
  }

  lemma PreTextInjective(p: seq<Identifier>, q: seq<Identifier>)
    requires WellFormedPre(p) && WellFormedPre(q) && PreText(p) == PreText(q)
    ensures p == q
  {
    if p != [] && q != [] {
      assert PreText(p)[1..] == Dotted(p) && PreText(q)[1..] == Dotted(q);
      DottedInjective(p, q);
    }
  }

  predicate NotPlus(c: char) { c != '+' }

  lemma PreTextChars(pre: seq<Identifier>)
    requires WellFormedPre(pre)
    ensures All(PreText(pre), NotPlus)
  {
    DottedChars(pre);
  }

  lemma MetaTextInjective(m: string, n: string)
    requires MetaText(m) == MetaText(n)
    ensures m == n
  {
    if m != "" && n != "" { assert MetaText(m)[1..] == m && MetaText(n)[1..] == n; }
  }

  lemma SuffixInjective(v: Version, w: Version)
    requires WellFormed(v) && WellFormed(w)
    requires Suffix(v) == Suffix(w)
    ensures v.pre == w.pre && v.meta == w.meta
  {
    PreTextChars(v.pre);
    PreTextChars(w.pre);
    SpanUnique(NotPlus, PreText(v.pre), MetaText(v.meta), PreText(w.pre), MetaText(w.meta));
    PreTextInjective(v.pre, w.pre);
    MetaTextInjective(v.meta, w.meta);
  }

  // A printed version can be read back: it determines every field, build metadata included.
  lemma ToTextInjective(v: Version, w: Version)
    requires WellFormed(v) && WellFormed(w)
    requires ToText(v) == ToText(w)
    ensures v == w
  {
    SplitFirst('.', Decimal(v.major), Decimal(v.minor) + ['.'] + (Decimal(v.patch) + Suffix(v)),
               Decimal(w.major), Decimal(w.minor) + ['.'] + (Decimal(w.patch) + Suffix(w)));
    SplitFirst('.', Decimal(v.minor), Decimal(v.patch) + Suffix(v), Decimal(w.minor), Decimal(w.patch) + Suffix(w));
    SpanUnique(IsDigit, Decimal(v.patch), Suffix(v), Decimal(w.patch), Suffix(w));
    DecimalInjective(v.major, w.major);
    DecimalInjective(v.minor, w.minor);
    DecimalInjective(v.patch, w.patch);
    SuffixInjective(v, w);
  }

  // The printed form by example: numbers with dots, the pre-release after a hyphen, the metadata after a plus.
  lemma PrintedExample()
    ensures ToText(Version(1, 2, 3, [Alphanumeric("rc"), Numeric(4)], "b7")) == "1.2.3-rc.4+b7"
  {
    var pre := [Alphanumeric("rc"), Numeric(4)];
    assert pre[1..] == [Numeric(4)];
    assert Dotted([Numeric(4)]) == "4";
    assert Dotted(pre) == "rc" + (['.'] + "4");
  }

  // The characters of a printed version, and that it opens with a digit.
  lemma ToTextChars(v: Version)
    requires WellFormed(v)
    ensures All(ToText(v), c => IsTextChar(c) || c == '.' || c == '+')
    ensures ToText(v) != "" && IsDigit(ToText(v)[0])
  {
    DottedChars(v.pre);
    assert All(Suffix(v), c => IsTextChar(c) || c == '.' || c == '+');
  }
}
