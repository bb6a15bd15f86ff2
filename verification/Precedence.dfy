/** Precedence of versions, item 11 of Semantic Versioning 2.0.0, and the comparison that decides it. */
module Precedence {
  import opened Basics
  import opened Numerals
  import opened Text
  import opened SemVer

  // ---------- digit strings of any length ----------

  function TrimLeftZeros(s: string): string { if s != "" && s[0] == '0' then TrimLeftZeros(s[1..]) else s }

  lemma {:induction false} ZeroInFront(s: string)
    requires AllDigits(s)
    ensures Value("0" + s) == Value(s)
  {
    var t := "0" + s;
    if s == "" {
      assert t[..0] == "";
    } else {
      ZeroInFront(s[..|s| - 1]);
      assert t[..|t| - 1] == "0" + s[..|s| - 1];
    }
  }

  lemma {:induction false} TrimKeepsValue(s: string)
    requires AllDigits(s)
    ensures var t := TrimLeftZeros(s);
            AllDigits(t) && Value(t) == Value(s) && (t != "" ==> t[0] != '0')
  {
    if s != "" && s[0] == '0' {
      TrimKeepsValue(s[1..]);
      ZeroInFront(s[1..]);
      assert s == "0" + s[1..];
    }
  }

  lemma {:induction false} LongerIsLarger(a: string, b: string)
    requires AllDigits(a) && AllDigits(b) && |a| < |b| && b[0] != '0'
    ensures Value(a) < Value(b)
  {
    if a == "" {
      FirstDigitPositive(b);
    } else {
      LongerIsLarger(a[..|a| - 1], b[..|b| - 1]);
    }
  }

  lemma {:induction false} SameLengthByValue(a: string, b: string)
    requires AllDigits(a) && AllDigits(b) && |a| == |b|
    ensures Before(a, b) <==> Value(a) < Value(b)
    ensures a == b <==> Value(a) == Value(b)
  {
    if a != "" {
      var n := |a| - 1;
      SameLengthByValue(a[..n], b[..n]);
      BeforeLast(a[..n], a[n], b[..n], b[n]);
      assert a == a[..n] + [a[n]] && b == b[..n] + [b[n]];
    }
  }

  function Sign(n: int): int { if n < 0 then -1 else if n > 0 then 1 else 0 }

  /** Compares two digit strings without converting them: the result is the comparison of the naturals they
      denote. */
  method CompareNumeric(a: string, b: string) returns (r: int)
    requires AllDigits(a) && AllDigits(b)
    ensures r == Sign(Value(a) - Value(b))
  {
    hide Value;
    TrimKeepsValue(a);
    TrimKeepsValue(b);
    ZeroInFront("");
    var left, right := TrimLeftZeros(a), TrimLeftZeros(b);
    assert "0" + "" == "0";
    if left == "" {
      left := "0";
    }
    if right == "" {
      right := "0";
    }
    assert Value(left) == Value(a) && Value(right) == Value(b);
    if |left| < |right| {
      LongerIsLarger(left, right);
      return -1;
    }
    if |left| > |right| {
      LongerIsLarger(right, left);
      return 1;
    }
    SameLengthByValue(left, right);
    SameLengthByValue(right, left);
    if Before(left, right) {
      return -1;
    }
    if Before(right, left) {
      return 1;
    }
    BeforeTotal(left, right);
    return 0;
  }

  // ---------- identifiers ----------

  /** Items 11.4.1 to 11.4.3: numbers by value, words in ASCII order, numbers below words. */
  predicate IdentifierBelow(a: string, b: string) {
    if IsNumeric(a) && IsNumeric(b) then Value(a) < Value(b)
    else if IsNumeric(a) then true
    else if IsNumeric(b) then false
    else Before(a, b)
  }

  predicate SameIdentifier(a: string, b: string) {
    if IsNumeric(a) && IsNumeric(b) then Value(a) == Value(b) else a == b
  }

  lemma IdentifierTrichotomy(a: string, b: string)
    ensures !IdentifierBelow(a, a) && SameIdentifier(a, a)
    ensures SameIdentifier(a, b) <==> SameIdentifier(b, a)
    ensures IdentifierBelow(a, b) || IdentifierBelow(b, a) || SameIdentifier(a, b)
    ensures !(IdentifierBelow(a, b) && IdentifierBelow(b, a))
    ensures !(IdentifierBelow(a, b) && SameIdentifier(a, b))
  {
    BeforeTotal(a, b);
    BeforeAsymmetric(a, b);
    BeforeAsymmetric(a, a);
  }

  lemma IdentifierTransitive(a: string, b: string, c: string)
    ensures IdentifierBelow(a, b) && IdentifierBelow(b, c) ==> IdentifierBelow(a, c)
    ensures IdentifierBelow(a, b) && SameIdentifier(b, c) ==> IdentifierBelow(a, c)
    ensures SameIdentifier(a, b) && IdentifierBelow(b, c) ==> IdentifierBelow(a, c)
    ensures SameIdentifier(a, b) && SameIdentifier(b, c) ==> SameIdentifier(a, c)
  {
    if Before(a, b) && Before(b, c) {
      BeforeTransitive(a, b, c);
    }
  }

  // ---------- pre-release lists ----------

  ghost predicate Agree(p: seq<string>, q: seq<string>, k: nat)
    requires k <= |p| && k <= |q|
  {
    forall i :: 0 <= i < k ==> SameIdentifier(p[i], q[i])
  }

  /** The lists agree before k, and at k the first one is smaller or has ended. */
  ghost predicate BelowAt(p: seq<string>, q: seq<string>, k: nat) {
    && k <= |p| && k < |q| && Agree(p, q, k)
    && (k == |p| || IdentifierBelow(p[k], q[k]))
  }

  /** Items 11.3 and 11.4: any pre-release is below none; two are compared identifier by identifier, and when all
      agree the longer one is higher. */
  ghost predicate PrereleaseBelow(p: seq<string>, q: seq<string>) {
    if p == [] then false
    else if q == [] then true
    else exists k: nat :: BelowAt(p, q, k)
  }

  ghost predicate SamePrerelease(p: seq<string>, q: seq<string>) { |p| == |q| && Agree(p, q, |p|) }

  // ---------- versions ----------

  /** What Parse establishes for the core; the zero value of the type has it too. */
  predicate HasCore(v: Version) { AllDigits(v.major) && AllDigits(v.minor) && AllDigits(v.patch) }

  function CoreOf(v: Version): (nat, nat, nat)
    requires HasCore(v)
  {
    (Value(v.major), Value(v.minor), Value(v.patch))
  }

  predicate CoreBelow(a: (nat, nat, nat), b: (nat, nat, nat)) {
    a.0 < b.0 || (a.0 == b.0 && (a.1 < b.1 || (a.1 == b.1 && a.2 < b.2)))
  }

  /** Item 11. */
  ghost predicate Precedes(v: Version, w: Version)
    requires HasCore(v) && HasCore(w)
  {
    CoreBelow(CoreOf(v), CoreOf(w)) || (CoreOf(v) == CoreOf(w) && PrereleaseBelow(v.prerelease, w.prerelease))
  }

  ghost predicate SameRank(v: Version, w: Version)
    requires HasCore(v) && HasCore(w)
  {
    CoreOf(v) == CoreOf(w) && SamePrerelease(v.prerelease, w.prerelease)
  }

  // ---------- the order is a total preorder ----------

  lemma AgreeSymmetric(p: seq<string>, q: seq<string>, k: nat)
    requires k <= |p| && k <= |q| && Agree(p, q, k)
    ensures Agree(q, p, k)
  {
    hide IdentifierBelow, SameIdentifier;
    forall i | 0 <= i < k ensures SameIdentifier(q[i], p[i]) {
      IdentifierTrichotomy(p[i], q[i]);
    }
  }

  lemma BelowAtRefutes(p: seq<string>, q: seq<string>, k: nat, j: nat)
    requires BelowAt(p, q, k)
    ensures !BelowAt(q, p, j)
  {
    hide IdentifierBelow, SameIdentifier;
    if k < |p| {
      IdentifierTrichotomy(p[k], q[k]);
      IdentifierTrichotomy(q[k], p[k]);
    }
    if j < k {
      IdentifierTrichotomy(p[j], q[j]);
      IdentifierTrichotomy(q[j], p[j]);
    }
  }

  lemma SameRefutes(p: seq<string>, q: seq<string>, k: nat)
    requires BelowAt(p, q, k)
    ensures !SamePrerelease(p, q) && !SamePrerelease(q, p)
  {
    hide IdentifierBelow, SameIdentifier;
    if k < |p| {
      IdentifierTrichotomy(p[k], q[k]);
      IdentifierTrichotomy(q[k], p[k]);
    }
  }

  lemma {:induction false} PrereleaseDecided(p: seq<string>, q: seq<string>, k: nat) returns (j: nat)
    requires k <= |p| && k <= |q| && Agree(p, q, k)
    ensures BelowAt(p, q, j) || BelowAt(q, p, j) || SamePrerelease(p, q)
    decreases |p| - k
  {
    hide IdentifierBelow, SameIdentifier;
    AgreeSymmetric(p, q, k);
    j := k;
    if k < |p| && k < |q| {
      IdentifierTrichotomy(p[k], q[k]);
      if SameIdentifier(p[k], q[k]) {
        j := PrereleaseDecided(p, q, k + 1);
      }
    }
  }

  lemma BelowAtTransitive(p: seq<string>, q: seq<string>, r: seq<string>, k: nat, j: nat)
    requires BelowAt(p, q, k) && BelowAt(q, r, j)
    ensures BelowAt(p, r, if k < j then k else j)
  {
    hide IdentifierBelow, SameIdentifier;
    var i := if k < j then k else j;
    forall h | 0 <= h < i ensures SameIdentifier(p[h], r[h]) {
      IdentifierTransitive(p[h], q[h], r[h]);
    }
    if i < |p| {
      IdentifierTransitive(p[i], q[i], r[i]);
    }
  }

  /** Exactly one of below, above and same, for any two versions. */
  lemma Trichotomy(v: Version, w: Version)
    requires HasCore(v) && HasCore(w)
    ensures Precedes(v, w) || Precedes(w, v) || SameRank(v, w)
    ensures !(Precedes(v, w) && Precedes(w, v)) && !(Precedes(v, w) && SameRank(v, w))
            && !(Precedes(w, v) && SameRank(v, w))
  {
    PrereleaseTrichotomy(v.prerelease, w.prerelease);
    hide PrereleaseBelow, SamePrerelease;
  }

  lemma PrereleaseTrichotomy(p: seq<string>, q: seq<string>)
    ensures PrereleaseBelow(p, q) || PrereleaseBelow(q, p) || SamePrerelease(p, q)
    ensures !(PrereleaseBelow(p, q) && PrereleaseBelow(q, p))
    ensures !(PrereleaseBelow(p, q) && SamePrerelease(p, q)) && !(PrereleaseBelow(q, p) && SamePrerelease(p, q))
  {
    hide BelowAt, SamePrerelease;
    forall k: nat, j: nat | BelowAt(p, q, k) ensures !BelowAt(q, p, j) { BelowAtRefutes(p, q, k, j); }
    forall k: nat | BelowAt(p, q, k) ensures !SamePrerelease(p, q) { SameRefutes(p, q, k); }
    forall k: nat | BelowAt(q, p, k) ensures !SamePrerelease(p, q) { SameRefutes(q, p, k); }
    var j := PrereleaseDecided(p, q, 0);
    EmptyLists(p, q);
  }

  lemma EmptyLists(p: seq<string>, q: seq<string>)
    ensures p == [] ==> (SamePrerelease(p, q) <==> q == [])
    ensures q == [] ==> (SamePrerelease(p, q) <==> p == [])
  {
  }

  lemma Transitive(u: Version, v: Version, w: Version)
    requires HasCore(u) && HasCore(v) && HasCore(w) && Precedes(u, v) && Precedes(v, w)
    ensures Precedes(u, w)
  {
    if CoreOf(u) == CoreOf(v) == CoreOf(w) {
      PrereleaseTransitive(u.prerelease, v.prerelease, w.prerelease);
    }
  }

  lemma PrereleaseTransitive(p: seq<string>, q: seq<string>, r: seq<string>)
    requires PrereleaseBelow(p, q) && PrereleaseBelow(q, r)
    ensures PrereleaseBelow(p, r)
  {
    hide BelowAt;
    if r != [] {
      var k: nat :| BelowAt(p, q, k);
      var j: nat :| BelowAt(q, r, j);
      BelowAtTransitive(p, q, r, k, j);
    }
  }

  /** Versions of the same rank are interchangeable in the order, which makes it a total preorder. */
  lemma SameRankCongruent(u: Version, v: Version, w: Version)
    requires HasCore(u) && HasCore(v) && HasCore(w) && SameRank(u, v)
    ensures SameRank(v, u) && SameRank(u, u)
    ensures SameRank(v, w) ==> SameRank(u, w)
    ensures Precedes(v, w) ==> Precedes(u, w)
    ensures Precedes(w, v) ==> Precedes(w, u)
  {
    hide IdentifierBelow, SameIdentifier;
    var p, q, r := u.prerelease, v.prerelease, w.prerelease;
    AgreeSymmetric(p, q, |p|);
    SameThen(p, q, r);
    forall i | 0 <= i < |p| ensures SameIdentifier(p[i], p[i]) { IdentifierTrichotomy(p[i], p[i]); }
  }

  lemma SameThen(p: seq<string>, q: seq<string>, r: seq<string>)
    requires SamePrerelease(p, q)
    ensures SamePrerelease(q, r) ==> SamePrerelease(p, r)
    ensures PrereleaseBelow(q, r) ==> PrereleaseBelow(p, r)
    ensures PrereleaseBelow(r, q) ==> PrereleaseBelow(r, p)
  {
    hide IdentifierBelow, SameIdentifier;
    AgreeSymmetric(p, q, |p|);
    forall i | 0 <= i < |p| && i < |r|
      ensures SameIdentifier(q[i], r[i]) ==> SameIdentifier(p[i], r[i])
      ensures IdentifierBelow(q[i], r[i]) ==> IdentifierBelow(p[i], r[i])
      ensures SameIdentifier(r[i], q[i]) ==> SameIdentifier(r[i], p[i])
      ensures IdentifierBelow(r[i], q[i]) ==> IdentifierBelow(r[i], p[i])
    {
      IdentifierTransitive(p[i], q[i], r[i]);
      IdentifierTransitive(r[i], q[i], p[i]);
    }
    if p != [] && r != [] {
      if PrereleaseBelow(q, r) {
        var k: nat :| BelowAt(q, r, k);
        assert BelowAt(p, r, k);
      }
      if PrereleaseBelow(r, q) {
        var k: nat :| BelowAt(r, q, k);
        assert BelowAt(r, p, k);
      }
    }
  }

  // ---------- the comparison ----------

  /** The sign of item 11: -1 below, 1 above, 0 for the same rank. */
  ghost function Rank(v: Version, w: Version): int
    requires HasCore(v) && HasCore(w)
  {
    if Precedes(v, w) then -1 else if Precedes(w, v) then 1 else 0
  }

  /** The comparison is a total preorder: reflexive, antisymmetric in sign, transitive - strictly so when either
      step is strict. */
  lemma TotalPreorder(u: Version, v: Version, w: Version)
    requires HasCore(u) && HasCore(v) && HasCore(w)
    ensures Rank(u, u) == 0 && Rank(v, u) == -Rank(u, v)
    ensures Rank(u, v) <= 0 && Rank(v, w) <= 0 ==> Rank(u, w) <= 0
    ensures Rank(u, v) <= 0 && Rank(v, w) <= 0 && Rank(u, w) == 0 ==> Rank(u, v) == Rank(v, w) == 0
  {
    hide Precedes, SameRank;
    Trichotomy(u, u);
    Trichotomy(u, v);
    Trichotomy(v, w);
    Trichotomy(u, w);
    if SameRank(u, v) {
      SameRankCongruent(u, v, w);
    } else if SameRank(v, w) {
      SameRankCongruent(v, w, u);
      SameRankCongruent(w, v, u);
    } else if Precedes(u, v) && Precedes(v, w) {
      Transitive(u, v, w);
    }
  }

  /** The comparison itself decides item 11. */
  method Compare(v: Version, w: Version) returns (r: int)
    requires HasCore(v) && HasCore(w)
    ensures r == Rank(v, w)
    ensures r == 0 <==> SameRank(v, w)
  {
    Trichotomy(v, w);
    var pairs := [(v.major, w.major), (v.minor, w.minor), (v.patch, w.patch)];
    for i := 0 to 3
      invariant i > 0 ==> Value(v.major) == Value(w.major)
      invariant i > 1 ==> Value(v.minor) == Value(w.minor)
      invariant i > 2 ==> Value(v.patch) == Value(w.patch)
    {
      hide Value;
      var comparison := CompareNumeric(pairs[i].0, pairs[i].1);
      if comparison != 0 {
        return comparison;
      }
    }
    assert CoreOf(v) == CoreOf(w);
    r := ComparePrerelease(v.prerelease, w.prerelease);
  }

  method ComparePrerelease(p: seq<string>, q: seq<string>) returns (r: int)
    ensures r < 0 <==> PrereleaseBelow(p, q)
    ensures r > 0 <==> PrereleaseBelow(q, p)
    ensures r == 0 <==> SamePrerelease(p, q)
    ensures -1 <= r <= 1
  {
    hide IdentifierBelow, SameIdentifier;
    PrereleaseTrichotomy(p, q);
    if |p| == 0 && |q| == 0 {
      return 0;
    }
    if |p| == 0 {
      return 1;
    }
    if |q| == 0 {
      return -1;
    }
    var count := if |p| <= |q| then |p| else |q|;
    for k := 0 to count
      invariant Agree(p, q, k)
    {
      AgreeSymmetric(p, q, k);
      var order := CompareIdentifier(p[k], q[k]);
      if order < 0 {
        assert BelowAt(p, q, k);
        return -1;
      }
      if order > 0 {
        assert BelowAt(q, p, k);
        return 1;
      }
    }
    AgreeSymmetric(p, q, count);
    if |p| < |q| {
      assert BelowAt(p, q, count);
      return -1;
    }
    if |p| > |q| {
      assert BelowAt(q, p, count);
      return 1;
    }
    return 0;
  }

  /** One round of the loop over identifiers. */
  method CompareIdentifier(left: string, right: string) returns (r: int)
    ensures r < 0 <==> IdentifierBelow(left, right)
    ensures r > 0 <==> IdentifierBelow(right, left)
    ensures r == 0 <==> SameIdentifier(left, right)
  {
    IdentifierTrichotomy(left, right);
    var leftNumeric := Numeric(left);
    var rightNumeric := Numeric(right);
    if leftNumeric && rightNumeric {
      r := CompareNumeric(left, right);
    } else if leftNumeric {
      r := -1;
    } else if rightNumeric {
      r := 1;
    } else if Before(left, right) {
      r := -1;
    } else if Before(right, left) {
      r := 1;
    } else {
      r := 0;
    }
  }

  // ---------- parsed versions ----------

  lemma SameNumber(a: string, b: string)
    requires IsNumeric(a) && IsNumeric(b) && !HasLeadingZero(a) && !HasLeadingZero(b) && Value(a) == Value(b)
    ensures a == b
  {
    CoreNumbersAreNaturals(a);
    CoreNumbersAreNaturals(b);
  }

  /** Between accepted versions a comparison of 0 means that core and pre-release are identical, and only then;
      build metadata never counts. */
  lemma SameRankIsEquality(s: string, t: string)
    requires Parse(s).Some? && Parse(t).Some?
    ensures HasCore(Parse(s).value) && HasCore(Parse(t).value)
    ensures SameRank(Parse(s).value, Parse(t).value) <==> Parse(s).value == Parse(t).value
  {
    var r1 := AcceptsOnlyPrinted(s);
    var r2 := AcceptsOnlyPrinted(t);
    var v, w := Parse(s).value, Parse(t).value;
    hide Parse, Printed, Decimal, Value, SameIdentifier, IdentifierBelow, IsNumeric, HasLeadingZero;
    ValuesOf(r1);
    ValuesOf(r2);
    if SameRank(v, w) {
      forall i | 0 <= i < |v.prerelease| ensures v.prerelease[i] == w.prerelease[i] {
        SameWord(v.prerelease[i], w.prerelease[i]);
      }
    }
    SameRankReflexive(v);
  }

  lemma ValuesOf(r: Release)
    ensures HasCore(VersionOf(r)) && CoreOf(VersionOf(r)) == (r.major, r.minor, r.patch)
  {
    ValueOfDecimal(r.major);
    ValueOfDecimal(r.minor);
    ValueOfDecimal(r.patch);
  }

  lemma SameWord(a: string, b: string)
    requires SameIdentifier(a, b) && !HasLeadingZero(a) && !HasLeadingZero(b)
    ensures a == b
  {
    if IsNumeric(a) && IsNumeric(b) {
      SameNumber(a, b);
    }
  }

  lemma SameRankReflexive(v: Version)
    requires HasCore(v)
    ensures SameRank(v, v)
  {
  }

  /** For releases as they are printed, precedence is decided by the naturals and identifiers themselves. */
  lemma PrecedenceOfPrinted(r1: Release, r2: Release)
    requires Proper(r1) && Proper(r2)
    ensures Parse(Printed(r1)) == Some(VersionOf(r1)) && Parse(Printed(r2)) == Some(VersionOf(r2))
    ensures HasCore(VersionOf(r1)) && HasCore(VersionOf(r2))
    ensures Precedes(VersionOf(r1), VersionOf(r2)) <==>
            var a, b := (r1.major, r1.minor, r1.patch), (r2.major, r2.minor, r2.patch);
            || a.0 < b.0 || (a.0 == b.0 && a.1 < b.1) || (a.0 == b.0 && a.1 == b.1 && a.2 < b.2)
            || (a == b && PrereleaseBelow(r1.pre, r2.pre))
  {
    Recovers(r1);
    Recovers(r2);
    ValuesOf(r1);
    ValuesOf(r2);
  }

  // ---------- the laws of pre-releases ----------

  lemma {:induction false} WordsByFirstDifference(s: string, c: char, d: char, u: string, v: string)
    requires c < d
    ensures Before(s + [c] + u, s + [d] + v) && Before(s, s + [c] + u)
  {
    var a, b := s + [c] + u, s + [d] + v;
    if s != "" {
      WordsByFirstDifference(s[1..], c, d, u, v);
      assert a[1..] == s[1..] + [c] + u && b[1..] == s[1..] + [d] + v;
    }
  }

  lemma AgreeWithSelf(p: seq<string>, q: seq<string>, r: seq<string>)
    requires p <= q && p <= r
    ensures Agree(q, r, |p|)
  {
    hide IdentifierBelow, SameIdentifier;
    forall i | 0 <= i < |p| ensures SameIdentifier(q[i], r[i]) {
      assert q[i] == p[i] == r[i];
      IdentifierTrichotomy(p[i], p[i]);
    }
  }

  lemma DifferAfter(p: seq<string>, a: string, b: string, x: seq<string>, y: seq<string>)
    requires IdentifierBelow(a, b)
    ensures PrereleaseBelow(p + [a] + x, p + [b] + y)
  {
    var q, r := p + [a] + x, p + [b] + y;
    AgreeWithSelf(p, q, r);
    hide IdentifierBelow, SameIdentifier;
    assert BelowAt(q, r, |p|);
  }

  /** After any common beginning p and with anything behind: a smaller number is below a larger one, as naturals of
      any size; a number is below whatever is not one. */
  lemma NumbersBelow(p: seq<string>, m: nat, n: nat, word: string, x: seq<string>, y: seq<string>)
    requires !AllDigits(word)
    ensures m < n ==> PrereleaseBelow(p + [Decimal(m)] + x, p + [Decimal(n)] + y)
    ensures PrereleaseBelow(p + [Decimal(m)] + x, p + [word] + y)
  {
    ValueOfDecimal(m);
    ValueOfDecimal(n);
    hide Decimal, Value;
    assert IdentifierBelow(Decimal(m), word);
    DifferAfter(p, Decimal(m), word, x, y);
    if m < n {
      assert IdentifierBelow(Decimal(m), Decimal(n));
      DifferAfter(p, Decimal(m), Decimal(n), x, y);
    }
  }

  /** Two words are in the order of their first different character, or the shorter one first. */
  lemma WordsBelow(p: seq<string>, s: string, c: char, d: char, u: string, v: string, x: seq<string>, y: seq<string>)
    requires c < d && !AllDigits(s + [c] + u)
    ensures !AllDigits(s + [d] + v) ==> PrereleaseBelow(p + [s + [c] + u] + x, p + [s + [d] + v] + y)
    ensures !AllDigits(s) ==> PrereleaseBelow(p + [s] + x, p + [s + [c] + u] + y)
  {
    WordsByFirstDifference(s, c, d, u, v);
    hide Before;
    if !AllDigits(s + [d] + v) {
      DifferAfter(p, s + [c] + u, s + [d] + v, x, y);
    }
    if !AllDigits(s) {
      DifferAfter(p, s, s + [c] + u, x, y);
    }
  }

  /** A list is below every longer one that begins with it, and any list is below none at all. */
  lemma LongerIsHigher(p: seq<string>, a: string, x: seq<string>)
    requires p != []
    ensures PrereleaseBelow(p, p + [a] + x) && PrereleaseBelow(p, [])
  {
    AgreeWithSelf(p, p, p + [a] + x);
    hide IdentifierBelow, SameIdentifier;
    assert BelowAt(p, p + [a] + x, |p|);
  }
}
