/** Parsing Semantic Versioning 2.0.0: what is accepted is exactly the language of items 2, 9 and 10. */
module SemVer {
  import opened Basics
  import opened Numerals
  import opened Text

  /** Build metadata is checked and forgotten. */
  datatype Version = Version(major: string, minor: string, patch: string, prerelease: seq<string>)

  // ---------- recognisers ----------

  predicate IsNumeric(s: string) { s != "" && AllDigits(s) }

  /** Above ASCII every character is refused, whether or not Unicode calls it a letter or a digit. */
  predicate IsIdentifierChar(c: char) { IsDigit(c) || 'a' <= c <= 'z' || 'A' <= c <= 'Z' || c == '-' }

  predicate IsIdentifier(s: string) { s != "" && forall i :: 0 <= i < |s| ==> IsIdentifierChar(s[i]) }

  predicate HasLeadingZero(s: string) { IsNumeric(s) && |s| > 1 && s[0] == '0' }

  predicate IsBuildList(parts: seq<string>) { forall i :: 0 <= i < |parts| ==> IsIdentifier(parts[i]) }

  predicate IsPrereleaseList(parts: seq<string>) {
    IsBuildList(parts) && forall i :: 0 <= i < |parts| ==> !HasLeadingZero(parts[i])
  }

  predicate AreIdentifiers(value: string, prerelease: bool) {
    if prerelease then IsPrereleaseList(Split(value, '.')) else IsBuildList(Split(value, '.'))
  }

  /** The scan for decimal digits. */
  method Numeric(value: string) returns (ok: bool)
    ensures ok == IsNumeric(value)
  {
    if value == "" {
      return false;
    }
    for i := 0 to |value|
      invariant AllDigits(value[..i])
    {
      var character := value[i];
      if character < '0' || character > '9' {
        assert !IsDigit(value[i]);
        return false;
      }
      assert value[..i + 1] == value[..i] + [character];
    }
    assert value[..|value|] == value;
    return true;
  }

  /** The scan of one identifier. */
  method IdentifierChars(identifier: string) returns (ok: bool)
    ensures ok <==> forall i :: 0 <= i < |identifier| ==> IsIdentifierChar(identifier[i])
    ensures ok <==> forall i :: 0 <= i < |identifier| ==>
                      var c := identifier[i]; '0' <= c <= '9' || 'a' <= c <= 'z' || 'A' <= c <= 'Z' || c == '-'
  {
    for i := 0 to |identifier|
      invariant forall j :: 0 <= j < i ==> IsIdentifierChar(identifier[j])
    {
      if !IsIdentifierChar(identifier[i]) {
        return false;
      }
    }
    return true;
  }

  method ValidIdentifiers(value: string, prerelease: bool) returns (ok: bool)
    ensures ok == AreIdentifiers(value, prerelease)
  {
    var identifiers := Split(value, '.');
    if value == "" {
      assert identifiers[0] == "";
      return false;
    }
    for i := 0 to |identifiers|
      invariant IsBuildList(identifiers[..i])
      invariant prerelease ==> IsPrereleaseList(identifiers[..i])
    {
      var identifier := identifiers[i];
      var digits := Numeric(identifier);
      if identifier == "" || (prerelease && digits && |identifier| > 1 && identifier[0] == '0') {
        assert !IsIdentifier(identifiers[i]) || HasLeadingZero(identifiers[i]);
        return false;
      }
      var chars := IdentifierChars(identifier);
      if !chars {
        assert !IsIdentifier(identifiers[i]);
        return false;
      }
      assert identifiers[..i + 1] == identifiers[..i] + [identifier];
    }
    assert identifiers[..|identifiers|] == identifiers;
    return true;
  }

  predicate ValidCoreNumber(value: string) { IsNumeric(value) && (value == "0" || value[0] != '0') }

  function Parse(value: string): (r: Option<Version>) {
    if value == "" || TrimSpace(value) != value then None
    else
      var build := Cut(value, '+');
      if build.found && !AreIdentifiers(build.after, false) then None
      else
        var pre := Cut(build.before, '-');
        if pre.found && !AreIdentifiers(pre.after, true) then None
        else
          var parts := Split(pre.before, '.');
          if |parts| != 3 || !ValidCoreNumber(parts[0]) || !ValidCoreNumber(parts[1]) || !ValidCoreNumber(parts[2])
          then None
          else Some(Version(parts[0], parts[1], parts[2], if pre.found then Split(pre.after, '.') else []))
  }

  /** One leading v is dropped from what a command prints. */
  function ParseCommandOutput(value: string): (r: Option<Version>) {
    Parse(if value != "" && value[0] == 'v' then value[1..] else value)
  }

  // ---------- the language of the standard ----------

  /** Items 2, 9 and 10: three naturals, a possibly empty list of pre-release identifiers and one of build
      identifiers. */
  datatype Release = Release(major: nat, minor: nat, patch: nat, pre: seq<string>, build: seq<string>)

  ghost predicate Proper(r: Release) { IsPrereleaseList(r.pre) && IsBuildList(r.build) }

  function Core(r: Release): string { Decimal(r.major) + "." + Decimal(r.minor) + "." + Decimal(r.patch) }

  function Tail(mark: char, parts: seq<string>): string { if parts == [] then "" else [mark] + Join(parts, '.') }

  function Printed(r: Release): string { Core(r) + Tail('-', r.pre) + Tail('+', r.build) }

  function VersionOf(r: Release): Version { Version(Decimal(r.major), Decimal(r.minor), Decimal(r.patch), r.pre) }

  /** Core numbers are exactly the naturals as they are printed. */
  lemma {:induction false} CoreNumbersAreNaturals(s: string)
    ensures ValidCoreNumber(s) <==> AllDigits(s) && s == Decimal(Value(s))
    decreases |s|
  {
    if IsNumeric(s) {
      var init := s[..|s| - 1];
      if |s| == 1 {
        assert init == "";
        assert s == [s[0]];
      } else {
        CoreNumbersAreNaturals(init);
        assert s == init + [s[|s| - 1]];
        if s[0] == '0' {
          LeadingZeroDecimal(s);
        } else {
          FirstDigitPositive(init);
        }
      }
    }
  }

  /** What the two lists admit, spelled out: non-empty parts of letters, digits and hyphens; in a pre-release a part
      of digits only is a natural as it is printed. */
  lemma ListsAdmit(parts: seq<string>)
    ensures IsBuildList(parts) <==>
            forall i :: 0 <= i < |parts| ==>
              parts[i] != "" && forall j :: 0 <= j < |parts[i]| ==>
                var c := parts[i][j]; '0' <= c <= '9' || 'a' <= c <= 'z' || 'A' <= c <= 'Z' || c == '-'
    ensures IsPrereleaseList(parts) <==>
            && IsBuildList(parts)
            && forall i :: 0 <= i < |parts| && AllDigits(parts[i]) ==> parts[i] == Decimal(Value(parts[i]))
  {
    hide Decimal, Value;
    forall i | 0 <= i < |parts| && parts[i] != "" && AllDigits(parts[i])
      ensures parts[i] == Decimal(Value(parts[i])) <==> !HasLeadingZero(parts[i])
    {
      CoreNumbersAreNaturals(parts[i]);
      if parts[i][0] == '0' && |parts[i]| > 1 {
        LeadingZeroDecimal(parts[i]);
      } else {
        assert ValidCoreNumber(parts[i]) by { assert |parts[i]| == 1 && parts[i][0] == '0' ==> parts[i] == "0"; }
      }
    }
  }

  /** A nonzero first digit makes a positive number. */
  lemma {:induction false} FirstDigitPositive(s: string)
    requires IsNumeric(s) && s[0] != '0'
    ensures Value(s) > 0
    decreases |s|
  {
    if |s| > 1 {
      FirstDigitPositive(s[..|s| - 1]);
    }
  }

  /** No natural of more than one digit is printed with a leading zero. */
  lemma {:induction false} DecimalStarts(n: nat)
    ensures Decimal(n)[0] == '0' <==> n == 0
  {
    if n >= 10 {
      DecimalStarts(n / 10);
    }
  }

  lemma LeadingZeroDecimal(s: string)
    requires IsNumeric(s) && |s| > 1 && s[0] == '0'
    ensures s != Decimal(Value(s))
  {
    DecimalStarts(Value(s));
  }

  lemma JoinedChars(parts: seq<string>, c: char)
    requires parts != [] && IsBuildList(parts) && c in Join(parts, '.')
    ensures c == '.' || IsIdentifierChar(c)
  {
    if |parts| > 1 && c !in parts[0] && c != '.' {
      JoinedChars(parts[1..], c);
    }
  }

  lemma JoinRoundTrip(parts: seq<string>)
    requires parts != [] && IsBuildList(parts)
    ensures Split(Join(parts, '.'), '.') == parts && '+' !in Join(parts, '.') && Join(parts, '.') != ""
  {
    assert AllWithout(parts, '.');
    SplitOfJoin(parts, '.');
    if '+' in Join(parts, '.') { JoinedChars(parts, '+'); }
    assert Split("", '.')[0] == "" != parts[0];
  }

  lemma CoreSplits(r: Release)
    ensures Split(Core(r), '.') == [Decimal(r.major), Decimal(r.minor), Decimal(r.patch)]
    ensures '-' !in Core(r) && '+' !in Core(r)
  {
    var parts := [Decimal(r.major), Decimal(r.minor), Decimal(r.patch)];
    assert Join(parts[1..][1..], '.') == Decimal(r.patch);
    assert Join(parts[1..], '.') == Decimal(r.minor) + "." + Decimal(r.patch);
    assert Join(parts, '.') == Core(r);
    assert AllWithout(parts, '.');
    SplitOfJoin(parts, '.');
  }

  lemma Visible(c: char)
    requires '!' <= c <= '~'
    ensures !IsSpace(c)
  {
  }

  lemma PrintedVisible(r: Release, c: char)
    requires Proper(r) && c in Printed(r)
    ensures !IsSpace(c)
  {
    hide IsSpace;
    if c in Core(r) {
      CoreVisible(r, c);
    } else if c in Tail('-', r.pre) {
      TailVisible('-', r.pre, c);
    } else {
      TailVisible('+', r.build, c);
    }
    Visible(c);
  }

  lemma CoreVisible(r: Release, c: char)
    requires c in Core(r)
    ensures IsDigit(c) || c == '.'
  {
    if c != '.' {
      assert c in Decimal(r.major) || c in Decimal(r.minor) || c in Decimal(r.patch);
    }
  }

  lemma TailVisible(mark: char, parts: seq<string>, c: char)
    requires IsBuildList(parts) && c in Tail(mark, parts)
    ensures c == mark || IsIdentifierChar(c) || c == '.'
  {
    if c != mark {
      JoinedChars(parts, c);
    }
  }

  lemma PrintedTrimmed(r: Release)
    requires Proper(r)
    ensures Printed(r) != "" && TrimSpace(Printed(r)) == Printed(r)
  {
    var s := Printed(r);
    assert s[0] in s && s[|s| - 1] in s;
    PrintedVisible(r, s[0]);
    PrintedVisible(r, s[|s| - 1]);
    TrimShortens(s);
  }

  /** Cutting off an optional tail gives back its identifiers. */
  lemma CutTail(front: string, mark: char, parts: seq<string>)
    requires mark !in front && IsBuildList(parts)
    ensures var c := Cut(front + Tail(mark, parts), mark);
            c.before == front && (c.found <==> parts != []) && (c.found ==> Split(c.after, '.') == parts)
  {
    if parts == [] {
      CutFinds(front, mark, "");
      assert front + "" == front;
    } else {
      JoinRoundTrip(parts);
      CutFinds(front, mark, Join(parts, '.'));
      assert front + [mark] + Join(parts, '.') == front + Tail(mark, parts);
    }
  }

  /** Every printed release is accepted, with or without build metadata, and gives back its core and pre-release
      fields. */
  lemma Recovers(r: Release)
    requires Proper(r)
    ensures Parse(Printed(r)) == Some(VersionOf(r))
  {
    hide TrimSpace, Cut, Split, Decimal;
    PrintedTrimmed(r);
    CoreSplits(r);
    var front := Core(r) + Tail('-', r.pre);
    assert '+' !in front by {
      if '+' in Tail('-', r.pre) { TailVisible('-', r.pre, '+'); }
    }
    CutTail(front, '+', r.build);
    CutTail(Core(r), '-', r.pre);
    CoreValid(r.major);
    CoreValid(r.minor);
    CoreValid(r.patch);
  }

  lemma CoreValid(n: nat)
    ensures ValidCoreNumber(Decimal(n))
  {
    ValueOfDecimal(n);
    CoreNumbersAreNaturals(Decimal(n));
  }

  lemma TailRestores(s: string, mark: char)
    ensures var c := Cut(s, mark);
            s == c.before + Tail(mark, if c.found then Split(c.after, '.') else [])
  {
    CutRestores(s, mark);
    var c := Cut(s, mark);
    if c.found {
      JoinOfSplit(c.after, '.');
    } else {
      assert c.before + "" == c.before;
    }
  }

  lemma CoreRestores(s: string, parts: seq<string>)
    requires Split(s, '.') == parts && |parts| == 3
    requires ValidCoreNumber(parts[0]) && ValidCoreNumber(parts[1]) && ValidCoreNumber(parts[2])
    ensures s == Decimal(Value(parts[0])) + "." + Decimal(Value(parts[1])) + "." + Decimal(Value(parts[2]))
    ensures Decimal(Value(parts[0])) == parts[0] && Decimal(Value(parts[1])) == parts[1]
    ensures Decimal(Value(parts[2])) == parts[2]
  {
    CoreNumbersAreNaturals(parts[0]);
    CoreNumbersAreNaturals(parts[1]);
    CoreNumbersAreNaturals(parts[2]);
    JoinOfSplit(s, '.');
    JoinThree(parts);
  }

  /** Nothing else is accepted. */
  lemma AcceptsOnlyPrinted(value: string) returns (r: Release)
    requires Parse(value).Some?
    ensures Proper(r) && Printed(r) == value && VersionOf(r) == Parse(value).value
  {
    hide TrimSpace, Cut, Decimal, Split, Tail, Value, IsPrereleaseList, IsBuildList;
    var build := Cut(value, '+');
    var pre := Cut(build.before, '-');
    var parts := Split(pre.before, '.');
    CoreRestores(pre.before, parts);
    r := Release(Value(parts[0]), Value(parts[1]), Value(parts[2]),
                 if pre.found then Split(pre.after, '.') else [], if build.found then Split(build.after, '.') else []);
    TailRestores(build.before, '-');
    TailRestores(value, '+');
    NoIdentifiers();
  }

  lemma NoIdentifiers()
    ensures IsPrereleaseList([]) && IsBuildList([])
  {
  }

  lemma JoinThree(parts: seq<string>)
    requires |parts| == 3
    ensures Join(parts, '.') == parts[0] + "." + parts[1] + "." + parts[2]
  {
    assert parts[1..][1..] == [parts[2]];
    assert Join(parts[1..], '.') == parts[1] + "." + parts[2];
  }

  ghost predicate InLanguage(value: string) { exists r: Release :: Proper(r) && Printed(r) == value }

  /** Parse accepts exactly the language of items 2, 9 and 10. */
  lemma ParseLanguage(value: string)
    ensures Parse(value).Some? <==> InLanguage(value)
  {
    hide Parse, Printed, Proper;
    if Parse(value).Some? {
      var r := AcceptsOnlyPrinted(value);
    }
    if InLanguage(value) {
      var r: Release :| Proper(r) && Printed(r) == value;
      Recovers(r);
    }
  }

  /** From the output of a command the same language is accepted, with or without one leading v; a value is never
      read both ways. */
  lemma CommandLanguage(value: string)
    ensures InLanguage(value) ==> ParseCommandOutput(value) == Parse(value)
    ensures InLanguage(value) ==> ParseCommandOutput("v" + value) == Parse(value)
    ensures ParseCommandOutput(value).Some? <==>
            InLanguage(value) || (value != "" && value[0] == 'v' && InLanguage(value[1..]))
  {
    assert ("v" + value)[1..] == value;
    if value != "" {
      ParseLanguage(value[1..]);
    }
    ParseLanguage(value);
    if InLanguage(value) {
      var r: Release :| Proper(r) && Printed(r) == value;
      assert Printed(r)[0] == Decimal(r.major)[0];
      assert IsDigit(Decimal(r.major)[0]);
    }
  }
}
