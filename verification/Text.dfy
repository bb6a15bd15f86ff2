/** The string operations that version parsing rests on. */
module Text {

  /** Byte order of strings: at the first difference the smaller character decides, and a proper prefix comes
      first. */
  predicate Before(a: string, b: string) {
    b != "" && (a == "" || a[0] < b[0] || (a[0] == b[0] && Before(a[1..], b[1..])))
  }

  lemma {:induction false} BeforeTotal(a: string, b: string)
    ensures Before(a, b) || Before(b, a) || a == b
  {
    if a != "" && b != "" && a[0] == b[0] {
      BeforeTotal(a[1..], b[1..]);
      assert a == [a[0]] + a[1..] && b == [b[0]] + b[1..];
    }
  }

  lemma {:induction false} BeforeAsymmetric(a: string, b: string)
    ensures !(Before(a, b) && Before(b, a)) && !Before(a, a)
  {
    if a != "" {
      BeforeAsymmetric(a[1..], if b == "" then "" else b[1..]);
    }
  }

  lemma {:induction false} BeforeTransitive(a: string, b: string, c: string)
    requires Before(a, b) && Before(b, c)
    ensures Before(a, c)
  {
    if a != "" && a[0] == b[0] == c[0] {
      BeforeTransitive(a[1..], b[1..], c[1..]);
    }
  }

  /** Between strings of one length the last character decides only when everything before it agrees. */
  lemma {:induction false} BeforeLast(a: string, x: char, b: string, y: char)
    requires |a| == |b|
    ensures Before(a + [x], b + [y]) <==> Before(a, b) || (a == b && x < y)
  {
    if a == "" {
      assert a + [x] == [x] && b + [y] == [y];
    } else {
      BeforeLast(a[1..], x, b[1..], y);
      assert (a + [x])[1..] == a[1..] + [x] && (b + [y])[1..] == b[1..] + [y];
      assert a == b <==> a[0] == b[0] && a[1..] == b[1..] by {
        assert a == [a[0]] + a[1..] && b == [b[0]] + b[1..];
      }
    }
  }

  // ---------- cutting at the first separator ----------

  datatype Cuts = Cuts(before: string, after: string, found: bool)

  function Cut(s: string, sep: char): Cuts {
    if s == "" then Cuts("", "", false)
    else if s[0] == sep then Cuts("", s[1..], true)
    else var rest := Cut(s[1..], sep); Cuts([s[0]] + rest.before, rest.after, rest.found)
  }

  ghost predicate IsCut(s: string, sep: char, c: Cuts) {
    && sep !in c.before && (c.found <==> sep in s)
    && s == if c.found then c.before + [sep] + c.after else c.before
  }

  lemma CutFurther(first: char, s: string, sep: char, rest: Cuts)
    requires first != sep && IsCut(s, sep, rest)
    ensures IsCut([first] + s, sep, Cuts([first] + rest.before, rest.after, rest.found))
  {
    assert [first] + (rest.before + [sep] + rest.after) == [first] + rest.before + [sep] + rest.after;
  }

  /** A cut loses nothing: with the separator put back it is the string, and it is at the first separator. */
  lemma {:induction false} CutRestores(s: string, sep: char)
    ensures var c := Cut(s, sep);
            && sep !in c.before && (c.found <==> sep in s)
            && s == if c.found then c.before + [sep] + c.after else c.before
  {
    if s != "" && s[0] != sep {
      CutRestores(s[1..], sep);
      CutFurther(s[0], s[1..], sep, Cut(s[1..], sep));
      assert s == [s[0]] + s[1..];
    }
  }

  lemma {:induction false} CutFinds(before: string, sep: char, after: string)
    requires sep !in before
    ensures Cut(before + [sep] + after, sep) == Cuts(before, after, true)
    ensures Cut(before, sep) == Cuts(before, "", false)
  {
    var s := before + [sep] + after;
    if before == "" {
      assert s[1..] == after;
    } else {
      CutFinds(before[1..], sep, after);
      assert before[0] != sep;
      assert s[1..] == before[1..] + [sep] + after;
      assert before == [before[0]] + before[1..];
    }
  }

  // ---------- splitting at every separator ----------

  function Split(s: string, sep: char): (parts: seq<string>)
    ensures parts != []
    decreases |s|
  {
    var c := Cut(s, sep);
    if !c.found then [s] else
      CutRestores(s, sep);
      [c.before] + Split(c.after, sep)
  }

  function Join(parts: seq<string>, sep: char): string
    requires parts != []
  {
    if |parts| == 1 then parts[0] else parts[0] + [sep] + Join(parts[1..], sep)
  }

  predicate AllWithout(parts: seq<string>, sep: char) { forall i :: 0 <= i < |parts| ==> sep !in parts[i] }

  lemma {:induction false} JoinOfSplit(s: string, sep: char)
    ensures Join(Split(s, sep), sep) == s && AllWithout(Split(s, sep), sep)
    decreases |s|
  {
    CutRestores(s, sep);
    var c := Cut(s, sep);
    if c.found {
      JoinOfSplit(c.after, sep);
      assert Split(s, sep)[1..] == Split(c.after, sep);
    }
  }

  lemma {:induction false} SplitOfJoin(parts: seq<string>, sep: char)
    requires parts != [] && AllWithout(parts, sep)
    ensures Split(Join(parts, sep), sep) == parts
    decreases |parts|
  {
    if |parts| == 1 {
      CutFinds(parts[0], sep, "");
      assert parts == [parts[0]];
    } else {
      SplitOfJoin(parts[1..], sep);
      CutFinds(parts[0], sep, Join(parts[1..], sep));
      assert parts == [parts[0]] + parts[1..];
    }
  }

  // ---------- white space ----------

  const SPACES: string :=
    "\t\n\U{000B}\U{000C}\r \U{0085}\U{00A0}\U{1680}\U{2028}\U{2029}\U{202F}\U{205F}\U{3000}"

  /** The white space of Unicode. */
  predicate IsSpace(c: char) { c in SPACES || '\U{2000}' <= c <= '\U{200A}' }

  function TrimSpace(s: string): string
    decreases |s|
  {
    if s == "" then s
    else if IsSpace(s[0]) then TrimSpace(s[1..])
    else if IsSpace(s[|s| - 1]) then TrimSpace(s[..|s| - 1])
    else s
  }

  lemma TrimShortens(s: string)
    ensures |TrimSpace(s)| <= |s|
    ensures TrimSpace(s) == s <==> s == "" || (!IsSpace(s[0]) && !IsSpace(s[|s| - 1]))
    decreases |s|
  {
    if s != "" && IsSpace(s[0]) {
      TrimShortens(s[1..]);
    } else if s != "" && IsSpace(s[|s| - 1]) {
      TrimShortens(s[..|s| - 1]);
    }
  }
}
