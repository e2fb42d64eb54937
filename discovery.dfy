/**
 * `GetRevitFiles`: the scanned `*.rvt` paths, in scan order, minus backups and
 * placeholders. Both tests look at the file name without its extension.
 */
module Discovery {
  import opened Wrappers
  import opened Decimal
  import opened Paths

  const PlaceHolderName := "placeholder.rvt"

  /** `String.Contains` (ordinal): `sub` is a prefix of `s` or of one of its tails. */
  predicate Contains(s: string, sub: string)
    decreases |s|
  {
    |sub| <= |s| && (s[..|sub|] == sub || (s != [] && Contains(s[1..], sub)))
  }

  /** `sub` occurs in `s` starting at position `i`. */
  predicate OccursAt(s: string, sub: string, i: nat) {
    i + |sub| <= |s| && s[i..i + |sub|] == sub
  }

  /** `Contains` holds exactly when `sub` occurs at some position. */
  lemma {:induction false} ContainsIffOccurs(s: string, sub: string)
    ensures Contains(s, sub) <==> exists i: nat :: OccursAt(s, sub, i)
    decreases |s|
  {
    if Contains(s, sub) {
      if s[..|sub|] == sub {
        assert OccursAt(s, sub, 0);
      } else {
        ContainsIffOccurs(s[1..], sub);
        var i: nat :| OccursAt(s[1..], sub, i);
        assert s[i + 1..i + 1 + |sub|] == s[1..][i..i + |sub|];
        assert OccursAt(s, sub, i + 1);
      }
    }
    if exists i: nat :: OccursAt(s, sub, i) {
      var i: nat :| OccursAt(s, sub, i);
      OccursContains(s, sub, i);
    }
  }

  lemma {:induction false} OccursContains(s: string, sub: string, i: nat)
    requires OccursAt(s, sub, i)
    ensures Contains(s, sub)
    decreases i
  {
    if i > 0 {
      assert s[1..][i - 1..i - 1 + |sub|] == s[i..i + |sub|];
      OccursContains(s[1..], sub, i - 1);
    }
  }

  /** `\.\d{4}` at position `p` of `s`: a `.` and four ASCII digits. */
  predicate DotFourAt(s: string, p: nat) {
    p + 5 <= |s| && s[p] == '.' &&
    IsDigit(s[p + 1]) && IsDigit(s[p + 2]) && IsDigit(s[p + 3]) && IsDigit(s[p + 4])
  }

  /**
   * The regex `\.\d{4}(\.\d{4})?$` matched at position `p`: one `.dddd` group,
   * then either the end, or a second `.dddd` group and then the end.
   */
  predicate BackupPatternAt(s: string, p: nat) {
    DotFourAt(s, p) && (p + 5 == |s| || (DotFourAt(s, p + 5) && p + 10 == |s|))
  }

  /** The regex engine's scan: try the pattern at `p`, then at each later start position. */
  predicate BackupMatchFrom(s: string, p: nat)
    decreases |s| - p
  {
    p <= |s| && (BackupPatternAt(s, p) || BackupMatchFrom(s, p + 1))
  }

  /** `Regex.IsMatch(s, @"\.\d{4}(\.\d{4})?$")`. */
  predicate IsBackupMatch(s: string) {
    BackupMatchFrom(s, 0)
  }

  /** The same scan for the pattern without its optional group, `\.\d{4}$`. */
  predicate ShortMatchFrom(s: string, p: nat)
    decreases |s| - p
  {
    p <= |s| && ((DotFourAt(s, p) && p + 5 == |s|) || ShortMatchFrom(s, p + 1))
  }

  /** The plain reading of the pattern: the name ends in `.` and four digits. */
  predicate EndsWithDotFour(s: string) {
    |s| >= 5 && DotFourAt(s, |s| - 5)
  }

  /** A scan from `p` finds the pattern exactly when the name ends in `.dddd` that starts at or after `p`. */
  lemma {:induction false} BackupMatchFromIff(s: string, p: nat)
    requires p <= |s|
    ensures BackupMatchFrom(s, p) <==> EndsWithDotFour(s) && p <= |s| - 5
    decreases |s| - p
  {
    if p < |s| {
      BackupMatchFromIff(s, p + 1);
    }
  }

  lemma {:induction false} ShortMatchFromIff(s: string, p: nat)
    requires p <= |s|
    ensures ShortMatchFrom(s, p) <==> EndsWithDotFour(s) && p <= |s| - 5
    decreases |s| - p
  {
    if p < |s| {
      ShortMatchFromIff(s, p + 1);
    }
  }

  /** The backup test holds exactly for the names that end in `.` and four digits. */
  lemma BackupMatchIffDotFourSuffix(s: string)
    ensures IsBackupMatch(s) <==> EndsWithDotFour(s)
  {
    BackupMatchFromIff(s, 0);
  }

  /** The optional second group never changes whether the regex matches. */
  lemma OptionalGroupRedundant(s: string)
    ensures IsBackupMatch(s) <==> ShortMatchFrom(s, 0)
  {
    BackupMatchFromIff(s, 0);
    ShortMatchFromIff(s, 0);
  }

  /** The filter's predicate: kept unless the stem contains `placeholder.rvt` or matches the backup pattern. */
  predicate IsEligible(path: string) {
    IsEligibleName(FileNameWithoutExtension(path))
  }

  /** The two tests on the file name without its extension. */
  predicate IsEligibleName(fileName: string) {
    !Contains(fileName, PlaceHolderName) && !IsBackupMatch(fileName)
  }

  /** The test in plain words: neither containing `placeholder.rvt` nor ending in `.` and four digits. */
  lemma EligibleNameIff(fileName: string)
    ensures IsEligibleName(fileName) <==> !Contains(fileName, PlaceHolderName) && !EndsWithDotFour(fileName)
  {
    BackupMatchIffDotFourSuffix(fileName);
  }

  /** LINQ `xs.Where(keep).ToList()`: the elements `keep` accepts, in their order. */
  function Where<T>(xs: seq<T>, keep: T -> bool): (r: seq<T>)
    ensures |r| <= |xs|
  {
    if xs == [] then []
    else if keep(xs[0]) then [xs[0]] + Where(xs[1..], keep)
    else Where(xs[1..], keep)
  }

  /** `GetRevitFiles`, given the list `Directory.GetFiles` returned. */
  function GetRevitFiles(scanned: seq<string>): (files: seq<string>)
    ensures |files| <= |scanned|
  {
    Where(scanned, IsEligible)
  }

  /** Every kept element was in the input and is accepted. */
  lemma {:induction false} WhereKeepsOnlyAccepted<T>(xs: seq<T>, keep: T -> bool)
    ensures forall x :: x in Where(xs, keep) ==> x in xs && keep(x)
  {
    if xs != [] {
      WhereKeepsOnlyAccepted(xs[1..], keep);
    }
  }

  /** `a` is `b` with some elements left out, the rest in the same order. */
  predicate IsSubsequence<T(==)>(a: seq<T>, b: seq<T>)
    decreases |b|
  {
    if a == [] then true
    else if b == [] then false
    else if a[0] == b[0] then IsSubsequence(a[1..], b[1..])
    else IsSubsequence(a, b[1..])
  }

  /** The filter keeps input order and adds nothing. */
  lemma {:induction false} WhereIsSubsequence<T>(xs: seq<T>, keep: T -> bool)
    ensures IsSubsequence(Where(xs, keep), xs)
  {
    if xs != [] {
      WhereIsSubsequence(xs[1..], keep);
      if !keep(xs[0]) {
        var rest := Where(xs[1..], keep);
        if rest != [] {
          SubsequenceOfTail(rest, xs);
        }
      }
    }
  }

  /** A subsequence of the tail of `b` is a subsequence of `b`. */
  lemma {:induction false} SubsequenceOfTail<T>(a: seq<T>, b: seq<T>)
    requires b != [] && IsSubsequence(a, b[1..])
    ensures IsSubsequence(a, b)
    decreases |a| + |b|
  {
    if a != [] && a[0] == b[0] {
      SubsequenceDropHead(a, b[1..]);
    }
  }

  /** Leaving out the first element of a subsequence keeps it a subsequence. */
  lemma {:induction false} SubsequenceDropHead<T>(a: seq<T>, c: seq<T>)
    requires a != [] && IsSubsequence(a, c)
    ensures IsSubsequence(a[1..], c)
    decreases |a| + |c|
  {
    if a[1..] != [] {
      if a[0] != c[0] {
        SubsequenceDropHead(a, c[1..]);
      }
      SubsequenceOfTail(a[1..], c);
    }
  }

  /** Every accepted element is kept as often as it occurs, every other one dropped. */
  lemma {:induction false} WhereCounts<T>(xs: seq<T>, keep: T -> bool, x: T)
    ensures multiset(Where(xs, keep))[x] == if keep(x) then multiset(xs)[x] else 0
  {
    if xs != [] {
      WhereCounts(xs[1..], keep, x);
      assert xs == [xs[0]] + xs[1..];
    }
  }

  /** Filtering an already filtered list changes nothing. */
  lemma {:induction false} WhereIdempotent<T>(xs: seq<T>, keep: T -> bool)
    ensures Where(Where(xs, keep), keep) == Where(xs, keep)
  {
    if xs != [] {
      WhereIdempotent(xs[1..], keep);
      if keep(xs[0]) {
        var r := Where(xs, keep);
        assert r[0] == xs[0] && r[1..] == Where(xs[1..], keep);
      }
    }
  }

  /** Filtering a concatenation filters each part: the decision on one element never depends on another. */
  lemma {:induction false} WhereAppend<T>(xs: seq<T>, ys: seq<T>, keep: T -> bool)
    ensures Where(xs + ys, keep) == Where(xs, keep) + Where(ys, keep)
  {
    if xs == [] {
      assert xs + ys == ys;
    } else {
      WhereAppend(xs[1..], ys, keep);
      var zs := xs + ys;
      assert zs[0] == xs[0] && zs[1..] == xs[1..] + ys;
      if keep(xs[0]) {
        assert Where(zs, keep) == [xs[0]] + Where(xs[1..] + ys, keep);
      } else {
        assert Where(zs, keep) == Where(xs[1..] + ys, keep);
      }
    }
  }


  /**
   * The placeholder file itself is kept: its stem `placeholder` is shorter than
   * `placeholder.rvt`, so it cannot contain it, and it has no `.dddd` ending.
   */
  lemma PlaceholderFileIsKept(dir: string)
    ensures IsEligible(Combine(dir, PlaceHolderName))
  {
    assert PlaceHolderName == "placeholder" + ['.'] + "rvt";
    StemOfCombine(dir, "placeholder", "rvt");
    PlaceholderNameIsKept();
  }

  lemma PlaceholderNameIsKept()
    ensures IsEligibleName("placeholder")
  {
    EligibleNameIff("placeholder");
    assert "placeholder"[6] != '.';
  }

  /** For a path `dir\\stem.rvt`, eligibility is decided by `stem` alone. */
  lemma EligibleByStem(dir: string, stem: string)
    requires NoSeparator(stem)
    ensures IsEligible(RvtPath(dir, stem)) == IsEligibleName(stem)
  {
    assert RvtPath(dir, stem) == dir + ['\\'] + stem + ['.'] + "rvt";
    StemOfPath(dir, stem, "rvt");
  }

  /** A name that ends in `.placeholder.rvt` is dropped. */
  lemma PlaceholderSuffixIsDropped(stem: string)
    ensures !IsEligibleName(stem + ".placeholder.rvt")
  {
    var s := stem + ".placeholder.rvt";
    assert s[|stem| + 1..] == PlaceHolderName;
    OccursContains(s, PlaceHolderName, |stem| + 1);
  }

  /**
   * The placeholder test is substring containment on the stripped name: the
   * files `placeholder.rvt.rvt`, `x.placeholder.rvt.rvt` and
   * `myplaceholder.rvt2.rvt` are dropped, while `placeholder.rvt` is kept.
   */
  lemma PlaceholderTestExamples()
    ensures !IsEligibleName("placeholder.rvt")
    ensures !IsEligibleName("x.placeholder.rvt")
    ensures !IsEligibleName("myplaceholder.rvt2")
    ensures IsEligibleName("placeholder")
  {
    OccursContains("placeholder.rvt", PlaceHolderName, 0);
    PlaceholderSuffixIsDropped("x");
    assert "myplaceholder.rvt2"[2..17] == PlaceHolderName;
    OccursContains("myplaceholder.rvt2", PlaceHolderName, 2);
    PlaceholderNameIsKept();
  }

  /** So the file `stem.placeholder.rvt.rvt` is dropped. */
  lemma DoubledExtensionIsDropped(dir: string, stem: string)
    requires NoSeparator(stem)
    ensures !IsEligible(RvtPath(dir, stem + ".placeholder.rvt"))
  {
    var s := stem + ".placeholder.rvt";
    assert NoSeparator(s);
    EligibleByStem(dir, s);
    PlaceholderSuffixIsDropped(stem);
  }

  /** A file whose name (extension removed) ends in `.` and four digits is dropped. */
  lemma BackupFileIsDropped(dir: string, stem: string)
    requires NoSeparator(stem) && EndsWithDotFour(stem)
    ensures !IsEligible(RvtPath(dir, stem))
  {
    EligibleByStem(dir, stem);
    EligibleNameIff(stem);
  }

  /** A file whose name passes both tests in their plain reading is kept. */
  lemma PlainFileIsKept(dir: string, stem: string)
    requires NoSeparator(stem) && !Contains(stem, PlaceHolderName) && !EndsWithDotFour(stem)
    ensures IsEligible(RvtPath(dir, stem))
  {
    EligibleByStem(dir, stem);
    EligibleNameIff(stem);
  }

  /** `a` and `a.12345` pass; `a.0001` and `a.0001.0001` are backups. */
  lemma BackupNameExamples()
    ensures IsEligibleName("a")
    ensures !IsEligibleName("a.0001")
    ensures !IsEligibleName("a.0001.0001")
    ensures IsEligibleName("a.12345")
  {
    EligibleNameIff("a");
    EligibleNameIff("a.0001");
    EligibleNameIff("a.0001.0001");
    EligibleNameIff("a.12345");
    assert "a.12345"[2] != '.';
  }

  /** Eligibility depends on a path only through its file name without extension. */
  lemma EligibleByFileName(path: string, stem: string)
    requires FileNameWithoutExtension(path) == stem
    ensures IsEligible(path) == IsEligibleName(stem)
  {
  }

  /**
   * A scan that found `a.rvt`, its backups `a.0001.rvt` and `a.0001.0001.rvt`,
   * and a file named `placeholder.rvt`, in that order: the backups are dropped
   * and, because the placeholder test looks for `placeholder.rvt` inside a name
   * whose extension is already gone, the `placeholder.rvt` file is kept.
   */
  lemma FolderExample(a: string, b: string, c: string, p: string)
    requires FileNameWithoutExtension(a) == "a"
    requires FileNameWithoutExtension(b) == "a.0001"
    requires FileNameWithoutExtension(c) == "a.0001.0001"
    requires FileNameWithoutExtension(p) == "placeholder"
    ensures GetRevitFiles([a, b, c, p]) == [a, p]
  {
    BackupNameExamples();
    PlaceholderNameIsKept();
    EligibleByFileName(a, "a");
    EligibleByFileName(b, "a.0001");
    EligibleByFileName(c, "a.0001.0001");
    EligibleByFileName(p, "placeholder");
    assert [a, b, c, p] == [a] + [b, c] + [p];
    KeepOuter(IsEligible, a, [b, c], p);
  }

  /** The path of the file `stem.rvt` in the folder `dir`. */
  function RvtPath(dir: string, stem: string): string {
    dir + ['\\'] + stem + ".rvt"
  }

  /** Filtering a list none of whose elements is accepted yields nothing. */
  lemma {:induction false} WhereNone<T>(xs: seq<T>, keep: T -> bool)
    requires forall x :: x in xs ==> !keep(x)
    ensures Where(xs, keep) == []
  {
    if xs != [] {
      assert xs[0] in xs;
      assert forall x :: x in xs[1..] ==> x in xs;
      WhereNone(xs[1..], keep);
    }
  }

  /** Two accepted elements around rejected ones: only the two are kept, in order. */
  lemma KeepOuter<T>(keep: T -> bool, a: T, mid: seq<T>, c: T)
    requires keep(a) && keep(c) && forall x :: x in mid ==> !keep(x)
    ensures Where([a] + mid + [c], keep) == [a, c]
  {
    WhereNone(mid, keep);
    WhereAppend([a] + mid, [c], keep);
    WhereAppend([a], mid, keep);
  }
}
