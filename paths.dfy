/**
 * The three .NET path helpers the command relies on: `Path.Combine`,
 * `Path.GetFileName` and `Path.GetFileNameWithoutExtension`, for Windows
 * paths whose directory separators are `\` and `/`.
 */
module Paths {
  import opened Wrappers

  predicate IsSeparator(c: char) {
    c == '\\' || c == '/'
  }

  predicate NoSeparator(s: string) {
    forall k :: 0 <= k < |s| ==> !IsSeparator(s[k])
  }

  /** A path component that `Path.Combine` takes as it is: one starting at a root or a drive. */
  predicate IsRooted(p: string) {
    (|p| >= 1 && IsSeparator(p[0])) || (|p| >= 2 && p[1] == ':')
  }

  /**
   * `Path.Combine(dir, name)`: a rooted `name` wins, and an empty `name` gives
   * `dir`; otherwise `name` is appended to `dir`, with a `\` in between unless
   * `dir` is empty or already ends in a separator.
   */
  function Combine(dir: string, name: string): (r: string)
    ensures IsRooted(name) || dir == [] ==> r == name
    ensures name == [] ==> r == dir
    ensures !IsRooted(name) && name != [] ==> |dir| + |name| <= |r| <= |dir| + |name| + 1
    ensures !IsRooted(name) ==> r[..|dir|] == dir && r[|r| - |name|..] == name
    ensures !IsRooted(name) && name != [] && dir != [] ==>
      |r| == |dir| + |name| + (if IsSeparator(dir[|dir| - 1]) then 0 else 1) &&
      IsSeparator(r[|r| - |name| - 1])
    ensures !IsRooted(name) && name != [] && dir != [] && !IsSeparator(dir[|dir| - 1]) ==> r[|dir|] == '\\'
  {
    if IsRooted(name) then name
    else if dir == [] then name
    else if name == [] then dir
    else if IsSeparator(dir[|dir| - 1]) then dir + name
    else dir + ['\\'] + name
  }

  /** `Path.GetFileName`: the text after the last separator. */
  function FileName(path: string): (r: string)
    ensures |r| <= |path|
  {
    if path == [] then []
    else if IsSeparator(path[|path| - 1]) then []
    else FileName(path[..|path| - 1]) + [path[|path| - 1]]
  }

  /** `LastIndexOf(c)`: the position of the last `c` in `s`, if any. */
  function LastIndexOf(s: string, c: char): (r: Option<nat>)
    ensures r.Some? ==> r.value < |s| && s[r.value] == c
  {
    if s == [] then None
    else if s[|s| - 1] == c then Some(|s| - 1)
    else LastIndexOf(s[..|s| - 1], c)
  }

  /** No `c` comes after the position `LastIndexOf` reports, and none at all when it reports nothing. */
  lemma {:induction false} LastIndexOfIsLast(s: string, c: char)
    ensures LastIndexOf(s, c).None? ==> forall k :: 0 <= k < |s| ==> s[k] != c
    ensures LastIndexOf(s, c).Some? ==> forall k :: LastIndexOf(s, c).value < k < |s| ==> s[k] != c
  {
    if s != [] && s[|s| - 1] != c {
      LastIndexOfIsLast(s[..|s| - 1], c);
    }
  }

  /** A file name never holds a separator. */
  lemma {:induction false} FileNameHasNoSeparator(path: string)
    ensures NoSeparator(FileName(path))
  {
    if path != [] && !IsSeparator(path[|path| - 1]) {
      FileNameHasNoSeparator(path[..|path| - 1]);
    }
  }

  /** `Path.GetFileNameWithoutExtension`: the file name up to (not including) its last `.`. */
  function FileNameWithoutExtension(path: string): (r: string)
  {
    var name := FileName(path);
    match LastIndexOf(name, '.')
    case None => name
    case Some(k) => name[..k]
  }

  /**
   * The stem of a path built as `dir` + separator + `stem` + `.` + `ext` is `stem`,
   * whatever dots `stem` itself holds, as long as the extension has none.
   */
  lemma {:induction false} StemOfPath(dir: string, stem: string, ext: string)
    requires NoSeparator(stem) && NoSeparator(ext)
    requires forall k :: 0 <= k < |ext| ==> ext[k] != '.'
    ensures FileNameWithoutExtension(dir + ['\\'] + stem + ['.'] + ext) == stem
  {
    var name := stem + ['.'] + ext;
    var path := dir + ['\\'] + name;
    assert dir + ['\\'] + stem + ['.'] + ext == path;
    FileNameOfSuffix(dir + ['\\'], name);
    StemOfFileName(path, stem, ext);
  }

  /** A file name `stem.ext` whose extension has no dot loses exactly `.ext`. */
  lemma StemOfFileName(path: string, stem: string, ext: string)
    requires FileName(path) == stem + ['.'] + ext
    requires forall k :: 0 <= k < |ext| ==> ext[k] != '.'
    ensures FileNameWithoutExtension(path) == stem
  {
    var name := stem + ['.'] + ext;
    var r := LastIndexOf(name, '.');
    LastIndexOfIsLast(name, '.');
    assert name[|stem|] == '.';
    assert r == Some(|stem|);
    assert name[..|stem|] == stem;
  }

  /** The stem of `Path.Combine(dir, stem.ext)` is `stem`. */
  lemma StemOfCombine(dir: string, stem: string, ext: string)
    requires NoSeparator(stem) && NoSeparator(ext) && !IsRooted(stem + ['.'] + ext)
    requires forall k :: 0 <= k < |ext| ==> ext[k] != '.'
    ensures FileNameWithoutExtension(Combine(dir, stem + ['.'] + ext)) == stem
  {
    var name := stem + ['.'] + ext;
    assert NoSeparator(name);
    FileNameOfCombine(dir, name);
    StemOfFileName(Combine(dir, name), stem, ext);
  }

  /** A separator-free tail after a separator is exactly what `Path.GetFileName` returns. */
  lemma {:induction false} FileNameOfSuffix(prefix: string, name: string)
    requires prefix != [] && IsSeparator(prefix[|prefix| - 1])
    requires NoSeparator(name)
    ensures FileName(prefix + name) == name
    decreases |name|
  {
    if name == [] {
      assert prefix + name == prefix;
    } else {
      var p := prefix + name;
      assert p[..|p| - 1] == prefix + name[..|name| - 1];
      FileNameOfSuffix(prefix, name[..|name| - 1]);
      assert name == name[..|name| - 1] + [name[|name| - 1]];
    }
  }

  /** The file name of a combined path is the name that was combined. */
  lemma FileNameOfCombine(dir: string, name: string)
    requires !IsRooted(name) && NoSeparator(name) && name != []
    ensures FileName(Combine(dir, name)) == name
  {
    if dir == [] {
      FileNameOfWhole(name);
    } else if IsSeparator(dir[|dir| - 1]) {
      FileNameOfSuffix(dir, name);
    } else {
      FileNameOfSuffix(dir + ['\\'], name);
    }
  }

  lemma {:induction false} FileNameOfWhole(name: string)
    requires NoSeparator(name)
    ensures FileName(name) == name
    decreases |name|
  {
    if name != [] {
      var init := name[..|name| - 1];
      assert !IsSeparator(name[|name| - 1]);
      assert NoSeparator(init);
      FileNameOfWhole(init);
      assert name == init + [name[|name| - 1]];
    }
  }
}
