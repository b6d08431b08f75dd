/** util.go: globbing with the other-platform filter, source-file discovery
    by language family, object and dependency file names, output names by
    type, and changing into a directory and back. */
module Util {
  import opened Wrappers
  import opened Text
  import opened Paths
  import opened Enums
  import opened Platform
  import opened Workspace

  // ---------------------------------------------------------------- globbing

  /** The names that survive the other-platform filter, in their order. */
  function Filtered(names: seq<string>, others: seq<string>): (r: seq<string>)
    ensures |r| <= |names|
  {
    if names == [] then []
    else
      var last := names[|names| - 1];
      Filtered(names[..|names| - 1], others) + (if IsOtherPlatformFile(last, others) then [] else [last])
  }

  /** A name is kept exactly when it is one of `names` and not tagged for
      another platform. */
  lemma {:induction false} FilteredMembers(names: seq<string>, others: seq<string>, x: string)
    ensures x in Filtered(names, others) <==> x in names && !IsOtherPlatformFile(x, others)
    decreases |names|
  {
    if names != [] {
      var init := names[..|names| - 1];
      var last := names[|names| - 1];
      assert names == init + [last];
      FilteredMembers(init, others, x);
    }
  }

  /** One more name is kept or dropped on its own. */
  lemma FilteredStep(names: seq<string>, others: seq<string>, j: nat)
    requires j < |names|
    ensures Filtered(names[..j + 1], others)
      == Filtered(names[..j], others) + (if IsOtherPlatformFile(names[j], others) then [] else [names[j]])
  {
    assert names[..j + 1][..j] == names[..j];
  }

  /** Filtering a concatenation filters each part: order is kept. */
  lemma {:induction false} FilteredAppend(a: seq<string>, b: seq<string>, others: seq<string>)
    ensures Filtered(a + b, others) == Filtered(a, others) + Filtered(b, others)
    decreases |b|
  {
    if b == [] {
      assert a + b == a;
    } else {
      var c := b[..|b| - 1];
      assert (a + b)[..|a + b| - 1] == a + c;
      FilteredAppend(a, c, others);
    }
  }

  /** Filtering twice removes nothing more. */
  lemma {:induction false} FilteredIdempotent(names: seq<string>, others: seq<string>)
    ensures Filtered(Filtered(names, others), others) == Filtered(names, others)
    decreases |names|
  {
    if names != [] {
      var init := names[..|names| - 1];
      var last := names[|names| - 1];
      var tail := if IsOtherPlatformFile(last, others) then [] else [last];
      FilteredIdempotent(init, others);
      FilteredAppend(Filtered(init, others), tail, others);
    }
  }

  /** What Glob returns, as a value: the filtered matches, or the error. */
  function GlobResult(g: Globber, others: seq<string>, pattern: string): Result<seq<string>, string> {
    match g(pattern)
    case Err(e) => Err(e)
    case Ok(matches) => Ok(Filtered(matches, others))
  }

  /** Glob: the matches of `pattern` without the names tagged for another
      platform; `matched` says whether any are left. */
  method Glob(g: Globber, others: seq<string>, pattern: string)
    returns (filenames: seq<string>, matched: bool, err: Option<string>)
    ensures g(pattern).Err? ==> err == Some(g(pattern).error) && filenames == [] && !matched
    ensures g(pattern).Ok? ==> err.None? && filenames == Filtered(g(pattern).value, others)
    ensures matched <==> filenames != []
  {
    var result := g(pattern);
    if result.Err? {
      return [], false, Some(result.error);
    }
    var matches := result.value;
    filenames := [];
    if |matches| > 0 {
      for i := 0 to |matches|
        invariant filenames == Filtered(matches[..i], others)
      {
        FilteredStep(matches, others, i);
        if !IsOtherPlatformFile(matches[i], others) {
          filenames := filenames + [matches[i]];
        }
      }
      assert matches[..|matches|] == matches;
    }
    matched := |filenames| > 0;
    err := None;
  }

  /** `r` with `prefix` in front, an error passed through. */
  function Prefixed(prefix: seq<string>, r: Result<seq<string>, string>): Result<seq<string>, string> {
    match r
    case Err(e) => Err(e)
    case Ok(names) => Ok(prefix + names)
  }

  /** The glob results of the patterns, concatenated in pattern order; the
      first pattern error aborts. */
  function ExpandedGlobs(g: Globber, others: seq<string>, patterns: seq<string>): Result<seq<string>, string> {
    if patterns == [] then Ok([])
    else match GlobResult(g, others, patterns[0])
      case Err(e) => Err(e)
      case Ok(names) => Prefixed(names, ExpandedGlobs(g, others, patterns[1..]))
  }

  /** ExpandGlobs: glob every whitespace-separated pattern of `patterns`. */
  method ExpandGlobs(g: Globber, others: seq<string>, patterns: string)
    returns (filenames: seq<string>, err: Option<string>)
    ensures ExpandedGlobs(g, others, Fields(patterns)).Ok? ==>
      err.None? && filenames == ExpandedGlobs(g, others, Fields(patterns)).value
    ensures ExpandedGlobs(g, others, Fields(patterns)).Err? ==>
      err == Some(ExpandedGlobs(g, others, Fields(patterns)).error) && filenames == []
  {
    filenames, err := GlobEach(g, others, Fields(patterns));
  }

  /** The loop of ExpandGlobs over the patterns. */
  method GlobEach(g: Globber, others: seq<string>, ps: seq<string>)
    returns (filenames: seq<string>, err: Option<string>)
    ensures ExpandedGlobs(g, others, ps).Ok? ==> err.None? && filenames == ExpandedGlobs(g, others, ps).value
    ensures ExpandedGlobs(g, others, ps).Err? ==> err == Some(ExpandedGlobs(g, others, ps).error) && filenames == []
  {
    filenames := [];
    assert ps[0..] == ps;
    PrefixedNothing(ExpandedGlobs(g, others, ps));
    for i := 0 to |ps|
      invariant ExpandedGlobs(g, others, ps) == Prefixed(filenames, ExpandedGlobs(g, others, ps[i..]))
    {
      ghost var rest := ExpandedGlobs(g, others, ps[i + 1..]);
      assert ps[i..][1..] == ps[i + 1..];
      assert ps[i..][0] == ps[i];
      var names, matched, e := Glob(g, others, ps[i]);
      if e.Some? {
        assert ExpandedGlobs(g, others, ps[i..]) == Err(e.value);
        return [], e;
      }
      assert ExpandedGlobs(g, others, ps[i..]) == Prefixed(names, rest);
      PrefixedTwice(filenames, names, rest);
      if matched {
        filenames := filenames + names;
      } else {
        assert filenames + names == filenames;
      }
    }
    assert ps[|ps|..] == [];
    err := None;
  }

  /** Globbing a list of patterns is globbing its two halves, one after the other. */
  lemma {:induction false} ExpandedGlobsAppend(g: Globber, others: seq<string>, ps: seq<string>, qs: seq<string>)
    ensures ExpandedGlobs(g, others, ps + qs) ==
      match ExpandedGlobs(g, others, ps)
      case Err(e) => Err(e)
      case Ok(names) => Prefixed(names, ExpandedGlobs(g, others, qs))
  {
    if ps == [] {
      assert ps + qs == qs;
      PrefixedNothing(ExpandedGlobs(g, others, qs));
    } else {
      assert (ps + qs)[0] == ps[0];
      assert (ps + qs)[1..] == ps[1..] + qs;
      ExpandedGlobsAppend(g, others, ps[1..], qs);
      match GlobResult(g, others, ps[0])
      case Err(e) =>
      case Ok(names) =>
        match ExpandedGlobs(g, others, ps[1..])
        case Err(e) =>
        case Ok(more) =>
          PrefixedTwice(names, more, ExpandedGlobs(g, others, qs));
    }
  }

  lemma PrefixedNothing(r: Result<seq<string>, string>)
    ensures Prefixed([], r) == r
  {
    if r.Ok? {
      assert [] + r.value == r.value;
    }
  }

  lemma PrefixedTwice(a: seq<string>, b: seq<string>, r: Result<seq<string>, string>)
    ensures Prefixed(a, Prefixed(b, r)) == Prefixed(a + b, r)
  {
    if r.Ok? {
      assert a + (b + r.value) == (a + b) + r.value;
    }
  }

  /** A name is found exactly when some pattern's filtered matches hold it. */
  lemma {:induction false} ExpandedGlobsMembers(g: Globber, others: seq<string>, ps: seq<string>, x: string)
    requires ExpandedGlobs(g, others, ps).Ok?
    ensures x in ExpandedGlobs(g, others, ps).value <==>
      exists i :: 0 <= i < |ps| && g(ps[i]).Ok? && x in g(ps[i]).value && !IsOtherPlatformFile(x, others)
  {
    if ps != [] {
      ExpandedGlobsMembers(g, others, ps[1..], x);
      FilteredMembers(g(ps[0]).value, others, x);
      if exists i :: 0 <= i < |ps| && g(ps[i]).Ok? && x in g(ps[i]).value && !IsOtherPlatformFile(x, others) {
        var i :| 0 <= i < |ps| && g(ps[i]).Ok? && x in g(ps[i]).value && !IsOtherPlatformFile(x, others);
        if i > 0 {
          assert ps[1..][i - 1] == ps[i];
        }
      }
      if exists i :: 0 <= i < |ps[1..]| && g(ps[1..][i]).Ok? && x in g(ps[1..][i]).value && !IsOtherPlatformFile(x, others) {
        var i :| 0 <= i < |ps[1..]| && g(ps[1..][i]).Ok? && x in g(ps[1..][i]).value && !IsOtherPlatformFile(x, others);
        assert ps[i + 1] == ps[1..][i];
      }
    }
  }

  /** The error is the one of the first pattern whose glob fails. */
  lemma {:induction false} ExpandedGlobsFirstError(g: Globber, others: seq<string>, ps: seq<string>)
    ensures ExpandedGlobs(g, others, ps).Err? <==> exists i :: 0 <= i < |ps| && g(ps[i]).Err?
    ensures ExpandedGlobs(g, others, ps).Err? ==>
      exists i :: 0 <= i < |ps| && g(ps[i]) == Err(ExpandedGlobs(g, others, ps).error)
        && forall j :: 0 <= j < i ==> g(ps[j]).Ok?
  {
    if ps != [] {
      ExpandedGlobsFirstError(g, others, ps[1..]);
      if g(ps[0]).Ok? {
        if exists i :: 0 <= i < |ps| && g(ps[i]).Err? {
          var i :| 0 <= i < |ps| && g(ps[i]).Err?;
          assert ps[1..][i - 1] == ps[i];
        }
        if ExpandedGlobs(g, others, ps).Err? {
          var i :| 0 <= i < |ps[1..]| && g(ps[1..][i]) == Err(ExpandedGlobs(g, others, ps).error)
            && forall j :: 0 <= j < i ==> g(ps[1..][j]).Ok?;
          assert ps[i + 1] == ps[1..][i];
          forall j | 0 <= j < i + 1
            ensures g(ps[j]).Ok?
          {
            if j > 0 {
              assert ps[j] == ps[1..][j - 1];
            }
          }
        }
      }
    }
  }

  // ---------------------------------------------------------------- source files

  /** languageExtension: the patterns of each language family. */
  function LanguageExtensions(l: Language): seq<string> {
    match l
    case CplusplusLanguage => ["*.cpp", "*.cc", "*.cxx", "*.c++"]
    case CLanguage => ["*.c"]
    case ObjcLanguage => ["*.m"]
    case ObjcplusplusLanguage => ["*.mm"]
    case UnknownLanguage => []
  }

  /** An order in which a Go map visits the four families: each exactly once. */
  predicate IsFamilyOrder(order: seq<Language>) {
    |order| == 4 && CLanguage in order && CplusplusLanguage in order
    && ObjcLanguage in order && ObjcplusplusLanguage in order
  }

  /** Within one family: the first pattern whose glob fails or matches. */
  function SearchFamily(g: Globber, others: seq<string>, patterns: seq<string>): Result<Option<seq<string>>, string> {
    if patterns == [] then Ok(None)
    else match GlobResult(g, others, patterns[0])
      case Err(e) => Err(e)
      case Ok(names) => if names != [] then Ok(Some(names)) else SearchFamily(g, others, patterns[1..])
  }

  /** Across the families in the given order: the first that fails or matches. */
  function SearchFamilies(g: Globber, others: seq<string>, order: seq<Language>): Result<Option<(Language, seq<string>)>, string> {
    if order == [] then Ok(None)
    else match SearchFamily(g, others, LanguageExtensions(order[0]))
      case Err(e) => Err(e)
      case Ok(Some(names)) => Ok(Some((order[0], names)))
      case Ok(None) => SearchFamilies(g, others, order[1..])
  }

  /** What SourceFiles returns: the files, their language (`langflag` when it
      is set), and an error. */
  function SourceFilesOf(g: Globber, others: seq<string>, order: seq<Language>, langflag: Language): (seq<string>, Language, Option<string>) {
    match SearchFamilies(g, others, order)
    case Err(e) => ([], UnknownLanguage, Some(e))
    case Ok(None) => ([], UnknownLanguage, None)
    case Ok(Some((l, names))) => (names, if langflag != UnknownLanguage then langflag else l, None)
  }

  /** SourceFiles. Go visits the language map in an unspecified order; here
      that order is the parameter `order`. */
  method SourceFiles(g: Globber, others: seq<string>, order: seq<Language>, langflag: Language)
    returns (paths: seq<string>, lang: Language, err: Option<string>)
    requires IsFamilyOrder(order)
    ensures (paths, lang, err) == SourceFilesOf(g, others, order, langflag)
  {
    for i := 0 to |order|
      invariant SearchFamilies(g, others, order) == SearchFamilies(g, others, order[i..])
    {
      assert order[i..][1..] == order[i + 1..];
      var l := order[i];
      var found := SearchFamilyOf(g, others, LanguageExtensions(l));
      if found.Err? {
        return [], UnknownLanguage, Some(found.error);
      }
      if found.value.Some? {
        if langflag != UnknownLanguage {
          l := langflag;
        }
        return found.value.value, l, None;
      }
    }
    assert order[|order|..] == [];
    return [], UnknownLanguage, None;
  }

  /** The inner loop of SourceFiles, over the patterns of one family. */
  method SearchFamilyOf(g: Globber, others: seq<string>, patterns: seq<string>) returns (r: Result<Option<seq<string>>, string>)
    ensures r == SearchFamily(g, others, patterns)
  {
    for j := 0 to |patterns|
      invariant SearchFamily(g, others, patterns) == SearchFamily(g, others, patterns[j..])
    {
      assert patterns[j..][1..] == patterns[j + 1..];
      var names, matches, e := Glob(g, others, patterns[j]);
      if e.Some? {
        return Err(e.value);
      }
      if matches {
        return Ok(Some(names));
      }
    }
    assert patterns[|patterns|..] == [];
    return Ok(None);
  }

  /** In a family, the result is the first pattern with a match, and every
      pattern before it matched nothing. */
  lemma {:induction false} SearchFamilyFirst(g: Globber, others: seq<string>, patterns: seq<string>)
    ensures SearchFamily(g, others, patterns).Ok? && SearchFamily(g, others, patterns).value.Some? ==>
      exists i :: 0 <= i < |patterns| && GlobResult(g, others, patterns[i]) == Ok(SearchFamily(g, others, patterns).value.value)
        && SearchFamily(g, others, patterns).value.value != []
        && forall j :: 0 <= j < i ==> GlobResult(g, others, patterns[j]) == Ok([])
  {
    if patterns != [] {
      var rest := patterns[1..];
      var r := SearchFamily(g, others, patterns);
      if GlobResult(g, others, patterns[0]) == Ok([]) && r.Ok? && r.value.Some? {
        SearchFamilyFirst(g, others, rest);
        assert r == SearchFamily(g, others, rest);
        var i :| 0 <= i < |rest| && GlobResult(g, others, rest[i]) == Ok(r.value.value)
          && r.value.value != [] && forall j :: 0 <= j < i ==> GlobResult(g, others, rest[j]) == Ok([]);
        assert patterns[i + 1] == rest[i];
        forall j | 0 <= j < i + 1
          ensures GlobResult(g, others, patterns[j]) == Ok([])
        {
          if j > 0 {
            assert patterns[j] == rest[j - 1];
          }
        }
      }
    }
  }

  /** In a family, nothing is found exactly when every pattern globs to
      nothing without error. */
  lemma {:induction false} SearchFamilyNothing(g: Globber, others: seq<string>, patterns: seq<string>)
    ensures SearchFamily(g, others, patterns) == Ok(None) <==>
      forall i :: 0 <= i < |patterns| ==> GlobResult(g, others, patterns[i]) == Ok([])
  {
    if patterns != [] {
      var rest := patterns[1..];
      SearchFamilyNothing(g, others, rest);
      if GlobResult(g, others, patterns[0]) == Ok([]) {
        assert SearchFamily(g, others, patterns) == SearchFamily(g, others, rest);
        if forall i :: 0 <= i < |rest| ==> GlobResult(g, others, rest[i]) == Ok([]) {
          forall i | 0 <= i < |patterns|
            ensures GlobResult(g, others, patterns[i]) == Ok([])
          {
            if i > 0 {
              assert patterns[i] == rest[i - 1];
            }
          }
        }
        if forall i :: 0 <= i < |patterns| ==> GlobResult(g, others, patterns[i]) == Ok([]) {
          forall i | 0 <= i < |rest|
            ensures GlobResult(g, others, rest[i]) == Ok([])
          {
            assert rest[i] == patterns[i + 1];
          }
        }
      }
    }
  }

  /** Nothing is found exactly when every pattern of every family globs to
      nothing without error; then there is no error and no language. */
  lemma {:induction false} SourceFilesNone(g: Globber, others: seq<string>, order: seq<Language>, langflag: Language)
    ensures SourceFilesOf(g, others, order, langflag) == ([], UnknownLanguage, None) <==>
      forall k, i :: 0 <= k < |order| && 0 <= i < |LanguageExtensions(order[k])| ==>
        GlobResult(g, others, LanguageExtensions(order[k])[i]) == Ok([])
  {
    SearchFamiliesNone(g, others, order);
    var r := SearchFamilies(g, others, order);
    if r.Ok? && r.value.Some? {
      SearchFamiliesFound(g, others, order);
    }
  }

  lemma {:induction false} SearchFamiliesNone(g: Globber, others: seq<string>, order: seq<Language>)
    ensures SearchFamilies(g, others, order) == Ok(None) <==>
      forall k, i :: 0 <= k < |order| && 0 <= i < |LanguageExtensions(order[k])| ==>
        GlobResult(g, others, LanguageExtensions(order[k])[i]) == Ok([])
  {
    if order != [] {
      var rest := order[1..];
      SearchFamilyFirst(g, others, LanguageExtensions(order[0]));
      SearchFamilyNothing(g, others, LanguageExtensions(order[0]));
      SearchFamiliesNone(g, others, rest);
      if SearchFamily(g, others, LanguageExtensions(order[0])) == Ok(None) {
        if forall k, i :: 0 <= k < |rest| && 0 <= i < |LanguageExtensions(rest[k])| ==>
            GlobResult(g, others, LanguageExtensions(rest[k])[i]) == Ok([]) {
          forall k, i | 0 <= k < |order| && 0 <= i < |LanguageExtensions(order[k])|
            ensures GlobResult(g, others, LanguageExtensions(order[k])[i]) == Ok([])
          {
            if k > 0 {
              assert order[k] == rest[k - 1];
            }
          }
        }
        if forall k, i :: 0 <= k < |order| && 0 <= i < |LanguageExtensions(order[k])| ==>
            GlobResult(g, others, LanguageExtensions(order[k])[i]) == Ok([]) {
          forall k, i | 0 <= k < |rest| && 0 <= i < |LanguageExtensions(rest[k])|
            ensures GlobResult(g, others, LanguageExtensions(rest[k])[i]) == Ok([])
          {
            assert rest[k] == order[k + 1];
          }
        }
      } else {
        var ext := LanguageExtensions(order[0]);
        if SearchFamily(g, others, ext).Ok? {
          var i :| 0 <= i < |ext| && GlobResult(g, others, ext[i]) == Ok(SearchFamily(g, others, ext).value.value)
            && SearchFamily(g, others, ext).value.value != [];
          assert GlobResult(g, others, LanguageExtensions(order[0])[i]) != Ok([]);
        }
      }
    }
  }

  /** A found set of files is non-empty, comes from one pattern of a family in
      the order, and carries that family's language unless `langflag` is set. */
  lemma SourceFilesFound(g: Globber, others: seq<string>, order: seq<Language>, langflag: Language)
    requires SourceFilesOf(g, others, order, langflag).0 != []
    ensures SourceFilesOf(g, others, order, langflag).2.None?
    ensures exists k, i :: (0 <= k < |order| && 0 <= i < |LanguageExtensions(order[k])|
      && GlobResult(g, others, LanguageExtensions(order[k])[i]) == Ok(SourceFilesOf(g, others, order, langflag).0)
      && SourceFilesOf(g, others, order, langflag).1 == (if langflag != UnknownLanguage then langflag else order[k]))
  {
    SearchFamiliesFound(g, others, order);
  }

  lemma {:induction false} SearchFamiliesFound(g: Globber, others: seq<string>, order: seq<Language>)
    requires SearchFamilies(g, others, order).Ok? && SearchFamilies(g, others, order).value.Some?
    ensures SearchFamilies(g, others, order).value.value.1 != []
    ensures exists k, i :: (0 <= k < |order| && 0 <= i < |LanguageExtensions(order[k])|
      && order[k] == SearchFamilies(g, others, order).value.value.0
      && GlobResult(g, others, LanguageExtensions(order[k])[i]) == Ok(SearchFamilies(g, others, order).value.value.1))
  {
    var ext := LanguageExtensions(order[0]);
    SearchFamilyFirst(g, others, ext);
    if SearchFamily(g, others, ext) == Ok(None) {
      SearchFamiliesFound(g, others, order[1..]);
      var k, i :| 0 <= k < |order[1..]| && 0 <= i < |LanguageExtensions(order[1..][k])|
        && order[1..][k] == SearchFamilies(g, others, order).value.value.0
        && GlobResult(g, others, LanguageExtensions(order[1..][k])[i]) == Ok(SearchFamilies(g, others, order).value.value.1);
      assert order[k + 1] == order[1..][k];
    } else {
      var i :| 0 <= i < |ext| && GlobResult(g, others, ext[i]) == Ok(SearchFamily(g, others, ext).value.value)
        && SearchFamily(g, others, ext).value.value != [];
      assert order[0] == SearchFamilies(g, others, order).value.value.0;
    }
  }

  // ---------------------------------------------------------------- file names

  /** The file name without its extension. */
  function Stem(name: string): string {
    TrimSuffix(name, Ext(name))
  }

  /** ObjectFilename: `<dir>/<objsdir>/<stem>` with the object suffix added
      when it is not already there. */
  function ObjectFilename(p: PlatformSpecific, srcfile: string, objsdir: string): string {
    var dirname, basename := Dir(srcfile), Base(srcfile);
    var path := Join(Join(dirname, objsdir), basename);
    ObjFilename(p, TrimSuffix(path, Ext(basename)))
  }

  /** DependenciesFilename: the object file itself when its directory ends
      with the global `objsdir`, otherwise the same name under `depsdir`. */
  function DependenciesFilename(ofile: string, depsdir: string, objsdir: string): string {
    var dirname, basename := Dir(ofile), Base(ofile);
    if HasSuffix(dirname, objsdir) then Join(dirname, basename)
    else Join(Join(dirname, depsdir), basename)
  }

  /** A directory joined with an element is in directory form. */
  lemma JoinIsDirForm(d: string, e: string)
    requires IsElement(e)
    ensures IsDirForm(Join(d, e))
    ensures HasSuffix(Join(d, e), e)
  {
  }

  /** Trimming a suffix of the last element of a join trims it in the element. */
  lemma JoinTrimSuffix(d: string, b: string, x: string)
    requires HasSuffix(b, x) && |x| < |b|
    ensures TrimSuffix(Join(d, b), x) == Join(d, TrimSuffix(b, x))
  {
    var s := TrimSuffix(b, x);
    assert b == s + x;
    assert s != [];
    var j := Join(d, b);
    if d == [] || d == "." {
    } else if d[|d| - 1] == '/' {
      assert j == (d + s) + x;
      assert j[..|j| - |x|] == d + s;
    } else {
      assert j == (d + "/" + s) + x;
      assert j[..|j| - |x|] == d + "/" + s;
    }
  }

  /** The stem of an element without its extension is an element, unless the
      extension is the whole name (".c"). */
  lemma StemIsElement(b: string)
    requires IsElement(b) && Stem(b) != []
    ensures IsElement(Stem(b)) && |Ext(b)| < |b|
    ensures HasSuffix(b, Ext(b)) && Stem(b) + Ext(b) == b
  {
  }

  /** The object of `dir/name.ext` is `dir/<objsdir>/name` with the object
      suffix: it lives in the object directory beside the source. */
  lemma ObjectFilenameShape(p: PlatformSpecific, srcfile: string, objsdir: string)
    requires PlainAffixes(p) && IsElement(objsdir)
    requires IsElement(Base(srcfile)) && Stem(Base(srcfile)) != []
    ensures Dir(ObjectFilename(p, srcfile, objsdir)) == Join(Dir(srcfile), objsdir)
    ensures Base(ObjectFilename(p, srcfile, objsdir)) == Decorate("", Stem(Base(srcfile)), p.objsuffix)
  {
    var b := Base(srcfile);
    var d := Join(Dir(srcfile), objsdir);
    StemIsElement(b);
    JoinIsDirForm(Dir(srcfile), objsdir);
    JoinTrimSuffix(d, b, Ext(b));
    var stemPath := Join(d, Stem(b));
    DirOfJoin(d, Stem(b));
    BaseOfJoin(d, Stem(b));
    assert Base(stemPath) != "/";
    FormFilenameShape("", stemPath, p.objsuffix);
  }

  /** A dependency file keeps the base name of its object file; it sits in
      the object's directory when that ends with `objsdir`, otherwise in
      `depsdir` below it. */
  lemma DependenciesFilenameShape(ofile: string, depsdir: string, objsdir: string)
    requires IsElement(Base(ofile)) && IsElement(depsdir)
    ensures Base(DependenciesFilename(ofile, depsdir, objsdir)) == Base(ofile)
    ensures HasSuffix(Dir(ofile), objsdir) ==> Dir(DependenciesFilename(ofile, depsdir, objsdir)) == Dir(ofile)
    ensures !HasSuffix(Dir(ofile), objsdir) ==> Dir(DependenciesFilename(ofile, depsdir, objsdir)) == Join(Dir(ofile), depsdir)
  {
    BaseOfJoin(Dir(ofile), Base(ofile));
    DirOfJoin(Dir(ofile), Base(ofile));
    JoinIsDirForm(Dir(ofile), depsdir);
    BaseOfJoin(Join(Dir(ofile), depsdir), Base(ofile));
    DirOfJoin(Join(Dir(ofile), depsdir), Base(ofile));
  }

  /** For an object file that ObjectFilename produced with the same `objsdir`,
      the dependency file is that object file again: its directory ends with
      `objsdir`, so `depsdir` is never used. */
  lemma DependenciesOfObjectFile(p: PlatformSpecific, srcfile: string, depsdir: string, objsdir: string)
    requires PlainAffixes(p) && IsElement(objsdir) && IsElement(depsdir)
    requires IsElement(Base(srcfile)) && Stem(Base(srcfile)) != []
    ensures Dir(DependenciesFilename(ObjectFilename(p, srcfile, objsdir), depsdir, objsdir))
      == Dir(ObjectFilename(p, srcfile, objsdir))
    ensures Base(DependenciesFilename(ObjectFilename(p, srcfile, objsdir), depsdir, objsdir))
      == Base(ObjectFilename(p, srcfile, objsdir))
  {
    var o := ObjectFilename(p, srcfile, objsdir);
    ObjectFilenameShape(p, srcfile, objsdir);
    JoinIsDirForm(Dir(srcfile), objsdir);
    StemIsElement(Base(srcfile));
    DecoratedIsElement("", Stem(Base(srcfile)), p.objsuffix);
    DependenciesFilenameShape(o, depsdir, objsdir);
  }

  /** FilenameForType: the output name for a type; `None` where it panics
      (on UnknownOutputType). The plugin namer is not part of this model and
      is a parameter. */
  function FilenameForType(p: PlatformSpecific, pluginName: string -> string, t: OutputType, name: string): Option<string> {
    match t
    case DllOutputType => Some(DllFilename(p, name))
    case PluginOutputType => Some(pluginName(name))
    case ExeOutputType => Some(ExeFilename(p, name))
    case LibOutputType => Some(LibFilename(p, name))
    case UnknownOutputType => None
  }

  /** FilenameForType panics exactly on the unknown type, and naming a dll,
      exe or lib name again changes nothing. */
  lemma FilenameForTypeIdempotent(p: PlatformSpecific, pluginName: string -> string, t: OutputType, name: string)
    requires PlainAffixes(p) && Base(name) != "/"
    ensures FilenameForType(p, pluginName, t, name).None? <==> t == UnknownOutputType
    ensures t in {DllOutputType, ExeOutputType, LibOutputType} ==>
      FilenameForType(p, pluginName, t, FilenameForType(p, pluginName, t, name).value) == FilenameForType(p, pluginName, t, name)
  {
    PlatformNamesIdempotent(p, name);
  }

  // ---------------------------------------------------------------- working directory

  /** CwdRestorer: the directory to go back to, and the error of the change. */
  datatype CwdRestorer = CwdRestorer(path: seq<string>, err: Option<string>)

  /** AddDetail */
  function AddDetail(err: string, detail: string): string {
    err + " (" + detail + ")"
  }

  /** ChangeDirectory: remember the working directory, then enter `path`.
      When Getwd fails nothing changes. */
  method ChangeDirectory(proc: Process, path: string) returns (r: CwdRestorer, err: Option<string>)
    requires proc.Here().Some?
    modifies proc
    ensures err == r.err && proc.log == old(proc.log) && proc.Here().Some?
    ensures old(proc.Here()).value.getwdError.Some? ==>
      err == Some(AddDetail(old(proc.Here()).value.getwdError.value, "os.Getwd")) && proc.cwd == old(proc.cwd)
    ensures old(proc.Here()).value.getwdError.None? ==> r.path == old(proc.cwd)
    ensures old(proc.Here()).value.getwdError.None? && FindSub(old(proc.Here()).value.subdirs, path).Some? ==>
      err.None? && proc.cwd == old(proc.cwd) + [path]
    ensures old(proc.Here()).value.getwdError.None? && FindSub(old(proc.Here()).value.subdirs, path).None? ==>
      err == Some(AddDetail(ChdirError(path), "os.Chdir \"" + path + "\"")) && proc.cwd == old(proc.cwd)
  {
    var saved, e := proc.Getwd();
    if e.Some? {
      var detailed := Some(AddDetail(e.value, "os.Getwd"));
      return CwdRestorer(saved, detailed), detailed;
    }
    e := proc.Chdir(path);
    if e.Some? {
      e := Some(AddDetail(e.value, "os.Chdir \"" + path + "\""));
    }
    return CwdRestorer(saved, e), e;
  }

  /** CwdRestorer.Restore: go back only when the change succeeded. Its
      receiver is a copy, so an error of going back is dropped. */
  method Restore(proc: Process, r: CwdRestorer)
    requires NodeAt(proc.root, r.path).Some?
    modifies proc
    ensures proc.log == old(proc.log)
    ensures r.err.None? ==> proc.cwd == r.path
    ensures r.err.Some? ==> proc.cwd == old(proc.cwd)
  {
    if r.err.None? {
      var e := proc.ChdirTo(r.path);
    }
  }
}
