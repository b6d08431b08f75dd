/** main.go: the older, global-variable driver of dmake. It has its own
    .dmake reader, its own way of applying the variables to the package
    globals, its own source discovery and type inference, its own file naming
    helpers and the command line handling of `main`. The file system is
    abstracted as in the rest of the model: a glob is a `Globber`, a file that
    defines `main()` is a member of a set, and the host is a parameter. */
module Driver {
  import opened Wrappers
  import opened Text
  import opened Paths
  import opened Enums
  import opened Platform
  import opened Vars
  import opened Workspace
  import opened Util
  import Dmake

  /** The values main.go gives outputFileType: unset, or the dcc option of
      one of the three kinds of output. */
  datatype FileType = NoFileType | DllFileType | ExeFileType | LibFileType

  /** The string each value stands for: "", "--dll", "--exe" and "--lib". */
  function DccOption(t: FileType): string {
    match t
    case NoFileType => ""
    case DllFileType => "--dll"
    case ExeFileType => "--exe"
    case LibFileType => "--lib"
  }

  /** The strings are distinct, so comparing the values compares the strings. */
  lemma DccOptionInjective(t: FileType, u: FileType)
    ensures DccOption(t) == DccOption(u) <==> t == u
  {
    if t != u {
      assert DccOption(t) == [] || DccOption(u) == [] || DccOption(t)[2] != DccOption(u)[2];
    }
  }

  /** The platform names of main.go's init; the other-platform pattern is
      built from all of them but the host. */
  const MainPlatforms: seq<string> := ["darwin", "freebsd", "linux", "netbsd", "openbsd", "windows", "solaris"]

  function OtherPlatforms(goos: string): seq<string> {
    Omit(MainPlatforms, goos)
  }

  /** Every file name main.go ignores as another platform's, platform.go's
      list ignores as well: main.go knows fewer platforms. */
  lemma OtherPlatformsNarrower(goos: string, name: string)
    requires IsOtherPlatformFile(name, OtherPlatforms(goos))
    ensures IsOtherPlatformFile(name, OtherPlatformNames(goos))
  {
    var others := OtherPlatforms(goos);
    var i :| 0 <= i < |others| && Contains(name, "_" + others[i] + ".");
    assert others[i] in others;
    assert others[i] in AllPlatforms;
    var wider := OtherPlatformNames(goos);
    assert others[i] in wider;
    var j :| 0 <= j < |wider| && wider[j] == others[i];
  }

  // ---------------------------------------------------------------- readDmakeFile

  /** What a single line of a .dmake file is. */
  datatype Line = Skip | Bad(message: string) | Assign(key: string, value: string)

  const NoEqualsMessage := "malformed line, no '='"
  const NoNameMessage := "malformed line, no variable name before '='"
  const SpacesInKeyMessage := "malformed line, spaces in key"

  /** A line after trimming: blank and `#` lines are skipped, a line needs an
      `=` with a one-word key before the first one. */
  function ClassifyLine(line: string): (r: Line)
    ensures r.Skip? <==> TrimSpace(line) == [] || TrimSpace(line)[0] == '#'
    ensures !r.Skip? && '=' !in TrimSpace(line) ==> r == Bad(NoEqualsMessage)
    ensures r.Bad? ==> r.message == NoEqualsMessage || r.message == NoNameMessage || r.message == SpacesInKeyMessage
    ensures r.Assign? ==> '=' in TrimSpace(line) && '=' !in r.key && |Fields(r.key)| == 1
  {
    var t := TrimSpace(line);
    if t == [] || t[0] == '#' then Skip
    else
      var index := IndexOf(t, '=');
      if index == -1 then Bad(NoEqualsMessage)
      else if index == 0 then Bad(NoNameMessage)
      else
        var key := TrimSpace(t[..index]);
        TrimSpaceWithout(t, '=', index, index);
        if |Fields(key)| != 1 then Bad(SpacesInKeyMessage)
        else Assign(key, TrimSpace(t[index + 1..]))
  }

  /** readDmakeFile's reading of a line that is not skipped: an `=` first
      has no name before it; otherwise the key is the trimmed text before
      the first `=`, and must be one word, and the value is the trimmed text
      after it. */
  lemma ClassifyLineParts(line: string)
    ensures var t := TrimSpace(line);
      t != [] && t[0] == '=' ==> ClassifyLine(line) == Bad(NoNameMessage)
    ensures var t := TrimSpace(line);
      var i := IndexOf(t, '=');
      t != [] && t[0] != '#' && 0 < i ==>
        ClassifyLine(line) ==
          if |Fields(TrimSpace(t[..i]))| != 1 then Bad(SpacesInKeyMessage)
          else Assign(TrimSpace(t[..i]), TrimSpace(t[i + 1..]))
  {
  }

  /** `key = value`, with a one-word key that has no `=` and is not a
      comment, assigns the value to the key; the value may hold more `=`. */
  lemma ClassifyAssignment(key: string, value: string)
    requires IsWord(key) && '=' !in key && key[0] != '#' && IsWord(value)
    ensures ClassifyLine(key + " = " + value) == Assign(key, value)
  {
    var line := key + " = " + value;
    SpacedPairSplits(key, '=', value);
    assert line == key + [' ', '=', ' '] + value;
    FieldsOfWord(key);
    ClassifyLineParts(line);
  }

  /** The error of readDmakeFile's `fail`: the path, the 1-based line number
      and the message. */
  function LineError(path: string, lineno: nat, message: string): string {
    path + ":" + NatToString(lineno) + " - " + message
  }

  /** The lines read after `lineno` lines, into `vars`: each assignment is
      interpolated against the store as it stands, the first bad line ends
      the read. */
  function ReadLines(vars: Store, lines: seq<Line>, lineno: nat, path: string): Result<Store, string>
    decreases |lines|
  {
    if lines == [] then Ok(vars)
    else if lines[0].Bad? then Err(LineError(path, lineno + 1, lines[0].message))
    else ReadLines(Assigned(vars, lines[0]), lines[1..], lineno + 1, path)
  }

  /** The store after a line that is not bad: an assignment sets its key to
      its value interpolated against the store as it was. */
  function Assigned(vars: Store, line: Line): Store {
    if line.Assign? then vars[line.key := Interpolated(vars, line.value)] else vars
  }

  /** Every line classified. */
  function Classify(lines: seq<string>): (r: seq<Line>)
    ensures |r| == |lines|
  {
    seq(|lines|, i requires 0 <= i < |lines| => ClassifyLine(lines[i]))
  }

  /** Each line is classified on its own. */
  lemma ClassifyAt(lines: seq<string>, i: nat)
    requires i < |lines|
    ensures Classify(lines)[i] == ClassifyLine(lines[i])
  {
  }

  /** The store readDmakeFile starts from: the host's OS and ARCH. */
  function Predefined(goos: string, goarch: string): Store {
    map["OS" := goos, "ARCH" := goarch]
  }

  function ReadDmakeFileOf(lines: seq<string>, path: string, goos: string, goarch: string): Result<Store, string> {
    ReadLines(Predefined(goos, goarch), Classify(lines), 0, path)
  }

  /** readDmakeFile, over the lines its scanner yields. */
  method ReadDmakeFile(lines: seq<string>, path: string, goos: string, goarch: string) returns (r: Result<Store, string>)
    ensures r == ReadDmakeFileOf(lines, path, goos, goarch)
  {
    var vars: Store := map[];
    vars := vars["OS" := goos];
    vars := vars["ARCH" := goarch];
    ghost var classified := Classify(lines);
    var lineno := 0;
    while lineno < |lines|
      invariant lineno <= |lines|
      invariant ReadLines(vars, classified[lineno..], lineno, path) == ReadDmakeFileOf(lines, path, goos, goarch)
    {
      var input := lines[lineno];
      ClassifyAt(lines, lineno);
      assert classified[lineno..][0] == ClassifyLine(input) && classified[lineno..][1..] == classified[lineno + 1..];
      lineno := lineno + 1;
      var line := TrimSpace(input);
      if line == [] || line[0] == '#' {
        continue;
      }
      var index := IndexOf(line, '=');
      if index == -1 {
        return Err(LineError(path, lineno, NoEqualsMessage));
      }
      if index == 0 {
        return Err(LineError(path, lineno, NoNameMessage));
      }
      var key := TrimSpace(line[..index]);
      if |Fields(key)| != 1 {
        return Err(LineError(path, lineno, SpacesInKeyMessage));
      }
      var val := TrimSpace(line[index + 1..]);
      val := InterpolateVarReferences(vars, val);
      vars := vars[key := val];
    }
    assert classified[lineno..] == [];
    return Ok(vars);
  }

  /** The keys the assignment lines define. */
  function AssignedKeys(lines: seq<Line>): set<string> {
    if lines == [] then {}
    else (if lines[0].Assign? then {lines[0].key} else {}) + AssignedKeys(lines[1..])
  }

  /** Blank and comment lines add no entry: a successful read defines the
      keys it started with and those of the assignment lines, and no other. */
  lemma {:induction false} ReadLinesKeys(vars: Store, lines: seq<Line>, lineno: nat, path: string)
    requires ReadLines(vars, lines, lineno, path).Ok?
    ensures ReadLines(vars, lines, lineno, path).value.Keys == vars.Keys + AssignedKeys(lines)
    decreases |lines|
  {
    if lines != [] {
      var next := Assigned(vars, lines[0]);
      ReadLinesKeys(next, lines[1..], lineno + 1, path);
      assert next.Keys == vars.Keys + (if lines[0].Assign? then {lines[0].key} else {});
    }
  }

  /** A successful read of a .dmake file defines OS, ARCH and the keys of its
      assignment lines. */
  lemma ReadDmakeFileKeys(lines: seq<string>, path: string, goos: string, goarch: string)
    requires ReadDmakeFileOf(lines, path, goos, goarch).Ok?
    ensures ReadDmakeFileOf(lines, path, goos, goarch).value.Keys == {"OS", "ARCH"} + AssignedKeys(Classify(lines))
  {
    ReadLinesKeys(Predefined(goos, goarch), Classify(lines), 0, path);
  }

  /** The read fails at the first bad line, naming its 1-based number. */
  lemma {:induction false} ReadLinesFirstBad(vars: Store, lines: seq<Line>, lineno: nat, path: string, i: nat)
    requires i < |lines| && lines[i].Bad?
    requires forall j :: 0 <= j < i ==> !lines[j].Bad?
    ensures ReadLines(vars, lines, lineno, path) == Err(LineError(path, lineno + i + 1, lines[i].message))
    decreases i
  {
    if i > 0 {
      var rest := lines[1..];
      assert !lines[0].Bad?;
      assert forall j :: 0 <= j < i - 1 ==> !rest[j].Bad? by {
        forall j | 0 <= j < i - 1 ensures !rest[j].Bad? {
          assert rest[j] == lines[j + 1];
        }
      }
      assert rest[i - 1] == lines[i];
      ReadLinesFirstBad(Assigned(vars, lines[0]), rest, lineno + 1, path, i - 1);
    }
  }

  /** Without a bad line the read succeeds. */
  lemma {:induction false} ReadLinesNoBad(vars: Store, lines: seq<Line>, lineno: nat, path: string)
    requires forall j :: 0 <= j < |lines| ==> !lines[j].Bad?
    ensures ReadLines(vars, lines, lineno, path).Ok?
    decreases |lines|
  {
    if lines != [] {
      var rest := lines[1..];
      assert !lines[0].Bad?;
      assert forall j :: 0 <= j < |rest| ==> !rest[j].Bad? by {
        forall j | 0 <= j < |rest| ensures !rest[j].Bad? {
          assert rest[j] == lines[j + 1];
        }
      }
      ReadLinesNoBad(Assigned(vars, lines[0]), rest, lineno + 1, path);
    }
  }

  /** A .dmake file is rejected exactly when one of its lines is bad. */
  lemma ReadDmakeFileFails(lines: seq<string>, path: string, goos: string, goarch: string)
    ensures ReadDmakeFileOf(lines, path, goos, goarch).Err? <==> exists i :: 0 <= i < |lines| && Classify(lines)[i].Bad?
  {
    var ls := Classify(lines);
    if exists i :: 0 <= i < |ls| && ls[i].Bad? {
      var i := FirstBad(ls);
      ReadLinesFirstBad(Predefined(goos, goarch), ls, 0, path, i);
    } else {
      ReadLinesNoBad(Predefined(goos, goarch), ls, 0, path);
    }
  }

  /** The error names the first bad line, counting from 1. */
  lemma ReadDmakeFileFirstBad(lines: seq<string>, path: string, goos: string, goarch: string, i: nat)
    requires i < |lines| && Classify(lines)[i].Bad?
    requires forall j :: 0 <= j < i ==> !Classify(lines)[j].Bad?
    ensures ReadDmakeFileOf(lines, path, goos, goarch) == Err(LineError(path, i + 1, Classify(lines)[i].message))
  {
    var ls := Classify(lines);
    var vars := Predefined(goos, goarch);
    assert forall j :: 0 <= j < i ==> !ls[j].Bad?;
    ReadLinesFirstBad(vars, ls, 0, path, i);
    assert ReadDmakeFileOf(lines, path, goos, goarch) == ReadLines(vars, ls, 0, path);
  }

  /** The index of the first bad line, when there is one. */
  function FirstBad(lines: seq<Line>): (i: nat)
    requires exists k :: 0 <= k < |lines| && lines[k].Bad?
    ensures i < |lines| && lines[i].Bad? && forall j :: 0 <= j < i ==> !lines[j].Bad?
  {
    if lines[0].Bad? then 0
    else
      assert exists k :: 0 <= k < |lines[1..]| && lines[1..][k].Bad? by {
        var k :| 0 <= k < |lines| && lines[k].Bad?;
        assert lines[1..][k - 1] == lines[k];
      }
      FirstBad(lines[1..]) + 1
  }

  /** Reading `a + b` reads `a`, then reads `b` into what `a` gave, counting
      on from the lines of `a`. */
  lemma {:induction false} ReadLinesAppend(vars: Store, a: seq<Line>, b: seq<Line>, lineno: nat, path: string)
    ensures ReadLines(vars, a + b, lineno, path) ==
      match ReadLines(vars, a, lineno, path)
      case Err(e) => Err(e)
      case Ok(s) => ReadLines(s, b, lineno + |a|, path)
    decreases |a|
  {
    if a == [] {
      assert a + b == b;
    } else {
      assert (a + b)[0] == a[0] && (a + b)[1..] == a[1..] + b;
      if !a[0].Bad? {
        ReadLinesAppend(Assigned(vars, a[0]), a[1..], b, lineno + 1, path);
      }
    }
  }

  /** An assignment is interpolated against the store as the earlier lines
      left it, and replaces any earlier value of its key. */
  lemma LaterAssignmentWins(vars: Store, lines: seq<Line>, line: Line, lineno: nat, path: string)
    requires ReadLines(vars, lines, lineno, path).Ok? && line.Assign?
    ensures var before := ReadLines(vars, lines, lineno, path).value;
      ReadLines(vars, lines + [line], lineno, path) == Ok(before[line.key := Interpolated(before, line.value)])
      && ReadLines(vars, lines + [line], lineno, path).value[line.key] == Interpolated(before, line.value)
  {
    ReadLinesAppend(vars, lines, [line], lineno, path);
  }

  // ---------------------------------------------------------------- file names

  /** makeFilenameFrom: the prefix is added to the last element when absent,
      then the suffix when absent; the directory part is kept. This is the
      formFilename of platform.go with its arguments in another order. */
  function MakeFilenameFrom(path: string, prefix: string, suffix: string): string {
    FormFilename(prefix, path, suffix)
  }

  /** The directory is kept, and the base gets the prefix and the suffix; a
      base that already has both is kept as it is. */
  lemma MakeFilenameFromShape(path: string, prefix: string, suffix: string)
    requires '/' !in prefix && '/' !in suffix && Base(path) != "/"
    ensures var r := MakeFilenameFrom(path, prefix, suffix);
      Dir(r) == Dir(path) && HasPrefix(Base(r), prefix) && HasSuffix(Base(r), suffix)
      && (HasPrefix(Base(path), prefix) && HasSuffix(Base(path), suffix) ==> Base(r) == Base(path))
  {
    var b := Base(path);
    FormFilenameShape(prefix, path, suffix);
    assert Base(MakeFilenameFrom(path, prefix, suffix)) == Decorate(prefix, b, suffix);
    if HasPrefix(b, prefix) && HasSuffix(b, suffix) {
      assert Decorate(prefix, b, suffix) == b;
    }
  }

  /** Making a file name twice gives what making it once gave. */
  lemma MakeFilenameFromIdempotent(path: string, prefix: string, suffix: string)
    requires '/' !in prefix && '/' !in suffix && Base(path) != "/"
    ensures MakeFilenameFrom(MakeFilenameFrom(path, prefix, suffix), prefix, suffix) == MakeFilenameFrom(path, prefix, suffix)
  {
    FormFilenameIdempotent(prefix, path, suffix);
  }

  /** makeLibFilename, makeDllFilename and makeExeFilename by dcc option. */
  function OutputFilename(p: PlatformSpecific, fileType: FileType, stem: string): string {
    match fileType
    case DllFileType => MakeFilenameFrom(stem, p.dllprefix, p.dllsuffix)
    case ExeFileType => MakeFilenameFrom(stem, "", p.exesuffix)
    case _ => MakeFilenameFrom(stem, p.libprefix, p.libsuffix)
  }

  /** The names agree with platform.go's namers for the same profile. */
  lemma OutputFilenameAgrees(p: PlatformSpecific, stem: string)
    ensures OutputFilename(p, DllFileType, stem) == DllFilename(p, stem)
    ensures OutputFilename(p, ExeFileType, stem) == ExeFilename(p, stem)
    ensures OutputFilename(p, LibFileType, stem) == LibFilename(p, stem)
  {
  }

  /** makeObjectFileFilename: `<dir>/<objsdir>/<base>`, the extension of the
      base removed and the object suffix appended, whether or not the stem
      already ends with it. */
  function MakeObjectFileFilename(p: PlatformSpecific, objsdir: string, path: string): (r: string)
    ensures HasSuffix(r, p.objsuffix)
  {
    var dirname, basename := Dir(path), Base(path);
    var stem := TrimSuffix(Join(Join(dirname, objsdir), basename), Ext(basename));
    SuffixOfConcat(stem, p.objsuffix);
    stem + p.objsuffix
  }

  /** The object file sits in `objsdir` beside the source and is named after
      the source's stem followed by the object suffix. */
  lemma MakeObjectFileFilenameShape(p: PlatformSpecific, objsdir: string, path: string)
    requires IsElement(objsdir) && '/' !in p.objsuffix
    requires IsElement(Base(path)) && Stem(Base(path)) != []
    ensures Dir(MakeObjectFileFilename(p, objsdir, path)) == Join(Dir(path), objsdir)
    ensures Base(MakeObjectFileFilename(p, objsdir, path)) == Stem(Base(path)) + p.objsuffix
  {
    var b := Base(path);
    var d := Join(Dir(path), objsdir);
    StemIsElement(b);
    JoinIsDirForm(Dir(path), objsdir);
    JoinTrimSuffix(d, b, Ext(b));
    assert MakeObjectFileFilename(p, objsdir, path) == Join(d, Stem(b)) + p.objsuffix;
    var name := Stem(b) + p.objsuffix;
    JoinAppend(d, Stem(b), p.objsuffix);
    assert IsElement(name);
    DirOfJoin(d, name);
    BaseOfJoin(d, name);
  }

  /** Unlike util.go's ObjectFilename, the suffix is appended even when the
      stem already ends with it: `x.o.c` gives `x.o.o` beside util.go's `x.o`. */
  lemma MakeObjectFileFilenameAppendsAlways(p: PlatformSpecific, objsdir: string, path: string)
    requires IsElement(objsdir) && PlainAffixes(p) && p.objsuffix != []
    requires IsElement(Base(path)) && Stem(Base(path)) != []
    ensures HasSuffix(Stem(Base(path)), p.objsuffix) ==>
      Base(MakeObjectFileFilename(p, objsdir, path)) != Base(ObjectFilename(p, path, objsdir))
    ensures !HasSuffix(Stem(Base(path)), p.objsuffix) ==>
      Base(MakeObjectFileFilename(p, objsdir, path)) == Base(ObjectFilename(p, path, objsdir))
  {
    MakeObjectFileFilenameShape(p, objsdir, path);
    ObjectFilenameShape(p, path, objsdir);
    StemIsElement(Base(path));
    var stem := Stem(Base(path));
    if HasSuffix(stem, p.objsuffix) {
      assert Decorate("", stem, p.objsuffix) == stem;
      assert |stem + p.objsuffix| > |stem|;
    } else {
      assert Decorate("", stem, p.objsuffix) == stem + p.objsuffix;
    }
  }

  /** objectFilesDependencyFile: the object path itself when its directory
      ends with `objsdir`, otherwise the same base name under `depsdir`. */
  function ObjectFilesDependencyFile(objsdir: string, depsdir: string, path: string): (r: string)
    ensures r == DependenciesFilename(path, depsdir, objsdir)
  {
    var dirname, basename := Dir(path), Base(path);
    if HasSuffix(dirname, objsdir) then Join(dirname, basename)
    else Join(Join(dirname, depsdir), basename)
  }

  /** getInstallDir: `bin` below the path for an executable, `lib` otherwise. */
  function GetInstallDir(kind: FileType, path: string): (r: string)
    ensures IsDirForm(path) ==> Dir(r) == path
    ensures Base(r) == "bin" <==> kind == ExeFileType
    ensures Base(r) == "lib" <==> kind != ExeFileType
  {
    var sub := if kind == ExeFileType then "bin" else "lib";
    BaseOfJoin(path, sub);
    if IsDirForm(path) then
      DirOfJoin(path, sub);
      Join(path, sub)
    else Join(path, sub)
  }

  /** The ASCII letters of `a` and `b` agree up to case. */
  predicate EqualFoldAscii(a: string, b: string) {
    |a| == |b| && forall i :: 0 <= i < |a| ==> LowerAscii(a[i]) == LowerAscii(b[i])
  }

  /** isCommonSourceCodeSubdirectory: `src` or `source` in any case. */
  function IsCommonSourceCodeSubdirectory(dir: string): (r: bool)
    ensures r <==> EqualFoldAscii(dir, "src") || EqualFoldAscii(dir, "source")
  {
    var word := ToLowerAscii(dir);
    assert word == "src" <==> EqualFoldAscii(dir, "src");
    assert word == "source" <==> EqualFoldAscii(dir, "source");
    word == "src" || word == "source"
  }

  /** The spellings accepted are exactly `src` and `source` with each letter
      in either ASCII case: the characters whose lower case is one of
      s, r, c, o, u, e. */
  lemma SourceDirSpellings(dir: string)
    ensures IsCommonSourceCodeSubdirectory(dir) <==>
      (|dir| == 3 && dir[0] in {'s', 'S'} && dir[1] in {'r', 'R'} && dir[2] in {'c', 'C'})
      || (|dir| == 6 && dir[0] in {'s', 'S'} && dir[1] in {'o', 'O'} && dir[2] in {'u', 'U'}
          && dir[3] in {'r', 'R'} && dir[4] in {'c', 'C'} && dir[5] in {'e', 'E'})
  {
  }

  /** The default output name of `main`: the base of the working directory,
      or the base of its parent for a source sub-directory. */
  function DefaultOutputFilename(cwd: string): string {
    var name := Base(cwd);
    if IsCommonSourceCodeSubdirectory(name) then Base(Dir(cwd)) else name
  }

  /** main.go names a project in `<p>/SRC` or `<p>/Source` after `p`, where
      dmake.go, whose test is case-sensitive, names it after the directory. */
  lemma DefaultOutputFoldsCase(parent: string, name: string)
    requires IsDirForm(parent) && IsElement(name)
    requires EqualFoldAscii(name, "src") || EqualFoldAscii(name, "source")
    ensures DefaultOutputFilename(Join(parent, name)) == Base(parent)
    ensures name != "src" && name != "source" ==> Dmake.DefaultOutput(Join(parent, name)) == name
  {
    BaseOfJoin(parent, name);
    DirOfJoin(parent, name);
    Dmake.DefaultOutputOfSourceDir(parent, name);
  }

  // ---------------------------------------------------------------- globbing

  /** moreDetailedError of a glob failure. */
  function GlobError(err: string, pattern: string): string {
    AddDetail(err, "filepath.Glob \"" + pattern + "\"")
  }

  /** The filtered matches of the patterns, in pattern order; the first
      failing pattern ends the expansion with its error. */
  function ExpandedPatterns(g: Globber, others: seq<string>, ps: seq<string>): Result<seq<string>, string> {
    if ps == [] then Ok([])
    else match g(ps[0])
      case Err(e) => Err(GlobError(e, ps[0]))
      case Ok(paths) => Prefixed(Filtered(paths, others), ExpandedPatterns(g, others, ps[1..]))
  }

  /** Given the same list of other platforms, main.go's expansion finds the
      same names as util.go's ExpandGlobs and fails on the same patterns;
      only the error text carries more detail. The lists the two files use
      differ: main.go's is narrower (OtherPlatformsNarrower), so there it
      keeps names such as `x_aix.c` that util.go drops. */
  lemma {:induction false} ExpandedPatternsAgree(g: Globber, others: seq<string>, ps: seq<string>)
    ensures ExpandedPatterns(g, others, ps).Ok? <==> ExpandedGlobs(g, others, ps).Ok?
    ensures ExpandedPatterns(g, others, ps).Ok? ==> ExpandedPatterns(g, others, ps).value == ExpandedGlobs(g, others, ps).value
  {
    if ps != [] {
      ExpandedPatternsAgree(g, others, ps[1..]);
    }
  }

  /** expandGlobPatterns: the filtered matches of each pattern appended to
      `names`; on an error the names are dropped. */
  method ExpandGlobPatterns(g: Globber, others: seq<string>, patterns: string, names: seq<string>) returns (r: Result<seq<string>, string>)
    ensures r == Prefixed(names, ExpandedPatterns(g, others, Fields(patterns)))
  {
    var ps := Fields(patterns);
    var acc := names;
    for i := 0 to |ps|
      invariant Prefixed(acc, ExpandedPatterns(g, others, ps[i..])) == Prefixed(names, ExpandedPatterns(g, others, ps))
    {
      var pattern := ps[i];
      ExpandedPatternsStep(g, others, ps, i);
      var paths := g(pattern);
      if paths.Err? {
        return Err(GlobError(paths.error, pattern));
      }
      ghost var before := acc;
      acc := AppendFiltered(acc, paths.value, others);
      PrefixedTwice(before, Filtered(paths.value, others), ExpandedPatterns(g, others, ps[i + 1..]));
    }
    assert ps[|ps|..] == [];
    assert ExpandedPatterns(g, others, []) == Ok([]) && acc + [] == acc;
    return Ok(acc);
  }

  /** One pattern of the expansion. */
  lemma ExpandedPatternsStep(g: Globber, others: seq<string>, ps: seq<string>, i: nat)
    requires i < |ps|
    ensures g(ps[i]).Err? ==> ExpandedPatterns(g, others, ps[i..]) == Err(GlobError(g(ps[i]).error, ps[i]))
    ensures g(ps[i]).Ok? ==>
      ExpandedPatterns(g, others, ps[i..]) == Prefixed(Filtered(g(ps[i]).value, others), ExpandedPatterns(g, others, ps[i + 1..]))
  {
    assert ps[i..][0] == ps[i] && ps[i..][1..] == ps[i + 1..];
  }

  /** The inner loop of expandGlobPatterns. */
  method AppendFiltered(names: seq<string>, paths: seq<string>, others: seq<string>) returns (r: seq<string>)
    ensures r == names + Filtered(paths, others)
  {
    r := names;
    for j := 0 to |paths|
      invariant r == names + Filtered(paths[..j], others)
    {
      ghost var kept := Filtered(paths[..j], others);
      FilteredStep(paths, others, j);
      if !IsOtherPlatformFile(paths[j], others) {
        r := r + [paths[j]];
        assert r == names + (kept + [paths[j]]);
      }
    }
    assert paths[..|paths|] == paths;
  }

  // ---------------------------------------------------------------- source discovery

  const SourceFilePatterns: seq<string> := ["*.cpp", "*.cc", "*.c", "*.m", "*.mm"]

  /** The language tag getSourceFileFilenames gives for the pattern that matched. */
  function PatternLanguage(pattern: string): string {
    if pattern == "*.c" then "c"
    else if pattern == "*.cpp" || pattern == "*.cc" then "c++"
    else if pattern == "*.m" then "objc"
    else if pattern == "*.mm" then "objc++"
    else ""
  }

  /** Each tag is the name of a language, and the pattern is one of util.go's
      patterns for that language. */
  lemma PatternLanguageNamesLanguage(k: nat)
    requires k < |SourceFilePatterns|
    ensures ParseLanguage(PatternLanguage(SourceFilePatterns[k])).Some?
    ensures SourceFilePatterns[k] in LanguageExtensions(ParseLanguage(PatternLanguage(SourceFilePatterns[k])).value)
  {
  }

  /** No pattern before `k` fails or matches anything once filtered. */
  predicate NoneBefore(g: Globber, others: seq<string>, ps: seq<string>, k: nat) {
    k <= |ps| && forall j :: 0 <= j < k ==> g(ps[j]).Ok? && Filtered(g(ps[j]).value, others) == []
  }

  /** The first pattern whose filtered matches are not empty, with those
      matches; a glob error on the way ends the search. */
  function FirstMatch(g: Globber, others: seq<string>, ps: seq<string>): Result<Option<(nat, seq<string>)>, string> {
    if ps == [] then Ok(None)
    else match g(ps[0])
      case Err(e) => Err(e)
      case Ok(m) =>
        if Filtered(m, others) != [] then Ok(Some((0, Filtered(m, others))))
        else match FirstMatch(g, others, ps[1..])
          case Err(e) => Err(e)
          case Ok(None) => Ok(None)
          case Ok(Some(found)) => Ok(Some((found.0 + 1, found.1)))
  }

  /** A pattern that globbed to nothing shifts the patterns before it by one. */
  lemma NoneBeforeShift(g: Globber, others: seq<string>, ps: seq<string>, k: nat)
    requires ps != [] && g(ps[0]).Ok? && Filtered(g(ps[0]).value, others) == []
    requires NoneBefore(g, others, ps[1..], k)
    ensures NoneBefore(g, others, ps, k + 1)
  {
    assert forall j :: 1 <= j < k + 1 ==> ps[j] == ps[1..][j - 1];
  }

  /** The search stops at the first pattern that fails or matches, and every
      pattern before it globbed to nothing. */
  lemma {:induction false} FirstMatchSpec(g: Globber, others: seq<string>, ps: seq<string>)
    ensures var r := FirstMatch(g, others, ps);
      (r.Ok? && r.value.Some? ==>
        var k := r.value.value.0;
        k < |ps| && NoneBefore(g, others, ps, k) && g(ps[k]).Ok?
        && r.value.value.1 == Filtered(g(ps[k]).value, others) && r.value.value.1 != [])
      && (r.Ok? && r.value.None? ==> NoneBefore(g, others, ps, |ps|))
      && (r.Err? ==> exists k: nat :: NoneBefore(g, others, ps, k) && k < |ps| && g(ps[k]) == Err(r.error))
    decreases |ps|
  {
    if ps != [] {
      if g(ps[0]).Err? {
        assert NoneBefore(g, others, ps, 0);
      } else if Filtered(g(ps[0]).value, others) == [] {
        var rest := FirstMatch(g, others, ps[1..]);
        FirstMatchSpec(g, others, ps[1..]);
        if rest.Err? {
          var k: nat :| NoneBefore(g, others, ps[1..], k) && k < |ps[1..]| && g(ps[1..][k]) == Err(rest.error);
          NoneBeforeShift(g, others, ps, k);
          assert ps[k + 1] == ps[1..][k];
        } else if rest.value.None? {
          NoneBeforeShift(g, others, ps, |ps[1..]|);
        } else {
          var k := rest.value.value.0;
          NoneBeforeShift(g, others, ps, k);
          assert ps[k + 1] == ps[1..][k];
        }
      }
    }
  }

  /** The result of getSourceFileFilenames, by its outcome. */
  datatype Discovery = Discovery(havefiles: bool, files: seq<string>, lang: string)

  function DiscoveryOf(g: Globber, others: seq<string>): Result<Discovery, string> {
    FirstMatchSpec(g, others, SourceFilePatterns);
    match FirstMatch(g, others, SourceFilePatterns)
    case Err(e) => Err(e)
    case Ok(None) => Ok(Discovery(false, [], ""))
    case Ok(Some(found)) => Ok(Discovery(true, found.1, PatternLanguage(SourceFilePatterns[found.0])))
  }

  /** The first pattern with files decides the language: C++ files hide C
      files, C files hide Objective-C files, and so on; nothing found gives no
      language. */
  lemma DiscoveryFirstPatternWins(g: Globber, others: seq<string>)
    requires DiscoveryOf(g, others).Ok?
    ensures var d := DiscoveryOf(g, others).value;
      (d.havefiles <==> d.files != []) && (d.havefiles <==> d.lang != "")
      && (d.lang == "c" ==> NoneBefore(g, others, SourceFilePatterns, 2))
      && (d.lang == "objc++" ==> NoneBefore(g, others, SourceFilePatterns, 4))
      && (!d.havefiles ==> NoneBefore(g, others, SourceFilePatterns, 5))
  {
    var r := FirstMatch(g, others, SourceFilePatterns);
    FirstMatchSpec(g, others, SourceFilePatterns);
    if r.value.Some? {
      var k := r.value.value.0;
      assert k < 5;
      assert k == 0 || k == 1 || k == 2 || k == 3 || k == 4;
    }
  }

  /** The result of determineOutput: exe when some source defines main,
      otherwise dll under -dll and lib without. */
  function DetermineOutputOf(p: PlatformSpecific, sources: seq<string>, mains: set<string>, dllflag: bool, opath: string): (FileType, string) {
    if exists i :: 0 <= i < |sources| && sources[i] in mains then (ExeFileType, OutputFilename(p, ExeFileType, opath))
    else if dllflag then (DllFileType, OutputFilename(p, DllFileType, opath))
    else (LibFileType, OutputFilename(p, LibFileType, opath))
  }

  /** The inferred name is always the name the inferred type gives `opath`. */
  lemma DetermineOutputNames(p: PlatformSpecific, sources: seq<string>, mains: set<string>, dllflag: bool, opath: string)
    ensures var r := DetermineOutputOf(p, sources, mains, dllflag, opath);
      r.1 == OutputFilename(p, r.0, opath)
      && (r.0 == ExeFileType <==> exists s :: s in sources && s in mains)
      && (r.0 == DllFileType <==> dllflag && forall s :: s in sources ==> s !in mains)
  {
    var r := DetermineOutputOf(p, sources, mains, dllflag, opath);
    if exists s :: s in sources && s in mains {
      var s :| s in sources && s in mains;
      var i :| 0 <= i < |sources| && sources[i] == s;
    }
  }

  /** The search ends at the first pattern that fails or matches. */
  lemma FirstMatchAt(g: Globber, others: seq<string>, ps: seq<string>, k: nat)
    requires NoneBefore(g, others, ps, k) && k < |ps|
    ensures g(ps[k]).Err? ==> FirstMatch(g, others, ps) == Err(g(ps[k]).error)
    ensures g(ps[k]).Ok? && Filtered(g(ps[k]).value, others) != [] ==>
      FirstMatch(g, others, ps) == Ok(Some((k, Filtered(g(ps[k]).value, others))))
  {
    var r := FirstMatch(g, others, ps);
    FirstMatchSpec(g, others, ps);
    if r.Err? {
      var k': nat :| NoneBefore(g, others, ps, k') && k' < |ps| && g(ps[k']) == Err(r.error);
      if k' > k {
        assert g(ps[k]).Ok? && Filtered(g(ps[k]).value, others) == [];
      }
    } else if r.value.Some? {
      if r.value.value.0 > k {
        assert g(ps[k]).Ok? && Filtered(g(ps[k]).value, others) == [];
      }
    } else {
      assert g(ps[k]).Ok? && Filtered(g(ps[k]).value, others) == [];
    }
  }

  /** When no pattern fails or matches, nothing is found. */
  lemma FirstMatchNone(g: Globber, others: seq<string>, ps: seq<string>)
    requires NoneBefore(g, others, ps, |ps|)
    ensures FirstMatch(g, others, ps) == Ok(None)
  {
    FirstMatchSpec(g, others, ps);
    if ps != [] {
      assert g(ps[0]).Ok? && Filtered(g(ps[0]).value, others) == [];
    }
  }

  // ---------------------------------------------------------------- the globals

  /** The package variables getVarsFromDmakeFile and getSourceFileFilenames
      assign. */
  datatype Globals = Globals(
    sourceFileFilenames: seq<string>,
    subdirectoryNames: seq<string>,
    outputFileType: FileType,
    outputFilename: string,
    installationPrefix: string)

  /** The SRCS step: the matches are appended to the source files; on a glob
      error the list is dropped. */
  function SrcsStage(g: Globber, others: seq<string>, vars: Store, s: Globals): (r: (Globals, Option<string>))
    ensures "SRCS" !in vars ==> r == (s, None)
    ensures r.0 == s.(sourceFileFilenames := r.0.sourceFileFilenames)
    ensures "SRCS" in vars && r.1.None? ==>
      r.0.sourceFileFilenames != []
      && ExpandedPatterns(g, others, Fields(vars["SRCS"])).Ok?
      && r.0.sourceFileFilenames == s.sourceFileFilenames + ExpandedPatterns(g, others, Fields(vars["SRCS"])).value
  {
    if "SRCS" !in vars then (s, None)
    else match Prefixed(s.sourceFileFilenames, ExpandedPatterns(g, others, Fields(vars["SRCS"])))
      case Err(e) => (s.(sourceFileFilenames := []), Some(e))
      case Ok(files) =>
        (s.(sourceFileFilenames := files),
         if |files| < 1 then Some("SRCS=" + vars["SRCS"] + " matches no source files") else None)
  }

  /** The PREFIX step: a prefix from the command line or the environment wins. */
  function PrefixStage(vars: Store, s: Globals): (r: Globals)
    ensures s.installationPrefix != "" || "PREFIX" !in vars ==> r == s
    ensures s.installationPrefix == "" && "PREFIX" in vars ==> r == s.(installationPrefix := vars["PREFIX"])
  {
    if "PREFIX" in vars && s.installationPrefix == "" then s.(installationPrefix := vars["PREFIX"]) else s
  }

  /** The DIRS step, like SRCS for the sub-directory names. Its error is the
      corrected one, which shows the DIRS value; main.go:487 prints the SRCS
      patterns instead (Dmake.DirsMessageAsWritten). */
  function DirsStage(g: Globber, others: seq<string>, vars: Store, s: Globals): (r: (Globals, Option<string>))
    ensures "DIRS" !in vars ==> r == (s, None)
    ensures r.0 == s.(subdirectoryNames := r.0.subdirectoryNames)
    ensures "DIRS" in vars && r.1.None? ==>
      r.0.subdirectoryNames != []
      && ExpandedPatterns(g, others, Fields(vars["DIRS"])).Ok?
      && r.0.subdirectoryNames == s.subdirectoryNames + ExpandedPatterns(g, others, Fields(vars["DIRS"])).value
  {
    if "DIRS" !in vars then (s, None)
    else match Prefixed(s.subdirectoryNames, ExpandedPatterns(g, others, Fields(vars["DIRS"])))
      case Err(e) => (s.(subdirectoryNames := []), Some(e))
      case Ok(names) =>
        (s.(subdirectoryNames := names), if |names| < 1 then Some(Dmake.DirsMessage(vars["DIRS"])) else None)
  }

  /** A type already set that differs from `fileType`. */
  predicate Conflicts(current: FileType, fileType: FileType) {
    current != NoFileType && current != fileType
  }

  /** The checkVar closure: a defined `key` sets the type and the name made
      from its value, unless another type is already set. The conflict error
      is the corrected one, which names `key`; main.go:492-494 shadows the key
      by its value and prints that instead (Dmake.ConflictMessageAsWritten). */
  function CheckVarStage(p: PlatformSpecific, vars: Store, s: Globals, key: string, fileType: FileType): (r: (Globals, Option<string>))
    ensures r.0 == s.(outputFileType := r.0.outputFileType, outputFilename := r.0.outputFilename)
  {
    if key !in vars then (s, None)
    else if Conflicts(s.outputFileType, fileType) then (s, Some(Dmake.ConflictMessage(key, DccOption(s.outputFileType))))
    else (s.(outputFileType := fileType, outputFilename := OutputFilename(p, fileType, vars[key])), None)
  }

  /** An undefined key changes nothing; a defined one conflicts exactly when
      another type is already set, and otherwise sets the type and the name. */
  lemma CheckVarStageMeaning(p: PlatformSpecific, vars: Store, s: Globals, key: string, fileType: FileType)
    ensures var r := CheckVarStage(p, vars, s, key, fileType);
      (key !in vars ==> r == (s, None))
      && (r.1.Some? <==> key in vars && s.outputFileType != NoFileType && s.outputFileType != fileType)
      && (r.1.Some? ==> r.0 == s && r.1.value == Dmake.ConflictMessage(key, DccOption(s.outputFileType)))
      && (r.1.None? && key in vars ==>
            r.0 == s.(outputFileType := fileType, outputFilename := OutputFilename(p, fileType, vars[key])))
  {
  }

  /** DLL, then EXE, then LIB; the first conflict stops the checks. */
  function CheckVarsStage(p: PlatformSpecific, vars: Store, s: Globals): (Globals, Option<string>) {
    var r1 := CheckVarStage(p, vars, s, "DLL", DllFileType);
    if r1.1.Some? then r1 else
    var r2 := CheckVarStage(p, vars, r1.0, "EXE", ExeFileType);
    if r2.1.Some? then r2 else
    CheckVarStage(p, vars, r2.0, "LIB", LibFileType)
  }

  /** What getVarsFromDmakeFile does with the variables it read. */
  function GetVarsOf(g: Globber, others: seq<string>, p: PlatformSpecific, vars: Store, s: Globals): (Globals, Option<string>) {
    var r1 := SrcsStage(g, others, vars, s);
    if r1.1.Some? then r1 else
    var r2 := DirsStage(g, others, vars, PrefixStage(vars, r1.0));
    if r2.1.Some? then r2 else
    CheckVarsStage(p, vars, r2.0)
  }

  function GetVarsFromDmakeFileOf(g: Globber, others: seq<string>, p: PlatformSpecific, lines: seq<string>, path: string,
                                  goos: string, goarch: string, s: Globals): (Globals, Option<string>) {
    match ReadDmakeFileOf(lines, path, goos, goarch)
    case Err(e) => (s, Some(e))
    case Ok(vars) => GetVarsOf(g, others, p, vars, s)
  }

  /** At most one of DLL, EXE and LIB may be defined, and only one that
      agrees with a type already set; the first of them in that order sets
      the type and the name, and a second is reported by the corrected
      conflict error, which names it (main.go:494 prints its value instead). */
  lemma CheckVarsConflicts(p: PlatformSpecific, vars: Store, s: Globals)
    ensures var r := CheckVarsStage(p, vars, s);
      var dll, exe, lib := "DLL" in vars, "EXE" in vars, "LIB" in vars;
      (r.1.None? <==>
        !(dll && exe) && !(dll && lib) && !(exe && lib)
        && (dll ==> s.outputFileType in {NoFileType, DllFileType})
        && (exe ==> s.outputFileType in {NoFileType, ExeFileType})
        && (lib ==> s.outputFileType in {NoFileType, LibFileType}))
      && (r.1.None? && dll ==> r.0.outputFileType == DllFileType && r.0.outputFilename == OutputFilename(p, DllFileType, vars["DLL"]))
      && (r.1.None? && exe ==> r.0.outputFileType == ExeFileType && r.0.outputFilename == OutputFilename(p, ExeFileType, vars["EXE"]))
      && (r.1.None? && lib ==> r.0.outputFileType == LibFileType && r.0.outputFilename == OutputFilename(p, LibFileType, vars["LIB"]))
      && (!dll && !exe && !lib ==> r == (s, None))
      && (s.outputFileType == NoFileType && dll && exe ==> r.1 == Some(Dmake.ConflictMessage("EXE", DccOption(DllFileType))))
  {
    var r1 := CheckVarStage(p, vars, s, "DLL", DllFileType);
    var r2 := CheckVarStage(p, vars, r1.0, "EXE", ExeFileType);
    CheckVarStageMeaning(p, vars, s, "DLL", DllFileType);
    CheckVarStageMeaning(p, vars, r1.0, "EXE", ExeFileType);
    CheckVarStageMeaning(p, vars, r2.0, "LIB", LibFileType);
  }

  /** PREFIX fills in only an empty prefix; SRCS and DIRS append to what the
      globals already held. */
  lemma GetVarsKeeps(g: Globber, others: seq<string>, p: PlatformSpecific, vars: Store, s: Globals)
    requires GetVarsOf(g, others, p, vars, s).1.None?
    ensures var r := GetVarsOf(g, others, p, vars, s).0;
      r.installationPrefix == (if s.installationPrefix == "" && "PREFIX" in vars then vars["PREFIX"] else s.installationPrefix)
      && ("SRCS" !in vars ==> r.sourceFileFilenames == s.sourceFileFilenames)
      && ("SRCS" in vars ==> r.sourceFileFilenames == s.sourceFileFilenames + ExpandedPatterns(g, others, Fields(vars["SRCS"])).value)
      && ("DIRS" !in vars ==> r.subdirectoryNames == s.subdirectoryNames)
      && ("DIRS" in vars ==> r.subdirectoryNames == s.subdirectoryNames + ExpandedPatterns(g, others, Fields(vars["DIRS"])).value)
  {
    var r1 := SrcsStage(g, others, vars, s);
    var r2 := DirsStage(g, others, vars, PrefixStage(vars, r1.0));
    var c1 := CheckVarStage(p, vars, r2.0, "DLL", DllFileType);
    var c2 := CheckVarStage(p, vars, c1.0, "EXE", ExeFileType);
    var c3 := CheckVarStage(p, vars, c2.0, "LIB", LibFileType);
    assert GetVarsOf(g, others, p, vars, s).0 == (if c1.1.Some? then c1.0 else if c2.1.Some? then c2.0 else c3.0);
  }

  /** The program's package state. */
  class Session {
    const platform: PlatformSpecific
    const others: seq<string>
    var sourceFileFilenames: seq<string>
    var subdirectoryNames: seq<string>
    var outputFileType: FileType
    var outputFilename: string
    var installationPrefix: string

    /** The globals at start-up, for a host with profile `platform` whose
        other-platform names are `others`. */
    constructor (platform: PlatformSpecific, others: seq<string>)
      ensures this.platform == platform && this.others == others
      ensures State() == Globals([], [], NoFileType, "", "")
    {
      this.platform := platform;
      this.others := others;
      sourceFileFilenames := [];
      subdirectoryNames := [];
      outputFileType := NoFileType;
      outputFilename := "";
      installationPrefix := "";
    }

    function State(): Globals
      reads this
    {
      Globals(sourceFileFilenames, subdirectoryNames, outputFileType, outputFilename, installationPrefix)
    }

    /** getVarsFromDmakeFile, over the lines of the file. */
    method GetVarsFromDmakeFile(g: Globber, lines: seq<string>, path: string, goos: string, goarch: string) returns (err: Option<string>)
      modifies this
      ensures State() == GetVarsFromDmakeFileOf(g, others, platform, lines, path, goos, goarch, old(State())).0 && err == GetVarsFromDmakeFileOf(g, others, platform, lines, path, goos, goarch, old(State())).1
    {
      var read := ReadDmakeFile(lines, path, goos, goarch);
      if read.Err? {
        return Some(read.error);
      }
      var vars := read.value;
      err := SetSources(g, vars);
      if err.Some? {
        return;
      }
      if "PREFIX" in vars && installationPrefix == "" {
        installationPrefix := vars["PREFIX"];
      }
      err := SetDirectories(g, vars);
      if err.Some? {
        return;
      }
      err := CheckVar(vars, "DLL", DllFileType);
      if err.Some? {
        return;
      }
      err := CheckVar(vars, "EXE", ExeFileType);
      if err.Some? {
        return;
      }
      err := CheckVar(vars, "LIB", LibFileType);
    }

    /** The SRCS part of getVarsFromDmakeFile. */
    method SetSources(g: Globber, vars: Store) returns (err: Option<string>)
      modifies this
      ensures State() == SrcsStage(g, others, vars, old(State())).0 && err == SrcsStage(g, others, vars, old(State())).1
    {
      if "SRCS" in vars {
        var patterns := vars["SRCS"];
        var expanded := ExpandGlobPatterns(g, others, patterns, sourceFileFilenames);
        if expanded.Err? {
          sourceFileFilenames := [];
          return Some(expanded.error);
        }
        sourceFileFilenames := expanded.value;
        if |sourceFileFilenames| < 1 {
          return Some("SRCS=" + patterns + " matches no source files");
        }
      }
      return None;
    }

    /** The DIRS part of getVarsFromDmakeFile. */
    method SetDirectories(g: Globber, vars: Store) returns (err: Option<string>)
      modifies this
      ensures State() == DirsStage(g, others, vars, old(State())).0 && err == DirsStage(g, others, vars, old(State())).1
    {
      if "DIRS" in vars {
        var directories := vars["DIRS"];
        var expanded := ExpandGlobPatterns(g, others, directories, subdirectoryNames);
        if expanded.Err? {
          subdirectoryNames := [];
          return Some(expanded.error);
        }
        subdirectoryNames := expanded.value;
        if |subdirectoryNames| < 1 {
          return Some(Dmake.DirsMessage(directories));
        }
      }
      return None;
    }

    /** The checkVar closure. */
    method CheckVar(vars: Store, key: string, fileType: FileType) returns (err: Option<string>)
      modifies this
      ensures (State(), err) == CheckVarStage(platform, vars, old(State()), key, fileType)
    {
      if key !in vars {
        return None;
      }
      if Conflicts(outputFileType, fileType) {
        return Some(Dmake.ConflictMessage(key, DccOption(outputFileType)));
      }
      SetOutput(fileType, vars[key]);
      return None;
    }

    /** The type and the name made from `stem` for it, as checkVar sets them. */
    method SetOutput(fileType: FileType, stem: string)
      modifies this
      ensures State() == old(State()).(outputFileType := fileType, outputFilename := OutputFilename(platform, fileType, stem))
    {
      outputFileType, outputFilename := fileType, OutputFilename(platform, fileType, stem);
    }

    /** getSourceFileFilenames: the files of the first pattern that has any,
        and the language that pattern stands for. A glob error is fatal. */
    method GetSourceFileFilenames(g: Globber) returns (havefiles: bool, lang: string, fatal: Option<string>)
      modifies this
      ensures State() == old(State()).(sourceFileFilenames := sourceFileFilenames)
      ensures DiscoveryOf(g, others).Err? ==> fatal == Some(DiscoveryOf(g, others).error)
      ensures DiscoveryOf(g, others).Ok? ==>
        fatal.None? && DiscoveryOf(g, others).value == Discovery(havefiles, sourceFileFilenames, lang)
    {
      var i := 0;
      havefiles := false;
      while i < |SourceFilePatterns|
        invariant i <= |SourceFilePatterns|
        invariant NoneBefore(g, others, SourceFilePatterns, i)
        invariant i > 0 ==> sourceFileFilenames == []
        invariant State() == old(State()).(sourceFileFilenames := sourceFileFilenames)
      {
        var pattern := SourceFilePatterns[i];
        var names, matched, err := Glob(g, others, pattern);
        if err.Some? {
          FirstMatchAt(g, others, SourceFilePatterns, i);
          return false, "", err;
        }
        sourceFileFilenames := names;
        if matched {
          FirstMatchAt(g, others, SourceFilePatterns, i);
          return true, PatternLanguage(pattern), None;
        }
        i := i + 1;
      }
      FirstMatchNone(g, others, SourceFilePatterns);
      return false, "", None;
    }

    /** determineOutput: the scan over the sources stops at the first that
        defines main(). */
    method DetermineOutput(opath: string, mains: set<string>, dllflag: bool) returns (fileType: FileType, filename: string)
      ensures (fileType, filename) == DetermineOutputOf(platform, sourceFileFilenames, mains, dllflag, opath)
    {
      fileType := NoFileType;
      for i := 0 to |sourceFileFilenames|
        invariant forall j :: 0 <= j < i ==> sourceFileFilenames[j] !in mains
      {
        if sourceFileFilenames[i] in mains {
          return ExeFileType, OutputFilename(platform, ExeFileType, opath);
        }
      }
      if dllflag {
        fileType, filename := DllFileType, OutputFilename(platform, DllFileType, opath);
      } else {
        fileType, filename := LibFileType, OutputFilename(platform, LibFileType, opath);
      }
    }
  }

  // ---------------------------------------------------------------- the command line

  /** An argument of the form <name>=<value>, with a non-empty name, goes to
      the environment of the build. */
  predicate IsAssignmentArg(arg: string) {
    IndexOf(arg, '=') >= 1
  }

  lemma AssignmentArgShape(arg: string)
    ensures IsAssignmentArg(arg) <==> |arg| > 0 && arg[0] != '=' && '=' in arg
  {
    var k := IndexOf(arg, '=');
    if k >= 1 {
      assert arg[0] in arg[..k];
    }
  }

  /** The arguments that are not assignments, in order. */
  function PlainArgs(argv: seq<string>): seq<string> {
    if argv == [] then []
    else
      var last := argv[|argv| - 1];
      PlainArgs(argv[..|argv| - 1]) + (if IsAssignmentArg(last) then [] else [last])
  }

  /** The assignments, in order. */
  function AssignmentArgs(argv: seq<string>): seq<string> {
    if argv == [] then []
    else
      var last := argv[|argv| - 1];
      AssignmentArgs(argv[..|argv| - 1]) + (if IsAssignmentArg(last) then [last] else [])
  }

  /** One more argument goes to exactly one of the two lists. */
  lemma SplitArgsStep(argv: seq<string>, arg: string)
    ensures PlainArgs(argv + [arg]) == PlainArgs(argv) + (if IsAssignmentArg(arg) then [] else [arg])
    ensures AssignmentArgs(argv + [arg]) == AssignmentArgs(argv) + (if IsAssignmentArg(arg) then [arg] else [])
  {
    assert (argv + [arg])[..|argv|] == argv;
  }

  /** Every argument lands in exactly one of the two lists. */
  lemma {:induction false} SplitArgsPartition(argv: seq<string>)
    ensures multiset(PlainArgs(argv)) + multiset(AssignmentArgs(argv)) == multiset(argv)
    decreases |argv|
  {
    if argv != [] {
      var init, last := argv[..|argv| - 1], argv[|argv| - 1];
      assert argv == init + [last];
      assert multiset(argv) == multiset(init) + multiset{last};
      SplitArgsPartition(init);
      SplitArgsCount(init, last);
    }
  }

  lemma SplitArgsCount(init: seq<string>, last: string)
    ensures multiset(PlainArgs(init + [last])) + multiset(AssignmentArgs(init + [last]))
      == multiset(PlainArgs(init)) + multiset(AssignmentArgs(init)) + multiset{last}
  {
    SplitArgsStep(init, last);
    var p, a := PlainArgs(init), AssignmentArgs(init);
    if IsAssignmentArg(last) {
      assert PlainArgs(init + [last]) == p && AssignmentArgs(init + [last]) == a + [last];
      assert multiset(a + [last]) == multiset(a) + multiset{last};
    } else {
      assert PlainArgs(init + [last]) == p + [last] && AssignmentArgs(init + [last]) == a;
      assert multiset(p + [last]) == multiset(p) + multiset{last};
    }
  }

  /** Each list holds only arguments of its own kind. */
  lemma {:induction false} SplitArgsSides(argv: seq<string>)
    ensures forall a :: a in AssignmentArgs(argv) ==> IsAssignmentArg(a)
    ensures forall a :: a in PlainArgs(argv) ==> !IsAssignmentArg(a)
    decreases |argv|
  {
    if argv != [] {
      var init, last := argv[..|argv| - 1], argv[|argv| - 1];
      SplitArgsSides(init);
      SplitArgsStep(init, last);
      assert argv == init + [last];
    }
  }

  /** The loop of main over flag.Args(): the plain arguments, and the
      environment extended by the assignments. */
  method SplitArgs(argv: seq<string>, env: seq<string>) returns (args: seq<string>, newEnv: seq<string>)
    ensures args == PlainArgs(argv) && newEnv == env + AssignmentArgs(argv)
  {
    args, newEnv := [], env;
    for i := 0 to |argv|
      invariant args == PlainArgs(argv[..i]) && newEnv == env + AssignmentArgs(argv[..i])
    {
      var arg := argv[i];
      SplitArgsStep(argv[..i], arg);
      assert argv[..i + 1] == argv[..i] + [arg];
      if IndexOf(arg, '=') < 1 {
        args := args + [arg];
      } else {
        newEnv := newEnv + [arg];
      }
    }
    assert argv[..|argv|] == argv;
  }

  /** What a make run is asked to do. */
  datatype Invocation = Invocation(
    cleaning: bool,
    installing: bool,
    outputFileType: FileType,
    outputFilename: string,
    subdirs: seq<string>)

  /** What main does after reading its arguments. */
  datatype Command =
    | UsageExit                        // flag.Usage() and exit status 1
    | InitProject(options: seq<string>)
    | Make(inv: Invocation)

  const TypeWords: set<string> := {"dll", "exe", "lib"}

  function FileTypeOfWord(w: string): FileType {
    if w == "dll" then DllFileType else if w == "exe" then ExeFileType else LibFileType
  }

  /** The invocation of `dmake dll|exe|lib`: the type named, and the -o name
      or the default name made into a file name of that type. */
  function Typed(word: string, oflag: string, p: PlatformSpecific, defaultOutput: string): Invocation {
    var fileType := FileTypeOfWord(word);
    Invocation(false, false, fileType, if oflag != "" then oflag else OutputFilename(p, fileType, defaultOutput), [])
  }

  /** The switch of main as written: after dll, exe or lib the second argument
      goes through checkarg("clean") and then checkarg("install"), and the
      first call already rejects anything other than "clean". */
  function ParseCommandAsWritten(args: seq<string>, oflag: string, p: PlatformSpecific, defaultOutput: string): Command {
    var plain := Invocation(false, false, NoFileType, defaultOutput, []);
    if args == [] then Make(plain)
    else if args[0] == "init" then InitProject(args[1..])
    else if args[0] == "install" then (if |args| > 1 then UsageExit else Make(plain.(installing := true)))
    else if args[0] == "clean" then (if |args| > 1 then UsageExit else Make(plain.(cleaning := true)))
    else if args[0] in TypeWords then
      var typed := Typed(args[0], oflag, p, defaultOutput);
      if |args| < 2 then Make(typed)
      else if |args| > 2 || args[1] != "clean" then UsageExit
      else Make(typed.(cleaning := true))
    else Make(plain.(subdirs := args))
  }

  /** The switch of main as the usage text describes it:
      `dmake [dll|exe|lib] [clean|install]`, `dmake init ...` or
      `dmake <dir>...`. */
  function ParseCommand(args: seq<string>, oflag: string, p: PlatformSpecific, defaultOutput: string): (r: Command)
    ensures r.InitProject? <==> |args| > 0 && args[0] == "init"
    ensures r.InitProject? ==> r.options == args[1..]
    ensures r == UsageExit <==>
      |args| > 1 && (args[0] in {"install", "clean"} || (args[0] in TypeWords && (|args| > 2 || args[1] !in {"clean", "install"})))
    ensures r.Make? ==> !(r.inv.cleaning && r.inv.installing)
    ensures r.Make? ==>
      (r.inv.cleaning <==> args != [] && args[|args| - 1] == "clean" && (|args| == 1 || args[0] in TypeWords))
    ensures r.Make? ==>
      (r.inv.installing <==> args != [] && args[|args| - 1] == "install" && (|args| == 1 || args[0] in TypeWords))
    ensures r.Make? && args != [] && args[0] in TypeWords ==>
      r.inv.outputFileType == FileTypeOfWord(args[0]) && r.inv.subdirs == []
      && r.inv.outputFilename == (if oflag != "" then oflag else OutputFilename(p, FileTypeOfWord(args[0]), defaultOutput))
    ensures r.Make? && (args == [] || args[0] !in TypeWords) ==>
      r.inv.outputFileType == NoFileType && r.inv.outputFilename == defaultOutput
    ensures r.Make? ==>
      (r.inv.subdirs != [] <==> args != [] && args[0] !in TypeWords + {"install", "clean"})
      && (r.inv.subdirs != [] ==> r.inv.subdirs == args)
  {
    var plain := Invocation(false, false, NoFileType, defaultOutput, []);
    if args == [] then Make(plain)
    else if args[0] == "init" then InitProject(args[1..])
    else if args[0] == "install" then (if |args| > 1 then UsageExit else Make(plain.(installing := true)))
    else if args[0] == "clean" then (if |args| > 1 then UsageExit else Make(plain.(cleaning := true)))
    else if args[0] in TypeWords then
      var typed := Typed(args[0], oflag, p, defaultOutput);
      if |args| < 2 then Make(typed)
      else if |args| > 2 then UsageExit
      else if args[1] == "clean" then Make(typed.(cleaning := true))
      else if args[1] == "install" then Make(typed.(installing := true))
      else UsageExit
    else Make(plain.(subdirs := args))
  }

  /** `dmake exe install`, offered by the usage text, exits with the usage
      message; the corrected switch installs. */
  lemma TypedInstallAsWritten(word: string, oflag: string, p: PlatformSpecific, defaultOutput: string)
    requires word in TypeWords
    ensures ParseCommandAsWritten([word, "install"], oflag, p, defaultOutput) == UsageExit
    ensures ParseCommand([word, "install"], oflag, p, defaultOutput) == Make(Typed(word, oflag, p, defaultOutput).(installing := true))
  {
  }

  /** The two switches differ only there. */
  lemma ParseCommandAgreesElsewhere(args: seq<string>, oflag: string, p: PlatformSpecific, defaultOutput: string)
    requires !(|args| == 2 && args[0] in TypeWords && args[1] == "install")
    ensures ParseCommandAsWritten(args, oflag, p, defaultOutput) == ParseCommand(args, oflag, p, defaultOutput)
  {
  }
}
