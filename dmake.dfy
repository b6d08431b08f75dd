/** dmake.go: the Dmake build descriptor of one directory, reading its
    `.dmake` file, the walk over sub-directories, and the clean, build and
    install actions, which here append to the process's log instead of
    running dcc or the installer. */
module Dmake {
  import opened Wrappers
  import opened Text
  import opened Paths
  import opened Enums
  import opened Platform
  import opened VarsApi
  import opened Workspace
  import opened Util

  const DmakeFileFilename := ".dmake"
  const DefaultDepsFileDir := ".dcc.d"
  const DefaultObjFileDir := ".objs"
  const DefaultBuildMode := "debug"
  const DefaultCStandard := "c11"
  const DefaultCxxStandard := "c++14"

  const NoSourcesMessage := "no C, Objective-C++, Objective-C or C++ source files found"

  /** The process-wide settings dmake.go reads: command-line flags, the
      object and dependency directories, and the host platform. */
  datatype Context = Context(
    platform: PlatformSpecific,
    others: seq<string>,           // the other platforms' names
    pluginName: string -> string,  // platform.PluginFilename, which is not part of this model
    familyOrder: seq<Language>,    // the order Go's map iteration gives in SourceFiles
    langflag: Language,
    objsdir: string,
    depsdir: string,
    dllflag: bool,
    pluginflag: bool,
    keepgoing: bool,
    dccdebug: bool,
    quiet: bool)

  /** How an operation fails: an error value, a Go panic, which unwinds
      everything, or log.Fatal, which ends the process. */
  datatype Failure = Error(message: string) | Panic(message: string) | Fatal(message: string)

  /** The fields of a Dmake, as a value. */
  datatype Desc = Desc(
    sourceFiles: seq<string>,
    outputtype: OutputType,
    outputname: string,
    outputnameDefaulted: bool,
    defaultoutput: string,
    installprefix: string,
    directories: seq<string>)

  /** The failure of a step that may fail, as Run sees it. */
  function AsError(e: Option<string>): Option<Failure> {
    match e
    case None => None
    case Some(m) => Some(Error(m))
  }

  // ---------------------------------------------------------------- NewDmake

  /** The default output name for a directory: its base name, or its parent's
      when the base is exactly "src" or "source". */
  function DefaultOutput(dir: string): string {
    var basename := Base(dir);
    if basename == "src" || basename == "source" then Base(Dir(dir)) else basename
  }

  /** A project whose sources sit in `<p>/src` or `<p>/source` is named after
      `p`; any other directory is named after itself. */
  lemma DefaultOutputOfSourceDir(parent: string, name: string)
    requires IsDirForm(parent) && IsElement(name)
    ensures name == "src" || name == "source" ==> DefaultOutput(Join(parent, name)) == Base(parent)
    ensures name != "src" && name != "source" ==> DefaultOutput(Join(parent, name)) == name
  {
    var dir := Join(parent, name);
    BaseOfJoin(parent, name);
    DirOfJoin(parent, name);
    assert Base(dir) == name && Dir(dir) == parent;
  }

  // ---------------------------------------------------------------- InitFromVars

  /** The error for a DIRS value that names nothing. */
  function DirsMessage(directories: string): string {
    "DIRS=" + directories + " matches no names"
  }

  /** The error as written: it prints the SRCS patterns, not the DIRS value. */
  function DirsMessageAsWritten(patterns: string, directories: string): string {
    "DIRS=" + patterns + " matches no names"
  }

  /** With no SRCS, the message as written shows an empty value and never the
      DIRS patterns that failed. */
  lemma DirsMessageAsWrittenHidesPatterns(directories: string)
    requires directories != []
    ensures DirsMessageAsWritten("", directories) == "DIRS= matches no names"
    ensures DirsMessageAsWritten("", directories) != DirsMessage(directories)
  {
    assert |DirsMessage(directories)| > |DirsMessageAsWritten("", directories)|;
  }

  /** The corrected message shows the DIRS value after "DIRS=". */
  lemma DirsMessageShowsPatterns(directories: string)
    ensures HasPrefix(DirsMessage(directories), "DIRS=" + directories)
  {
    assert DirsMessage(directories)[..|"DIRS=" + directories|] == "DIRS=" + directories;
  }

  /** The conflict error. `key` is the variable that conflicts. */
  function ConflictMessage(key: string, current: string): string {
    key + " definition conflicts with " + current
  }

  /** The conflict error as written: the `if name, exists := ...` shadows the
      variable's name by its value, so the message starts with the value. */
  function ConflictMessageAsWritten(key: string, value: string, current: string): string {
    value + " definition conflicts with " + current
  }

  /** A value that does not start with the key gives a message as written that
      does not name the variable. */
  lemma ConflictMessageAsWrittenNamesValue(key: string, value: string, current: string)
    requires key != [] && value != [] && key[0] != value[0]
    ensures !HasPrefix(ConflictMessageAsWritten(key, value, current), key)
    ensures HasPrefix(ConflictMessage(key, current), key)
  {
    assert ConflictMessageAsWritten(key, value, current)[0] == value[0];
    assert ConflictMessage(key, current)[..|key|] == key;
  }

  /** The SRCS step of InitFromVars: only the source files change, and a
      successful step leaves at least one. */
  function SrcsOf(ctx: Context, g: Globber, vars: map<string, string>, d: Desc): (r: (Desc, Option<Failure>))
    ensures "SRCS" !in vars ==> r == (d, None)
    ensures r.0 == d.(sourceFiles := r.0.sourceFiles)
    ensures "SRCS" in vars && r.1.None? ==> r.0.sourceFiles != []
  {
    if "SRCS" !in vars then (d, None)
    else match ExpandedGlobs(g, ctx.others, Fields(vars["SRCS"]))
      case Err(e) => (d.(sourceFiles := []), Some(Error(e)))
      case Ok(files) =>
        (d.(sourceFiles := files),
         if files == [] then Some(Error("SRCS=" + vars["SRCS"] + " matches no source files")) else None)
  }

  /** The PREFIX step: the .dmake prefix applies only when none was given. */
  function PrefixOf(vars: map<string, string>, d: Desc): (r: Desc)
    ensures d.installprefix != "" ==> r == d
    ensures d.installprefix == "" && "PREFIX" in vars ==> r == d.(installprefix := vars["PREFIX"])
  {
    if "PREFIX" in vars && d.installprefix == "" then d.(installprefix := vars["PREFIX"]) else d
  }

  /** The DIRS step: only the directories change, and a successful step
      leaves at least one. Its error is the corrected DirsMessage; dmake.go:548
      prints the SRCS patterns instead (DirsMessageAsWritten). */
  function DirsOf(ctx: Context, g: Globber, vars: map<string, string>, d: Desc): (r: (Desc, Option<Failure>))
    ensures "DIRS" !in vars ==> r == (d, None)
    ensures r.0 == d.(directories := r.0.directories)
    ensures "DIRS" in vars && r.1.None? ==> r.0.directories != []
  {
    if "DIRS" !in vars then (d, None)
    else match ExpandedGlobs(g, ctx.others, Fields(vars["DIRS"]))
      case Err(e) => (d.(directories := []), Some(Error(e)))
      case Ok(dirs) =>
        (d.(directories := dirs), if dirs == [] then Some(Error(DirsMessage(vars["DIRS"]))) else None)
  }

  /** One checkVar: a defined `key` sets the type and the decorated name,
      unless a different type is already known. Its error is the corrected
      ConflictMessage; dmake.go:553-555 prints the value instead of the key
      (ConflictMessageAsWritten). */
  function CheckVarOf(ctx: Context, vars: map<string, string>, d: Desc, key: string, t: OutputType): (r: (Desc, Option<Failure>))
    requires t != UnknownOutputType
    ensures r.0 == d.(outputtype := r.0.outputtype, outputname := r.0.outputname)
  {
    if key !in vars then (d, None)
    else if d.outputtype != UnknownOutputType && d.outputtype != t then
      match OutputTypeString(d.outputtype)
      case None => (d, Some(Panic("unexpected OutputType")))
      case Some(current) => (d, Some(Error(ConflictMessage(key, current))))
    else (d.(outputtype := t, outputname := FilenameForType(ctx.platform, ctx.pluginName, t, vars[key]).value), None)
  }

  /** An undefined key changes nothing; a defined one fails exactly when a
      different type is already known, and otherwise sets the type and the
      decorated name. */
  lemma CheckVarOfMeaning(ctx: Context, vars: map<string, string>, d: Desc, key: string, t: OutputType)
    requires t != UnknownOutputType
    ensures var r := CheckVarOf(ctx, vars, d, key, t);
      (key !in vars ==> r == (d, None))
      && (r.1.Some? <==> key in vars && d.outputtype != UnknownOutputType && d.outputtype != t)
      && (r.1.Some? ==> r.0 == d)
      && (r.1.None? && key in vars ==>
            r.0 == d.(outputtype := t, outputname := FilenameForType(ctx.platform, ctx.pluginName, t, vars[key]).value))
  {
  }

  /** The four checkVar calls, in order; the first failure stops them. Only
      the type and the output name change. */
  function CheckVarsOf(ctx: Context, vars: map<string, string>, d: Desc): (r: (Desc, Option<Failure>))
    ensures r.0 == d.(outputtype := r.0.outputtype, outputname := r.0.outputname)
  {
    var r1 := CheckVarOf(ctx, vars, d, "DLL", DllOutputType);
    if r1.1.Some? then r1 else
    var r2 := CheckVarOf(ctx, vars, r1.0, "PLUGIN", PluginOutputType);
    if r2.1.Some? then r2 else
    var r3 := CheckVarOf(ctx, vars, r2.0, "EXE", ExeOutputType);
    if r3.1.Some? then r3 else
    CheckVarOf(ctx, vars, r3.0, "LIB", LibOutputType)
  }

  /** What InitFromVars does to a descriptor. */
  function InitFromVarsOf(ctx: Context, g: Globber, vars: map<string, string>, d: Desc): (Desc, Option<Failure>) {
    var r1 := SrcsOf(ctx, g, vars, d);
    if r1.1.Some? then r1 else
    var r3 := DirsOf(ctx, g, vars, PrefixOf(vars, r1.0));
    if r3.1.Some? then r3 else
    CheckVarsOf(ctx, vars, r3.0)
  }

  /** A type that was already known and differs from a defined type variable
      is a conflict: InitFromVars never silently replaces it. */
  lemma CheckVarsKeepKnownType(ctx: Context, vars: map<string, string>, d: Desc)
    requires d.outputtype != UnknownOutputType
    ensures CheckVarsOf(ctx, vars, d).1.None? ==> CheckVarsOf(ctx, vars, d).0.outputtype == d.outputtype
  {
    var r1 := CheckVarOf(ctx, vars, d, "DLL", DllOutputType);
    CheckVarOfMeaning(ctx, vars, d, "DLL", DllOutputType);
    if r1.1.None? {
      var r2 := CheckVarOf(ctx, vars, r1.0, "PLUGIN", PluginOutputType);
      CheckVarOfMeaning(ctx, vars, r1.0, "PLUGIN", PluginOutputType);
      if r2.1.None? {
        var r3 := CheckVarOf(ctx, vars, r2.0, "EXE", ExeOutputType);
        CheckVarOfMeaning(ctx, vars, r2.0, "EXE", ExeOutputType);
        if r3.1.None? {
          CheckVarOfMeaning(ctx, vars, r3.0, "LIB", LibOutputType);
        }
      }
    }
  }

  /** With no type known beforehand, the first of DLL, PLUGIN, EXE, LIB that
      is defined decides the type, and defining a second, different one is an
      error. */
  lemma CheckVarsFirstDecides(ctx: Context, vars: map<string, string>, d: Desc)
    requires d.outputtype == UnknownOutputType
    ensures "DLL" in vars && ("EXE" in vars || "LIB" in vars || "PLUGIN" in vars) ==> CheckVarsOf(ctx, vars, d).1.Some?
    ensures "EXE" in vars && "LIB" in vars ==> CheckVarsOf(ctx, vars, d).1.Some?
    ensures CheckVarsOf(ctx, vars, d).1.None? ==>
      CheckVarsOf(ctx, vars, d).0.outputtype ==
        (if "DLL" in vars then DllOutputType
         else if "PLUGIN" in vars then PluginOutputType
         else if "EXE" in vars then ExeOutputType
         else if "LIB" in vars then LibOutputType
         else UnknownOutputType)
  {
    var r1 := CheckVarOf(ctx, vars, d, "DLL", DllOutputType);
    CheckVarOfMeaning(ctx, vars, d, "DLL", DllOutputType);
    if r1.1.None? {
      var r2 := CheckVarOf(ctx, vars, r1.0, "PLUGIN", PluginOutputType);
      CheckVarOfMeaning(ctx, vars, r1.0, "PLUGIN", PluginOutputType);
      if r2.1.None? {
        var r3 := CheckVarOf(ctx, vars, r2.0, "EXE", ExeOutputType);
        CheckVarOfMeaning(ctx, vars, r2.0, "EXE", ExeOutputType);
        if r3.1.None? {
          CheckVarOfMeaning(ctx, vars, r3.0, "LIB", LibOutputType);
        }
      }
    }
  }

  /** PREFIX never overrides a prefix given on the command line. */
  lemma PrefixOnlyWhenUnset(ctx: Context, g: Globber, vars: map<string, string>, d: Desc)
    requires d.installprefix != ""
    ensures InitFromVarsOf(ctx, g, vars, d).0.installprefix == d.installprefix
  {
    var r1 := SrcsOf(ctx, g, vars, d);
    assert r1.0.installprefix == d.installprefix;
    var r3 := DirsOf(ctx, g, vars, PrefixOf(vars, r1.0));
    assert r3.0.installprefix == d.installprefix;
    assert CheckVarsOf(ctx, vars, r3.0).0.installprefix == d.installprefix;
  }

  /** SRCS that globs to nothing is an error; after a successful
      InitFromVars, a SRCS or DIRS that was defined is not empty. */
  lemma EmptyGlobsRejected(ctx: Context, g: Globber, vars: map<string, string>, d: Desc)
    ensures "SRCS" in vars && ExpandedGlobs(g, ctx.others, Fields(vars["SRCS"])) == Ok([]) ==>
      InitFromVarsOf(ctx, g, vars, d).1 == Some(Error("SRCS=" + vars["SRCS"] + " matches no source files"))
    ensures InitFromVarsOf(ctx, g, vars, d).1.None? && "DIRS" in vars ==> InitFromVarsOf(ctx, g, vars, d).0.directories != []
    ensures InitFromVarsOf(ctx, g, vars, d).1.None? && "SRCS" in vars ==> InitFromVarsOf(ctx, g, vars, d).0.sourceFiles != []
  {
    var r1 := SrcsOf(ctx, g, vars, d);
    if r1.1.None? {
      var r3 := DirsOf(ctx, g, vars, PrefixOf(vars, r1.0));
      if r3.1.None? {
        var r := CheckVarsOf(ctx, vars, r3.0);
        assert r.0.directories == r3.0.directories;
        assert r.0.sourceFiles == r1.0.sourceFiles;
      }
    }
  }

  // ---------------------------------------------------------------- output type

  /** DetermineOutputType: exe when a source defines main(), else dll when
      -dll is set, else plugin when -plugin is set, else lib. */
  function OutputTypeOf(ctx: Context, mains: set<string>, sources: seq<string>): (t: OutputType)
    ensures t != UnknownOutputType
    ensures t == ExeOutputType <==> exists i :: 0 <= i < |sources| && sources[i] in mains
  {
    if exists i :: 0 <= i < |sources| && sources[i] in mains then ExeOutputType
    else if ctx.dllflag then DllOutputType
    else if ctx.pluginflag then PluginOutputType
    else LibOutputType
  }

  /** The type inference of Run: only an unknown type is inferred, and the
      name is decorated for it only when it was defaulted. */
  function InferOf(ctx: Context, mains: set<string>, d: Desc): Desc {
    if d.outputtype != UnknownOutputType then d
    else
      var t := OutputTypeOf(ctx, mains, d.sourceFiles);
      var d1 := d.(outputtype := t);
      if d.outputnameDefaulted then d1.(outputname := FilenameForType(ctx.platform, ctx.pluginName, t, d.outputname).value)
      else d1
  }

  /** After inference the type is known; a type that was known is kept with
      its name, and a name that was given is never decorated. */
  lemma InferKnown(ctx: Context, mains: set<string>, d: Desc)
    ensures InferOf(ctx, mains, d).outputtype != UnknownOutputType
    ensures d.outputtype != UnknownOutputType ==> InferOf(ctx, mains, d) == d
    ensures !d.outputnameDefaulted ==> InferOf(ctx, mains, d).outputname == d.outputname
    ensures InferOf(ctx, mains, d).sourceFiles == d.sourceFiles
  {
  }

  // ---------------------------------------------------------------- actions

  /** The dcc arguments BuildAction assembles; `None` where DccArgument panics. */
  function DccArgs(ctx: Context, d: Desc): Option<seq<string>> {
    match DccArgument(d.outputtype)
    case None => None
    case Some(kind) =>
      Some((if ctx.dccdebug then ["--debug"] else []) + (if ctx.quiet then ["--quiet"] else [])
        + [kind, d.outputname, "--objdir", ctx.objsdir] + d.sourceFiles)
  }

  /** The argument list is the optional flags, the type option and the output
      name, the object directory, then every source file in order. */
  lemma DccArgsShape(ctx: Context, d: Desc)
    requires d.outputtype in {DllOutputType, ExeOutputType, LibOutputType}
    ensures DccArgs(ctx, d).Some?
    ensures var args := DccArgs(ctx, d).value;
      var n := (if ctx.dccdebug then 1 else 0) + (if ctx.quiet then 1 else 0);
      |args| == n + 4 + |d.sourceFiles|
      && args[n] == "--" + OutputTypeString(d.outputtype).value && args[n + 1] == d.outputname
      && args[n + 2] == "--objdir" && args[n + 3] == ctx.objsdir
      && args[n + 4..] == d.sourceFiles
      && (ctx.dccdebug ==> args[0] == "--debug")
      && (ctx.quiet ==> args[n - 1] == "--quiet")
  {
    DccArgumentIsDashedName(d.outputtype);
  }

  /** A plugin cannot be built: DccArgument has no case for it. */
  lemma PluginBuildPanics(ctx: Context, d: Desc)
    requires d.outputtype == PluginOutputType
    ensures DccArgs(ctx, d).None?
  {
  }

  lemma AppendAssoc(a: seq<Effect>, b: seq<Effect>, c: seq<Effect>)
    ensures a + b + c == a + (b + c)
  {
  }

  /** Everything in `effects` is a removal in `cwd`. */
  predicate RemovalsIn(effects: seq<Effect>, cwd: seq<string>) {
    forall i :: 0 <= i < |effects| ==> (effects[i].Remove? || effects[i].RemoveAll?) && effects[i].dir == cwd
  }

  /** What doClean removes for one file: the file, then its directory when
      that directory is called `deletable`. */
  function CleanPath(cwd: seq<string>, path: string, deletable: string): (r: seq<Effect>)
    ensures RemovalsIn(r, cwd)
    ensures |r| >= 1 && r[0] == Remove(cwd, path)
  {
    CleanPathIn(cwd, path, Dir(path), deletable)
  }

  /** CleanPath with the file's directory already computed. */
  function CleanPathIn(cwd: seq<string>, path: string, dir: string, deletable: string): (r: seq<Effect>)
    ensures RemovalsIn(r, cwd)
    ensures |r| >= 1 && r[0] == Remove(cwd, path)
  {
    if Base(dir) == deletable then [Remove(cwd, path), RemoveAll(cwd, dir)]
    else [Remove(cwd, path)]
  }

  /** The removals of one round of CleanAction's loop: the object file and
      the dependency file of `source`. */
  function CleanSource(ctx: Context, cwd: seq<string>, source: string): (r: seq<Effect>)
    ensures RemovalsIn(r, cwd)
    ensures Remove(cwd, ObjectFilename(ctx.platform, source, ctx.objsdir)) in r
  {
    var ofile := ObjectFilename(ctx.platform, source, ctx.objsdir);
    var first := CleanPath(cwd, ofile, ctx.objsdir);
    var second := CleanPath(cwd, DependenciesFilename(ofile, ctx.depsdir, ctx.objsdir), ctx.depsdir);
    RemovalsAppend(first, second, cwd);
    first + second
  }

  lemma RemovalsAppend(a: seq<Effect>, b: seq<Effect>, cwd: seq<string>)
    requires RemovalsIn(a, cwd) && RemovalsIn(b, cwd)
    ensures RemovalsIn(a + b, cwd)
  {
    forall i | 0 <= i < |a + b|
      ensures ((a + b)[i].Remove? || (a + b)[i].RemoveAll?) && (a + b)[i].dir == cwd
    {
      if i >= |a| {
        assert (a + b)[i] == b[i - |a|];
      }
    }
  }

  /** The removals of CleanAction's loop over `sources`. */
  function CleanSources(ctx: Context, cwd: seq<string>, sources: seq<string>): seq<Effect>
    decreases |sources|
  {
    if sources == [] then []
    else CleanSources(ctx, cwd, sources[..|sources| - 1]) + CleanSource(ctx, cwd, sources[|sources| - 1])
  }

  lemma CleanSourcesStep(ctx: Context, cwd: seq<string>, sources: seq<string>, i: nat)
    requires i < |sources|
    ensures CleanSources(ctx, cwd, sources[..i + 1]) == CleanSources(ctx, cwd, sources[..i]) + CleanSource(ctx, cwd, sources[i])
  {
    var done := sources[..i + 1];
    assert done[..|done| - 1] == sources[..i];
  }

  /** Every source's object file is removed by the clean loop. */
  lemma {:induction false} CleanRemovesObjects(ctx: Context, cwd: seq<string>, sources: seq<string>, s: string)
    requires s in sources
    ensures Remove(cwd, ObjectFilename(ctx.platform, s, ctx.objsdir)) in CleanSources(ctx, cwd, sources)
    decreases |sources|
  {
    var last := sources[|sources| - 1];
    if s != last {
      assert sources == sources[..|sources| - 1] + [last];
      assert s in sources[..|sources| - 1];
      CleanRemovesObjects(ctx, cwd, sources[..|sources| - 1], s);
    }
  }

  /** The clean loop only removes things in the working directory. */
  lemma {:induction false} CleanStaysHere(ctx: Context, cwd: seq<string>, sources: seq<string>)
    ensures RemovalsIn(CleanSources(ctx, cwd, sources), cwd)
    decreases |sources|
  {
    if sources != [] {
      CleanStaysHere(ctx, cwd, sources[..|sources| - 1]);
      RemovalsAppend(CleanSources(ctx, cwd, sources[..|sources| - 1]), CleanSource(ctx, cwd, sources[|sources| - 1]), cwd);
    }
  }

  /** The directory an install goes to and the mode it uses. */
  function InstallDir(d: Desc): (string, nat) {
    var path := if d.installprefix == "" then "." else d.installprefix;
    if d.outputtype == ExeOutputType then (Join(path, "bin"), ModeExecutable)
    else (Join(path, "lib"), ModeReadOnly)
  }

  /** The install InstallAction performs as written: the destination it passes
      to installfile already ends with the output name, and installfile joins
      the name on again. */
  function InstallAsWritten(cwd: seq<string>, d: Desc): Effect {
    var (dest, mode) := InstallDir(d);
    Install(cwd, d.outputname, InstallTarget(d.outputname, Join(dest, d.outputname)), mode)
  }

  /** The intended install, which ActOf and InstallAction use: the output
      goes into the bin or lib directory (dmake.go:241 passes the joined name
      instead, InstallAsWritten). */
  function InstallOf(cwd: seq<string>, d: Desc): Effect {
    var (dest, mode) := InstallDir(d);
    Install(cwd, d.outputname, InstallTarget(d.outputname, dest), mode)
  }

  /** As written, a plain output name `n` lands in `<dest>/n/n`, a directory
      named after the file, not in `<dest>`. */
  lemma InstallAsWrittenNestsName(cwd: seq<string>, d: Desc)
    requires IsElement(d.outputname)
    ensures Base(InstallAsWritten(cwd, d).target) == d.outputname
    ensures Dir(InstallAsWritten(cwd, d).target) == Join(InstallDir(d).0, d.outputname)
    ensures Dir(InstallAsWritten(cwd, d).target) != InstallDir(d).0
  {
    var dest := InstallDir(d).0;
    JoinIsDirForm(dest, d.outputname);
    assert |Join(dest, d.outputname)| > |dest| || dest == ".";
  }

  /** An executable installs to `<prefix>/bin` with mode 0555, anything else to
      `<prefix>/lib` with mode 0444; an empty prefix means ".". */
  lemma InstallOfTarget(cwd: seq<string>, d: Desc)
    requires IsElement(d.outputname)
    ensures var prefix := if d.installprefix == "" then "." else d.installprefix;
      var e := InstallOf(cwd, d);
      e.file == d.outputname && Base(e.target) == d.outputname
      && (d.outputtype == ExeOutputType ==> Dir(e.target) == Join(prefix, "bin") && e.mode == ModeExecutable)
      && (d.outputtype != ExeOutputType ==> Dir(e.target) == Join(prefix, "lib") && e.mode == ModeReadOnly)
  {
    var prefix := if d.installprefix == "" then "." else d.installprefix;
    JoinIsDirForm(prefix, "bin");
    JoinIsDirForm(prefix, "lib");
  }

  // ---------------------------------------------------------------- Run and Directories

  /** What a run did: its failure, what it logged, and where it left the process. */
  datatype Outcome = Outcome(err: Option<Failure>, effects: seq<Effect>, cwd: seq<string>)

  predicate Panicked(err: Option<Failure>) {
    err.Some? && err.value.Panic?
  }

  /** ReadDmakefile: a missing .dmake is no error. */
  function ReadDmakefileOf(ctx: Context, here: DirNode, d: Desc): (Desc, Option<Failure>) {
    match here.dmakefile
    case None => (d, None)
    case Some(lines) =>
      var read := ReadLines(map[], lines, DmakeFileFilename, 0);
      if read.1.Some? then (d, Some(Error(read.1.value)))
      else InitFromVarsOf(ctx, here.glob, read.0, d)
  }

  /** The source discovery of Run: only when no SRCS gave sources; the
      sources are replaced even when the search fails. */
  function DiscoverOf(ctx: Context, here: DirNode, d: Desc): (r: (Desc, Option<string>))
    ensures r.0 == d.(sourceFiles := r.0.sourceFiles)
    ensures |d.sourceFiles| >= 1 ==> r == (d, None)
  {
    if |d.sourceFiles| < 1 then
      var found := SourceFilesOf(here.glob, ctx.others, ctx.familyOrder, ctx.langflag);
      (d.(sourceFiles := found.0), found.2)
    else (d, None)
  }

  /** The action itself, in `cwd`, once the sources and the type are known. */
  function ActOf(ctx: Context, cwd: seq<string>, here: DirNode, d: Desc, action: Action, env: seq<string>): (o: Outcome)
    ensures o.cwd == cwd
  {
    if action == Cleaning then Outcome(None, [Remove(cwd, d.outputname)] + CleanSources(ctx, cwd, d.sourceFiles), cwd)
    else match DccArgs(ctx, d)
      case None => Outcome(Some(Panic("unexpected OutputType")), [], cwd)
      case Some(args) =>
        var build := [Build(cwd, env, args)];
        if here.buildError.Some? then Outcome(Some(Error(here.buildError.value)), build, cwd)
        else if action == Installing then Outcome(AsError(here.installError), build + [InstallOf(cwd, d)], cwd)
        else Outcome(None, build, cwd)
  }

  /** The part of Run after the sub-directories, which stays in `cwd`. */
  function LocalRunOf(ctx: Context, cwd: seq<string>, here: DirNode, d: Desc, action: Action, env: seq<string>): (r: (Outcome, Desc))
    ensures r.0.cwd == cwd
  {
    var r1 := DiscoverOf(ctx, here, d);
    if r1.1.Some? then (Outcome(Some(Error(r1.1.value)), [], cwd), r1.0)
    else if |r1.0.sourceFiles| < 1 then
      (Outcome(if |r1.0.directories| == 0 then Some(Error(NoSourcesMessage)) else None, [], cwd), r1.0)
    else
      var d2 := InferOf(ctx, here.mains, r1.0);
      (ActOf(ctx, cwd, here, d2, action, env), d2)
  }

  /** The error ChangeDirectory gives for `path` in `here`, if any. */
  function ChangeDirectoryError(here: DirNode, path: string): Option<string> {
    if here.getwdError.Some? then Some(AddDetail(here.getwdError.value, "os.Getwd"))
    else if FindSub(here.subdirs, path).None? then Some(AddDetail(ChdirError(path), "os.Chdir \"" + path + "\""))
    else None
  }

  /** Run in the directory `here`, reached from the root by `cwd`. */
  function RunOf(ctx: Context, root: DirNode, cwd: seq<string>, here: DirNode, d: Desc, action: Action, env: seq<string>): (r: (Outcome, Desc))
    ensures r.0.err.None? ==> r.0.cwd == cwd
    ensures ctx.keepgoing && !Panicked(r.0.err) ==> r.0.cwd == cwd
    ensures |cwd| <= |r.0.cwd| && r.0.cwd[..|cwd|] == cwd
    decreases here, 1
  {
    var r1 := ReadDmakefileOf(ctx, here, d);
    if r1.1.Some? then (Outcome(r1.1, [], cwd), r1.0)
    else
      var d1 := r1.0;
      var w :=
        if |d1.directories| > 0 then WalkOf(ctx, root, cwd, here, d1.directories, 0, d1.installprefix, action, env, None)
        else Outcome(None, [], cwd);
      if w.err.Some? then (w, d1)
      else
        var r2 := LocalRunOf(ctx, cwd, here, d1, action, env);
        (Then(w.effects, r2.0), r2.1)
  }

  /** Directories from the `i`-th sub-directory on, with `result` the first
      error kept so far. */
  function WalkOf(ctx: Context, root: DirNode, cwd: seq<string>, here: DirNode, dirs: seq<string>, i: nat,
                  prefix: string, action: Action, env: seq<string>, result: Option<Failure>): (w: Outcome)
    ensures w.err.None? ==> w.cwd == cwd
    ensures ctx.keepgoing && !Panicked(w.err) ==> w.cwd == cwd
    ensures |cwd| <= |w.cwd| && w.cwd[..|cwd|] == cwd
    ensures result.Some? ==> w.err.Some?
    decreases here, 0, |dirs| - i
  {
    if i >= |dirs| then Outcome(result, [], cwd)
    else
      var path := dirs[i];
      match ChangeDirectoryError(here, path)
      case Some(e) => Outcome(Some(Error(e)), [], cwd)
      case None =>
        var sub := SubRun(ctx, root, cwd, here, path, prefix, action, env);
        assert (cwd + [path])[..|cwd|] == cwd;
        assert sub.cwd[..|cwd|] == sub.cwd[..|cwd + [path]|][..|cwd|];
        if sub.err.Some? && (Panicked(sub.err) || !ctx.keepgoing) then sub
        else
          var rest := WalkOf(ctx, root, cwd, here, dirs, i + 1, prefix, action, env, if result.None? then sub.err else result);
          Outcome(rest.err, sub.effects + rest.effects, rest.cwd)
  }

  /** The descriptor NewDmake builds. */
  function NewDesc(dir: string, outputName: string, installPrefix: string): Desc {
    var defaultoutput := DefaultOutput(dir);
    Desc([], UnknownOutputType, if outputName != "" then outputName else defaultoutput,
         outputName == "", defaultoutput, installPrefix, [])
  }

  /** A prefix that was given survives reading `.dmake`. */
  lemma ReadKeepsGivenPrefix(ctx: Context, here: DirNode, d: Desc)
    requires d.installprefix != ""
    ensures ReadDmakefileOf(ctx, here, d).0.installprefix == d.installprefix
  {
    if here.dmakefile.Some? {
      var read := ReadLines(map[], here.dmakefile.value, DmakeFileFilename, 0);
      if read.1.None? {
        var vars := read.0;
        var r1 := SrcsOf(ctx, here.glob, vars, d);
        if r1.1.None? {
          var r3 := DirsOf(ctx, here.glob, vars, PrefixOf(vars, r1.0));
          assert r3.0.installprefix == d.installprefix;
          if r3.1.None? {
            assert CheckVarsOf(ctx, vars, r3.0).0.installprefix == d.installprefix;
          }
        }
      }
    }
  }

  /** `DIRS = .` as written: os.Chdir(".") stays in the same directory, so
      the sub-directory's run reads the same `.dmake` again. From the second
      level on, each run hands its sub-run the prefix it was given itself:
      every level starts in the same directory with the same descriptor, and
      Run calls itself without end. */
  lemma DotDirRepeats(ctx: Context, here: DirNode, cwd: seq<string>, prefix: string)
    ensures ChdirElement(cwd, ".") == Some(cwd)
    ensures var p1 := ReadDmakefileOf(ctx, here, NewDesc(".", "", prefix)).0.installprefix;
      ReadDmakefileOf(ctx, here, NewDesc(".", "", p1)).0.installprefix == p1
  {
    var p1 := ReadDmakefileOf(ctx, here, NewDesc(".", "", prefix)).0.installprefix;
    if prefix != "" {
      ReadKeepsGivenPrefix(ctx, here, NewDesc(".", "", prefix));
    } else if p1 != "" {
      ReadKeepsGivenPrefix(ctx, here, NewDesc(".", "", p1));
    }
  }

  /** DIRS entries as evidently intended: names of sub-directories. Each one
      leads exactly one level down, which is how the tree of this model is
      entered, so in a finite tree the recursion of Run ends. */
  lemma SubdirectoryDescends(cwd: seq<string>, name: string)
    requires IsSubdirectoryName(name)
    ensures ChdirElement(cwd, name) == Some(cwd + [name])
    ensures |ChdirElement(cwd, name).value| == |cwd| + 1
  {
  }

  /** Without keep-going, a failing sub-directory ends the walk: its failure
      is returned, nothing after it runs, and the process is left inside it
      (Restore is skipped on that path). */
  lemma WalkStopsAtFailure(ctx: Context, root: DirNode, cwd: seq<string>, here: DirNode, dirs: seq<string>, i: nat,
                           prefix: string, action: Action, env: seq<string>, result: Option<Failure>)
    requires !ctx.keepgoing && i < |dirs| && ChangeDirectoryError(here, dirs[i]).None?
    requires RunOf(ctx, root, cwd + [dirs[i]], here.subdirs[FindSub(here.subdirs, dirs[i]).value].node,
                   NewDesc(dirs[i], "", prefix), action, env).0.err.Some?
    ensures var sub := RunOf(ctx, root, cwd + [dirs[i]], here.subdirs[FindSub(here.subdirs, dirs[i]).value].node,
                             NewDesc(dirs[i], "", prefix), action, env).0;
      WalkOf(ctx, root, cwd, here, dirs, i, prefix, action, env, result) == sub
      && sub.cwd != cwd
  {
    var sub := RunOf(ctx, root, cwd + [dirs[i]], here.subdirs[FindSub(here.subdirs, dirs[i]).value].node,
                     NewDesc(dirs[i], "", prefix), action, env).0;
    assert |sub.cwd| > |cwd|;
  }

  /** A failed change of directory ends the walk at once in both modes, with
      its own error, even when an earlier sub-directory failed first. */
  lemma WalkStopsAtChdirFailure(ctx: Context, root: DirNode, cwd: seq<string>, here: DirNode, dirs: seq<string>, i: nat,
                                prefix: string, action: Action, env: seq<string>, result: Option<Failure>)
    requires i < |dirs| && ChangeDirectoryError(here, dirs[i]).Some?
    ensures WalkOf(ctx, root, cwd, here, dirs, i, prefix, action, env, result)
      == Outcome(Some(Error(ChangeDirectoryError(here, dirs[i]).value)), [], cwd)
  {
  }

  /** The outcome of the sub-directory run of `dirs[j]`, when it can be entered. */
  function SubRun(ctx: Context, root: DirNode, cwd: seq<string>, here: DirNode, path: string,
                  prefix: string, action: Action, env: seq<string>): Outcome
    requires ChangeDirectoryError(here, path).None?
    decreases here, 0, 0
  {
    RunOf(ctx, root, cwd + [path], here.subdirs[FindSub(here.subdirs, path).value].node,
          NewDesc(path, "", prefix), action, env).0
  }

  /** One step of the walk when the change of directory fails: the walk
      ends with that error, in the directory it started from. */
  lemma WalkStepNoEntry(ctx: Context, root: DirNode, cwd: seq<string>, here: DirNode, dirs: seq<string>, i: nat,
                        prefix: string, action: Action, env: seq<string>, result: Option<Failure>)
    requires i < |dirs| && ChangeDirectoryError(here, dirs[i]).Some?
    ensures WalkOf(ctx, root, cwd, here, dirs, i, prefix, action, env, result)
      == Outcome(Some(Error(ChangeDirectoryError(here, dirs[i]).value)), [], cwd)
  {
  }

  /** One step of the walk when the sub-directory's run panics, or fails
      without keep-going: the walk ends with that run. */
  lemma WalkStepStops(ctx: Context, root: DirNode, cwd: seq<string>, here: DirNode, dirs: seq<string>, i: nat,
                      prefix: string, action: Action, env: seq<string>, result: Option<Failure>)
    requires i < |dirs| && ChangeDirectoryError(here, dirs[i]).None?
    requires var o := SubRun(ctx, root, cwd, here, dirs[i], prefix, action, env);
      o.err.Some? && (Panicked(o.err) || !ctx.keepgoing)
    ensures WalkOf(ctx, root, cwd, here, dirs, i, prefix, action, env, result)
      == SubRun(ctx, root, cwd, here, dirs[i], prefix, action, env)
  {
  }

  /** One step of the walk otherwise: the run's effects, then the rest of
      the walk with the first error kept. */
  lemma WalkStepGoesOn(ctx: Context, root: DirNode, cwd: seq<string>, here: DirNode, dirs: seq<string>, i: nat,
                       prefix: string, action: Action, env: seq<string>, result: Option<Failure>)
    requires i < |dirs| && ChangeDirectoryError(here, dirs[i]).None?
    requires var o := SubRun(ctx, root, cwd, here, dirs[i], prefix, action, env);
      !(o.err.Some? && (Panicked(o.err) || !ctx.keepgoing))
    ensures var o := SubRun(ctx, root, cwd, here, dirs[i], prefix, action, env);
      WalkOf(ctx, root, cwd, here, dirs, i, prefix, action, env, result)
        == Then(o.effects, WalkOf(ctx, root, cwd, here, dirs, i + 1, prefix, action, env, if result.None? then o.err else result))
  {
  }

  /** Every sub-directory from `i` on can be entered and none panics. */
  predicate AllEnterable(ctx: Context, root: DirNode, cwd: seq<string>, here: DirNode, dirs: seq<string>, i: nat,
                         prefix: string, action: Action, env: seq<string>)
  {
    forall j :: i <= j < |dirs| ==>
      (ChangeDirectoryError(here, dirs[j]).None? && !Panicked(SubRun(ctx, root, cwd, here, dirs[j], prefix, action, env).err))
  }

  /** The keep-going walk, as a reference: every sub-directory's effects in
      order, and the first error among them. */
  function KeepGoing(ctx: Context, root: DirNode, cwd: seq<string>, here: DirNode, dirs: seq<string>, i: nat,
                     prefix: string, action: Action, env: seq<string>): (seq<Effect>, Option<Failure>)
    requires AllEnterable(ctx, root, cwd, here, dirs, i, prefix, action, env)
    decreases |dirs| - i
  {
    if i >= |dirs| then ([], None)
    else
      var sub := SubRun(ctx, root, cwd, here, dirs[i], prefix, action, env);
      var (effects, first) := KeepGoing(ctx, root, cwd, here, dirs, i + 1, prefix, action, env);
      (sub.effects + effects, if sub.err.Some? then sub.err else first)
  }

  /** With keep-going, when every sub-directory can be entered and none panics,
      the walk visits them all, logs their effects in order, returns the first
      error, and ends where it started. */
  lemma {:induction false} WalkKeepGoing(ctx: Context, root: DirNode, cwd: seq<string>, here: DirNode, dirs: seq<string>, i: nat,
                       prefix: string, action: Action, env: seq<string>, result: Option<Failure>)
    requires ctx.keepgoing && !Panicked(result)
    requires AllEnterable(ctx, root, cwd, here, dirs, i, prefix, action, env)
    ensures var w := WalkOf(ctx, root, cwd, here, dirs, i, prefix, action, env, result);
      var (effects, first) := KeepGoing(ctx, root, cwd, here, dirs, i, prefix, action, env);
      w == Outcome(if result.Some? then result else first, effects, cwd)
    decreases |dirs| - i
  {
    if i < |dirs| {
      var sub := SubRun(ctx, root, cwd, here, dirs[i], prefix, action, env);
      var next := if result.None? then sub.err else result;
      assert !Panicked(next);
      WalkKeepGoing(ctx, root, cwd, here, dirs, i + 1, prefix, action, env, next);
    }
  }

  /** With keep-going a run ends where it started unless something panicked;
      without it, a failed run may end below its directory. */
  lemma RunEndsHome(ctx: Context, root: DirNode, cwd: seq<string>, here: DirNode, d: Desc, action: Action, env: seq<string>)
    ensures var o := RunOf(ctx, root, cwd, here, d, action, env).0;
      (o.err.None? || (ctx.keepgoing && !Panicked(o.err)) ==> o.cwd == cwd)
      && HasPrefixPath(o.cwd, cwd)
  {
  }

  predicate HasPrefixPath(p: seq<string>, q: seq<string>) {
    |q| <= |p| && p[..|q|] == q
  }

  /** Cleaning removes the output first and then only removes, in the
      working directory; building runs dcc once, with the arguments
      BuildAction assembles, and installs only after a build that succeeded. */
  lemma ActSequencing(ctx: Context, cwd: seq<string>, here: DirNode, d: Desc, action: Action, env: seq<string>)
    ensures var o := ActOf(ctx, cwd, here, d, action, env);
      (action == Cleaning ==>
         o.err.None? && |o.effects| >= 1 && o.effects[0] == Remove(cwd, d.outputname) && RemovalsIn(o.effects, cwd))
      && (action != Cleaning && DccArgs(ctx, d).None? ==> o.err == Some(Panic("unexpected OutputType")) && o.effects == [])
      && (action != Cleaning && DccArgs(ctx, d).Some? ==>
            1 <= |o.effects| <= 2
            && o.effects[0] == Build(cwd, env, DccArgs(ctx, d).value)
            && (|o.effects| == 2 <==> action == Installing && here.buildError.None?)
            && (|o.effects| == 2 ==> o.effects[1] == InstallOf(cwd, d))
            && (here.buildError.Some? ==> o.err == Some(Error(here.buildError.value))))
  {
    if action == Cleaning {
      CleanStaysHere(ctx, cwd, d.sourceFiles);
      RemovalsAppend([Remove(cwd, d.outputname)], CleanSources(ctx, cwd, d.sourceFiles), cwd);
    }
  }

  /** With no source files after the .dmake file and discovery, a directory
      without sub-directories fails and one with sub-directories succeeds. */
  lemma NoSourcesOutcome(ctx: Context, cwd: seq<string>, here: DirNode, d: Desc, action: Action, env: seq<string>)
    requires d.sourceFiles == []
    requires SourceFilesOf(here.glob, ctx.others, ctx.familyOrder, ctx.langflag) == ([], UnknownLanguage, None)
    ensures LocalRunOf(ctx, cwd, here, d, action, env).0 ==
      Outcome(if d.directories == [] then Some(Error(NoSourcesMessage)) else None, [], cwd)
  {
  }

  // ---------------------------------------------------------------- InitAction

  /** The kinds of argument `dmake init` accepts; anything else names the output. */
  datatype InitArg = LanguageArg | ProjectTypeArg | BuildModeArg | CStandardArg | CxxStandardArg | NameArg

  function KindOf(arg: string): InitArg {
    if arg == "c" || arg == "c++" || arg == "objc" || arg == "objc++" then LanguageArg
    else if arg == "exe" || arg == "lib" || arg == "dll" then ProjectTypeArg
    else if arg == "debug" || arg == "release" then BuildModeArg
    else if arg == "c99" || arg == "c11" then CStandardArg
    else if arg == "c++11" || arg == "c++14" || arg == "c++17" || arg == "c++20" then CxxStandardArg
    else NameArg
  }

  /** What the arguments of `dmake init` have set so far. */
  datatype InitSettings = InitSettings(projectType: string, outputName: string, languageStd: string, buildMode: string)

  /** The alreadyHave closure's message. */
  function AlreadyHave(what: string, value: string, arg: string): string {
    arg + ": " + what + " already specified as " + value
  }

  /** The message for a C++ standard in a C project. */
  function CxxStandardMessage(): string {
    "C++ standard specified but this is a C project"
  }

  /** The message as written, which calls the C project a C++ project. */
  function CxxStandardMessageAsWritten(): string {
    "C++ standard specified but this is a C++ project"
  }

  /** The message as written says C++ for a project whose language is C; the
      corrected one says C. */
  lemma CxxStandardMessageNamesWrongLanguage()
    ensures HasSuffix(CxxStandardMessageAsWritten(), "a C++ project")
    ensures HasSuffix(CxxStandardMessage(), "a C project")
    ensures CxxStandardMessageAsWritten() != CxxStandardMessage()
  {
    var lead := "C++ standard specified but this is ";
    assert CxxStandardMessageAsWritten() == lead + "a C++ project";
    assert CxxStandardMessage() == lead + "a C project";
    SuffixOfConcat(lead, "a C++ project");
    SuffixOfConcat(lead, "a C project");
    assert |CxxStandardMessageAsWritten()| == |CxxStandardMessage()| + 2;
  }

  /** The settings a repeated argument can clash over, as the messages name them. */
  datatype Setting = ProjectTypeSetting | BuildModeSetting | LanguageStdSetting | OutputNameSetting

  function SettingName(setting: Setting): string {
    match setting
    case ProjectTypeSetting => "project type"
    case BuildModeSetting => "build mode"
    case LanguageStdSetting => "language standard"
    case OutputNameSetting => "output filename"
  }

  /** Why `dmake init` rejects an argument. */
  datatype InitError =
    | NotTheLanguage(arg: string, language: Language)
    | AlreadySet(setting: Setting, value: string, arg: string)
    | CStandardInCxxProject
    | CxxStandardInCProject

  /** The fatal message for an InitError, with the corrected C++-standard
      text (dmake.go:324 says "C++ project" there, CxxStandardMessageAsWritten). */
  function InitErrorMessage(e: InitError): string {
    match e
    case NotTheLanguage(arg, language) => arg + " is not the language used by source files, " + LanguageString(language)
    case AlreadySet(setting, value, arg) => AlreadyHave(SettingName(setting), value, arg)
    case CStandardInCxxProject => "C standard specified but this is a C++ project"
    case CxxStandardInCProject => CxxStandardMessage()
  }

  /** One argument of `dmake init`, for a project whose sources are in `language`. */
  function InitArgStep(language: Language, st: InitSettings, arg: string): (r: Result<InitSettings, InitError>)
    ensures r.Err? && r.error.AlreadySet? ==> r.error.arg == arg && r.error.value != ""
  {
    match KindOf(arg)
    case LanguageArg =>
      if language != UnknownLanguage && LanguageString(language) != arg then Err(NotTheLanguage(arg, language))
      else Ok(st)
    case ProjectTypeArg =>
      if st.projectType != "" then Err(AlreadySet(ProjectTypeSetting, st.projectType, arg))
      else Ok(st.(projectType := arg))
    case BuildModeArg =>
      if st.buildMode != "" then Err(AlreadySet(BuildModeSetting, st.buildMode, arg))
      else Ok(st.(buildMode := arg))
    case CStandardArg =>
      if language == CplusplusLanguage then Err(CStandardInCxxProject)
      else if st.languageStd != "" then Err(AlreadySet(LanguageStdSetting, st.languageStd, arg))
      else Ok(st.(languageStd := arg))
    case CxxStandardArg =>
      if language == CLanguage then Err(CxxStandardInCProject)
      else if st.languageStd != "" then Err(AlreadySet(LanguageStdSetting, st.languageStd, arg))
      else Ok(st.(languageStd := arg))
    case NameArg =>
      if st.outputName != "" then Err(AlreadySet(OutputNameSetting, st.outputName, arg))
      else Ok(st.(outputName := arg))
  }

  /** The argument loop of InitAction: the first conflict ends it. */
  function InitArgsOf(language: Language, st: InitSettings, args: seq<string>): Result<InitSettings, InitError>
    decreases |args|
  {
    if args == [] then Ok(st)
    else match InitArgStep(language, st, args[0])
      case Err(f) => Err(f)
      case Ok(next) => InitArgsOf(language, next, args[1..])
  }

  /** An argument whose setting is already claimed is fatal; an accepted one
      sets the setting of its kind to itself and leaves the others alone. */
  lemma InitArgStepMeaning(language: Language, st: InitSettings, arg: string)
    ensures var r := InitArgStep(language, st, arg);
      (Claims(st, KindOf(arg)) ==> r.Err?)
      && (r.Ok? ==> r.value == match KindOf(arg)
            case LanguageArg => st
            case ProjectTypeArg => st.(projectType := arg)
            case BuildModeArg => st.(buildMode := arg)
            case CStandardArg => st.(languageStd := arg)
            case CxxStandardArg => st.(languageStd := arg)
            case NameArg => st.(outputName := arg))
  {
  }

  /** A setting that is already set makes any later argument of its kind fatal. */
  predicate Claims(st: InitSettings, kind: InitArg) {
    match kind
    case ProjectTypeArg => st.projectType != ""
    case BuildModeArg => st.buildMode != ""
    case CStandardArg => st.languageStd != ""
    case CxxStandardArg => st.languageStd != ""
    case NameArg => st.outputName != ""
    case LanguageArg => false
  }

  /** Two kinds of argument that set the same setting: the C and the C++
      standards share one. */
  predicate SameSetting(k1: InitArg, k2: InitArg) {
    k1 == k2 || ((k1 == CStandardArg || k1 == CxxStandardArg) && (k2 == CStandardArg || k2 == CxxStandardArg))
  }

  /** InitArgsOf on a non-empty list: the first argument, then the rest. */
  lemma InitArgsOfCons(language: Language, st: InitSettings, args: seq<string>)
    requires args != []
    ensures var r := InitArgStep(language, st, args[0]);
      InitArgsOf(language, st, args) == if r.Err? then Err(r.error) else InitArgsOf(language, r.value, args[1..])
  {
  }

  /** Two arguments that set the same thing, such as `exe` and `lib`, or two
      output names, or a C and a C++ standard, are fatal. */
  lemma {:induction false} InitArgsRejectRepeats(language: Language, st: InitSettings, args: seq<string>, i: nat, j: nat)
    requires i < j < |args|
    requires KindOf(args[i]) != LanguageArg && args[i] != ""
    requires SameSetting(KindOf(args[i]), KindOf(args[j]))
    ensures InitArgsOf(language, st, args).Err?
    decreases |args|
  {
    var rest := args[1..];
    assert rest[j - 1] == args[j];
    assert i > 0 ==> rest[i - 1] == args[i];
    var r := InitArgStep(language, st, args[0]);
    InitArgsOfCons(language, st, args);
    if r.Ok? {
      if i == 0 {
        StepClaims(language, st, args[0]);
        InitArgsRejectLater(language, r.value, rest, j - 1, KindOf(args[0]));
      } else {
        InitArgsRejectRepeats(language, r.value, rest, i - 1, j - 1);
      }
    }
  }

  /** An accepted argument other than a language claims its setting. */
  lemma StepClaims(language: Language, st: InitSettings, arg: string)
    requires KindOf(arg) != LanguageArg && arg != ""
    requires InitArgStep(language, st, arg).Ok?
    ensures Claims(InitArgStep(language, st, arg).value, KindOf(arg))
  {
  }

  /** Once a setting is claimed, a later argument of that kind is fatal. */
  lemma {:induction false} InitArgsRejectLater(language: Language, st: InitSettings, args: seq<string>, j: nat, kind: InitArg)
    requires j < |args| && Claims(st, kind)
    requires SameSetting(kind, KindOf(args[j]))
    ensures InitArgsOf(language, st, args).Err?
    decreases |args|
  {
    var rest := args[1..];
    assert j > 0 ==> rest[j - 1] == args[j];
    var r := InitArgStep(language, st, args[0]);
    InitArgsOfCons(language, st, args);
    if r.Ok? {
      if j == 0 {
        assert false;
      } else {
        InitArgsRejectLater(language, r.value, rest, j - 1, kind);
      }
    }
  }

  /** A standard of the other language is fatal. */
  lemma {:induction false} InitArgsRejectForeignStandard(language: Language, st: InitSettings, args: seq<string>, j: nat)
    requires j < |args|
    requires (language == CplusplusLanguage && KindOf(args[j]) == CStandardArg)
      || (language == CLanguage && KindOf(args[j]) == CxxStandardArg)
    ensures InitArgsOf(language, st, args).Err?
    decreases |args|
  {
    match InitArgStep(language, st, args[0])
    case Err(_) =>
    case Ok(next) =>
      if j > 0 {
        InitArgsRejectForeignStandard(language, next, args[1..], j - 1);
      }
  }

  /** After a successful loop each setting is the one it started with or an
      argument of its kind. */
  lemma {:induction false} InitArgsFromArgs(language: Language, st: InitSettings, args: seq<string>)
    requires InitArgsOf(language, st, args).Ok?
    ensures var r := InitArgsOf(language, st, args).value;
      (r.projectType == st.projectType || (r.projectType in args && KindOf(r.projectType) == ProjectTypeArg))
      && (r.outputName == st.outputName || (r.outputName in args && KindOf(r.outputName) == NameArg))
      && (r.buildMode == st.buildMode || (r.buildMode in args && KindOf(r.buildMode) == BuildModeArg))
    decreases |args|
  {
    if args != [] {
      var next := InitArgStep(language, st, args[0]).value;
      InitArgsFromArgs(language, next, args[1..]);
    }
  }

  /** The defaults InitAction applies after its argument loop. */
  function InitDefaults(st: InitSettings, defaultoutput: string, language: Language): (r: InitSettings)
    ensures r.projectType == st.projectType
    ensures st.outputName != "" ==> r.outputName == st.outputName
    ensures st.buildMode != "" ==> r.buildMode == st.buildMode
    ensures st.languageStd != "" ==> r.languageStd == st.languageStd
  {
    InitSettings(
      st.projectType,
      if st.outputName == "" then defaultoutput else st.outputName,
      if st.languageStd == "" then
        (if language == CLanguage then DefaultCStandard else if language == CplusplusLanguage then DefaultCxxStandard else "")
      else st.languageStd,
      if st.buildMode == "" then DefaultBuildMode else st.buildMode)
  }

  /** Without arguments a C project gets c11 and a C++ project c++14, both in
      debug mode and named after the directory. */
  lemma InitDefaultsWithoutArgs(defaultoutput: string, language: Language)
    ensures var r := InitDefaults(InitSettings("", "", "", ""), defaultoutput, language);
      r.outputName == defaultoutput && r.buildMode == DefaultBuildMode
      && (language == CLanguage ==> r.languageStd == DefaultCStandard)
      && (language == CplusplusLanguage ==> r.languageStd == DefaultCxxStandard)
  {
  }

  /** The install directory InitAction writes into the Makefile. */
  function MakefileInstallDir(projectType: string): string {
    if projectType == "exe" then "$(prefix)/bin" else "$(prefix)/lib"
  }

  /** The install directory as written: the library case lacks the `)`. */
  function MakefileInstallDirAsWritten(projectType: string): string {
    if projectType == "exe" then "$(prefix)/bin" else "$(prefix/lib"
  }

  /** The number of `c` in `s`. */
  function Count(s: string, c: char): nat {
    if s == [] then 0 else (if s[0] == c then 1 else 0) + Count(s[1..], c)
  }

  /** As written, every project that is not an executable gets a Makefile
      whose install directory has an unbalanced parenthesis. */
  lemma MakefileInstallDirAsWrittenUnbalanced(projectType: string)
    requires projectType != "exe"
    ensures Count(MakefileInstallDirAsWritten(projectType), '(') != Count(MakefileInstallDirAsWritten(projectType), ')')
  {
    var s := MakefileInstallDirAsWritten(projectType);
    assert s == "$(" + "prefix/lib";
    CountAbsent(s, ')');
    CountPresent(s, '(', 1);
  }

  /** The corrected install directory is `$(prefix)` followed by bin or lib. */
  lemma MakefileInstallDirBalanced(projectType: string)
    ensures HasPrefix(MakefileInstallDir(projectType), "$(prefix)/")
    ensures projectType == "exe" <==> HasSuffix(MakefileInstallDir(projectType), "/bin")
  {
    var r := MakefileInstallDir(projectType);
    assert r[..10] == "$(prefix)/";
    assert r[|r| - 4..] == if projectType == "exe" then "/bin" else "/lib";
  }

  lemma {:induction false} CountAbsent(s: string, c: char)
    requires c !in s
    ensures Count(s, c) == 0
  {
    if s != [] {
      assert c !in s[1..];
      CountAbsent(s[1..], c);
    }
  }

  lemma {:induction false} CountPresent(s: string, c: char, i: nat)
    requires i < |s| && s[i] == c
    ensures Count(s, c) >= 1
  {
    if i > 0 {
      CountPresent(s[1..], c, i - 1);
    }
  }

  /** The .dmake variable for a type. */
  function TypeVarName(t: OutputType): string {
    match t
    case ExeOutputType => "EXE"
    case DllOutputType => "DLL"
    case PluginOutputType => "PLUGIN"
    case LibOutputType => "LIB"
    case UnknownOutputType => ""
  }

  /** What `dmake init` writes: the options file it creates, the .dmake
      line (when the name is not the default), and the Makefile's install
      directory. */
  datatype InitPlan = InitPlan(settings: InitSettings, optionsFile: string, typeVarName: string,
                               dmakeLine: Option<string>, installDir: string)

  /** The plan for `st`; its Makefile install directory is the corrected
      MakefileInstallDir (dmake.go:446 writes an unbalanced `$(prefix/lib`). */
  function PlanOf(ctx: Context, here: DirNode, d: Desc, language: Language, st: InitSettings): InitPlan {
    var typeVarName :=
      if st.projectType == "dll" then "DLL"
      else if st.projectType == "exe" then "EXE"
      else if st.projectType == "lib" then "LIB"
      else TypeVarName(OutputTypeOf(ctx, here.mains, d.sourceFiles));
    InitPlan(st, if language == CplusplusLanguage then ".dcc/CXXFLAGS" else ".dcc/CFLAGS", typeVarName,
             if st.outputName != d.defaultoutput then Some(typeVarName + " = " + st.outputName) else None,
             MakefileInstallDir(st.projectType))
  }

  /** InitAction: refuse to overwrite, check the arguments, apply the defaults. */
  function InitOf(ctx: Context, here: DirNode, d: Desc, existing: set<string>, args: seq<string>): Result<InitPlan, Failure> {
    if ".dcc" in existing then Err(Error("a .dcc directory already exists, not continuing"))
    else if DmakeFileFilename in existing then Err(Error("a .dmake file already exists, not continuing"))
    else if "Makefile" in existing then Err(Error("a Makefile already exists, not continuing"))
    else
      var found := SourceFilesOf(here.glob, ctx.others, ctx.familyOrder, ctx.langflag);
      if found.2.Some? then Err(Error(found.2.value))
      else match InitArgsOf(found.1, InitSettings("", "", "", ""), args)
        case Err(e) => Err(Fatal(InitErrorMessage(e)))
        case Ok(st) => Ok(PlanOf(ctx, here, d, found.1, InitDefaults(st, d.defaultoutput, found.1)))
  }

  /** A successful init always has an output name, a build mode and an install
      directory, and writes a .dmake file exactly when the name differs from
      the default. */
  lemma InitPlanShape(ctx: Context, here: DirNode, d: Desc, existing: set<string>, args: seq<string>)
    requires InitOf(ctx, here, d, existing, args).Ok?
    ensures var plan := InitOf(ctx, here, d, existing, args).value;
      ".dcc" !in existing && DmakeFileFilename !in existing && "Makefile" !in existing
      && plan.settings.buildMode != ""
      && (plan.dmakeLine.Some? <==> plan.settings.outputName != d.defaultoutput)
      && (plan.settings.projectType == "exe" <==> HasSuffix(plan.installDir, "/bin"))
  {
    var plan := InitOf(ctx, here, d, existing, args).value;
    MakefileInstallDirBalanced(plan.settings.projectType);
  }

  // ---------------------------------------------------------------- the class

  class Dmake {
    var sourceFiles: seq<string>
    var outputtype: OutputType
    var outputname: string
    var outputnameDefaulted: bool
    var defaultoutput: string
    var installprefix: string
    var directories: seq<string>

    function State(): Desc
      reads this
    {
      Desc(sourceFiles, outputtype, outputname, outputnameDefaulted, defaultoutput, installprefix, directories)
    }

    /** NewDmake */
    constructor (dir: string, outputName: string, installPrefix: string)
      ensures State() == NewDesc(dir, outputName, installPrefix)
      ensures outputnameDefaulted <==> outputName == ""
      ensures outputnameDefaulted ==> outputname == defaultoutput
    {
      sourceFiles := [];
      outputtype := UnknownOutputType;
      directories := [];
      installprefix := installPrefix;
      var basename := Base(dir);
      if basename == "src" || basename == "source" {
        defaultoutput := Base(Dir(dir));
      } else {
        defaultoutput := basename;
      }
      if outputName != "" {
        outputname := outputName;
        outputnameDefaulted := false;
      } else {
        outputname := defaultoutput;
        outputnameDefaulted := true;
      }
    }

    /** InitAction: what `dmake init` would write, or why it refuses. */
    method InitAction(ctx: Context, here: DirNode, existing: set<string>, args: seq<string>) returns (r: Result<InitPlan, Failure>)
      requires IsFamilyOrder(ctx.familyOrder)
      ensures r == InitOf(ctx, here, State(), existing, args)
    {
      if ".dcc" in existing {
        return Err(Error("a .dcc directory already exists, not continuing"));
      }
      if DmakeFileFilename in existing {
        return Err(Error("a .dmake file already exists, not continuing"));
      }
      if "Makefile" in existing {
        return Err(Error("a Makefile already exists, not continuing"));
      }
      var paths, language, err := SourceFiles(here.glob, ctx.others, ctx.familyOrder, ctx.langflag);
      if err.Some? {
        return Err(Error(err.value));
      }
      var st := InitArgs(language, args);
      if st.Err? {
        return Err(Fatal(InitErrorMessage(st.error)));
      }
      var plan := InitPlanFor(ctx, here, language, st.value);
      return Ok(plan);
    }

    /** The argument loop of InitAction. */
    static method InitArgs(language: Language, args: seq<string>) returns (r: Result<InitSettings, InitError>)
      ensures r == InitArgsOf(language, InitSettings("", "", "", ""), args)
    {
      var st := InitSettings("", "", "", "");
      for i := 0 to |args|
        invariant InitArgsOf(language, InitSettings("", "", "", ""), args) == InitArgsOf(language, st, args[i..])
      {
        assert args[i..][0] == args[i] && args[i..][1..] == args[i + 1..];
        var next := InitArg(language, st, args[i]);
        if next.Err? {
          return Err(next.error);
        }
        st := next.value;
      }
      assert args[|args|..] == [];
      return Ok(st);
    }

    /** One argument: a language to check, or a setting to claim. */
    static method InitArg(language: Language, st: InitSettings, arg: string) returns (r: Result<InitSettings, InitError>)
      ensures r == InitArgStep(language, st, arg)
    {
      match KindOf(arg) {
        case LanguageArg =>
          if language != UnknownLanguage && LanguageString(language) != arg {
            return Err(NotTheLanguage(arg, language));
          }
          return Ok(st);
        case ProjectTypeArg =>
          if st.projectType != "" {
            return Err(AlreadySet(ProjectTypeSetting, st.projectType, arg));
          }
          return Ok(st.(projectType := arg));
        case BuildModeArg =>
          if st.buildMode != "" {
            return Err(AlreadySet(BuildModeSetting, st.buildMode, arg));
          }
          return Ok(st.(buildMode := arg));
        case CStandardArg =>
          if language == CplusplusLanguage {
            return Err(CStandardInCxxProject);
          }
          if st.languageStd != "" {
            return Err(AlreadySet(LanguageStdSetting, st.languageStd, arg));
          }
          return Ok(st.(languageStd := arg));
        case CxxStandardArg =>
          if language == CLanguage {
            return Err(CxxStandardInCProject);
          }
          if st.languageStd != "" {
            return Err(AlreadySet(LanguageStdSetting, st.languageStd, arg));
          }
          return Ok(st.(languageStd := arg));
        case NameArg =>
          if st.outputName != "" {
            return Err(AlreadySet(OutputNameSetting, st.outputName, arg));
          }
          return Ok(st.(outputName := arg));
      }
    }

    /** The defaults and the files InitAction writes, once the arguments are accepted. */
    method InitPlanFor(ctx: Context, here: DirNode, language: Language, args: InitSettings) returns (plan: InitPlan)
      ensures plan == PlanOf(ctx, here, State(), language, InitDefaults(args, defaultoutput, language))
    {
      var st := args;
      if st.outputName == "" {
        st := st.(outputName := defaultoutput);
      }
      if st.buildMode == "" {
        st := st.(buildMode := DefaultBuildMode);
      }
      if st.languageStd == "" {
        if language == CLanguage {
          st := st.(languageStd := DefaultCStandard);
        } else if language == CplusplusLanguage {
          st := st.(languageStd := DefaultCxxStandard);
        }
      }
      var optionsFilename := ".dcc/CFLAGS";
      if language == CplusplusLanguage {
        optionsFilename := ".dcc/CXXFLAGS";
      }
      var typeVarName: string;
      if st.projectType == "dll" {
        typeVarName := "DLL";
      } else if st.projectType == "exe" {
        typeVarName := "EXE";
      } else if st.projectType == "lib" {
        typeVarName := "LIB";
      } else {
        var t := DetermineOutputType(ctx, here.mains);
        typeVarName := TypeVarName(t);
      }
      var dmakeLine: Option<string> := None;
      if st.outputName != defaultoutput {
        dmakeLine := Some(typeVarName + " = " + st.outputName);
      }
      var installDir := "$(prefix)/lib";
      if st.projectType == "exe" {
        installDir := "$(prefix)/bin";
      }
      return InitPlan(st, optionsFilename, typeVarName, dmakeLine, installDir);
    }

    /** HaveDirs */
    function HaveDirs(): bool
      reads this
    {
      |directories| > 0
    }

    /** AddDirectory */
    method AddDirectory(paths: seq<string>)
      modifies this
      ensures State() == old(State()).(directories := old(directories) + paths)
      ensures HaveDirs() <==> old(HaveDirs()) || paths != []
    {
      directories := directories + paths;
    }

    /** SetOutputType: the name is derived from the default only when there is
        none; `panicked` where FilenameForType panics. */
    method SetOutputType(ctx: Context, t: OutputType) returns (panicked: bool)
      modifies this
      ensures panicked <==> old(outputname) == "" && t == UnknownOutputType
      ensures outputtype == t
      ensures !panicked && old(outputname) == "" ==>
        outputname == FilenameForType(ctx.platform, ctx.pluginName, t, defaultoutput).value
      ensures old(outputname) != "" ==> outputname == old(outputname)
      ensures State() == old(State()).(outputtype := t, outputname := outputname)
    {
      ghost var s := State();
      var name := if outputname == "" then FilenameForType(ctx.platform, ctx.pluginName, t, defaultoutput) else Some(outputname);
      panicked := name.None?;
      outputtype := t;
      if name.Some? {
        outputname := name.value;
      }
      assert State() == s.(outputtype := t, outputname := outputname);
    }

    /** SetOutputNameFromType: decorate the name for the type; `panicked` on
        an unknown type. */
    method SetOutputNameFromType(ctx: Context) returns (panicked: bool)
      modifies this
      ensures panicked <==> outputtype == UnknownOutputType
      ensures !panicked ==> State() == old(State()).(outputname := FilenameForType(ctx.platform, ctx.pluginName, outputtype, old(outputname)).value)
      ensures panicked ==> State() == old(State())
    {
      match outputtype {
        case DllOutputType => outputname := DllFilename(ctx.platform, outputname);
        case PluginOutputType => outputname := ctx.pluginName(outputname);
        case ExeOutputType => outputname := ExeFilename(ctx.platform, outputname);
        case LibOutputType => outputname := LibFilename(ctx.platform, outputname);
        case UnknownOutputType => return true;
      }
      return false;
    }

    /** DetermineOutputType: scan the sources for main() and stop at the first. */
    method DetermineOutputType(ctx: Context, mains: set<string>) returns (t: OutputType)
      ensures t == OutputTypeOf(ctx, mains, sourceFiles)
    {
      var i := 0;
      while i < |sourceFiles| && sourceFiles[i] !in mains
        invariant 0 <= i <= |sourceFiles|
        invariant forall k :: 0 <= k < i ==> sourceFiles[k] !in mains
      {
        i := i + 1;
      }
      if i < |sourceFiles| {
        return ExeOutputType;
      }
      if ctx.dllflag {
        t := DllOutputType;
      } else if ctx.pluginflag {
        t := PluginOutputType;
      } else {
        t := LibOutputType;
      }
    }

    /** InitFromVars */
    method InitFromVars(ctx: Context, g: Globber, vars: Vars) returns (err: Option<Failure>)
      modifies this
      ensures State() == InitFromVarsOf(ctx, g, vars.values, old(State())).0
      ensures err == InitFromVarsOf(ctx, g, vars.values, old(State())).1
    {
      err := SetSources(ctx, g, vars);
      if err.Some? {
        return;
      }
      SetPrefix(vars);
      err := SetDirectories(ctx, g, vars);
      if err.Some? {
        return;
      }
      err := CheckVar(ctx, vars, "DLL", DllOutputType);
      if err.Some? {
        return;
      }
      err := CheckVar(ctx, vars, "PLUGIN", PluginOutputType);
      if err.Some? {
        return;
      }
      err := CheckVar(ctx, vars, "EXE", ExeOutputType);
      if err.Some? {
        return;
      }
      err := CheckVar(ctx, vars, "LIB", LibOutputType);
    }

    /** The SRCS part of InitFromVars. */
    method SetSources(ctx: Context, g: Globber, vars: Vars) returns (err: Option<Failure>)
      modifies this
      ensures State() == SrcsOf(ctx, g, vars.values, old(State())).0
      ensures err == SrcsOf(ctx, g, vars.values, old(State())).1
    {
      ghost var r := SrcsOf(ctx, g, vars.values, State());
      var patterns, found := vars.GetValue("SRCS");
      if found {
        var files, e := ExpandGlobs(g, ctx.others, patterns);
        sourceFiles := files;
        assert State() == r.0;
        if e.Some? {
          return Some(Error(e.value));
        }
        if |sourceFiles| < 1 {
          return Some(Error("SRCS=" + patterns + " matches no source files"));
        }
      }
      return None;
    }

    /** The PREFIX part of InitFromVars. */
    method SetPrefix(vars: Vars)
      modifies this
      ensures State() == PrefixOf(vars.values, old(State()))
    {
      var path, found := vars.GetValue("PREFIX");
      if found && installprefix == "" {
        installprefix := path;
      }
    }

    /** The DIRS part of InitFromVars. */
    method SetDirectories(ctx: Context, g: Globber, vars: Vars) returns (err: Option<Failure>)
      modifies this
      ensures State() == DirsOf(ctx, g, vars.values, old(State())).0
      ensures err == DirsOf(ctx, g, vars.values, old(State())).1
    {
      ghost var r := DirsOf(ctx, g, vars.values, State());
      var patterns, found := vars.GetValue("DIRS");
      if found {
        var names, e := ExpandGlobs(g, ctx.others, patterns);
        directories := names;
        assert State() == r.0;
        if e.Some? {
          return Some(Error(e.value));
        }
        if |directories| < 1 {
          return Some(Error(DirsMessage(patterns)));
        }
      }
      return None;
    }

    /** The checkVar closure of InitFromVars. */
    method CheckVar(ctx: Context, vars: Vars, key: string, t: OutputType) returns (err: Option<Failure>)
      requires t != UnknownOutputType
      modifies this
      ensures State() == CheckVarOf(ctx, vars.values, old(State()), key, t).0
      ensures err == CheckVarOf(ctx, vars.values, old(State()), key, t).1
    {
      ghost var r := CheckVarOf(ctx, vars.values, State(), key, t);
      var name, found := vars.GetValue(key);
      if found {
        if outputtype != UnknownOutputType && outputtype != t {
          var current := OutputTypeString(outputtype);
          if current.None? {
            return Some(Panic("unexpected OutputType"));
          }
          return Some(Error(ConflictMessage(key, current.value)));
        }
        SetOutput(ctx, t, name);
      }
      return None;
    }

    /** The type and the name made from `name` for it, as checkVar sets them. */
    method SetOutput(ctx: Context, t: OutputType, name: string)
      requires t != UnknownOutputType
      modifies this
      ensures State() == old(State()).(outputtype := t, outputname := FilenameForType(ctx.platform, ctx.pluginName, t, name).value)
    {
      outputtype := t;
      outputname := FilenameForType(ctx.platform, ctx.pluginName, t, name).value;
    }

    /** ReadDmakefile: read ./.dmake into a fresh Vars and apply it. */
    method ReadDmakefile(ctx: Context, here: DirNode) returns (err: Option<Failure>)
      modifies this
      ensures (State(), err) == ReadDmakefileOf(ctx, here, old(State()))
    {
      if here.dmakefile.None? {
        return None;
      }
      var vars := new Vars();
      var e := vars.ReadFromReader(here.dmakefile.value, DmakeFileFilename);
      if e.Some? {
        return Some(Error(e.value));
      }
      err := InitFromVars(ctx, here.glob, vars);
    }

    /** BuildAction: run dcc on the sources; `None` args means DccArgument panicked. */
    method BuildAction(ctx: Context, proc: Process, env: seq<string>) returns (err: Option<Failure>)
      requires proc.Here().Some?
      modifies proc
      ensures proc.cwd == old(proc.cwd)
      ensures DccArgs(ctx, State()).None? ==> err == Some(Panic("unexpected OutputType")) && proc.log == old(proc.log)
      ensures DccArgs(ctx, State()).Some? ==>
        proc.log == old(proc.log) + [Build(proc.cwd, env, DccArgs(ctx, State()).value)]
        && err == AsError(proc.Here().value.buildError)
    {
      var kind := DccArgument(outputtype);
      if kind.None? {
        return Some(Panic("unexpected OutputType"));
      }
      var dccArgs: seq<string> := [];
      if ctx.dccdebug {
        dccArgs := dccArgs + ["--debug"];
      }
      if ctx.quiet {
        dccArgs := dccArgs + ["--quiet"];
      }
      dccArgs := dccArgs + [kind.value, outputname];
      dccArgs := dccArgs + ["--objdir", ctx.objsdir];
      dccArgs := dccArgs + sourceFiles;
      assert dccArgs == DccArgs(ctx, State()).value;
      proc.Record(Build(proc.cwd, env, dccArgs));
      err := AsError(proc.Here().value.buildError);
    }

    /** CleanAction: remove the output, then each source's object and
        dependency files, and their directories when they are the object or
        dependency directory. */
    method CleanAction(ctx: Context, proc: Process) returns (err: Option<Failure>)
      modifies proc
      ensures err.None? && proc.cwd == old(proc.cwd)
      ensures proc.log == old(proc.log) + [Remove(proc.cwd, outputname)] + CleanSources(ctx, proc.cwd, sourceFiles)
    {
      proc.Record(Remove(proc.cwd, outputname));
      ghost var start := proc.log;
      assert CleanSources(ctx, proc.cwd, sourceFiles[..0]) == [];
      for i := 0 to |sourceFiles|
        invariant proc.cwd == old(proc.cwd)
        invariant proc.log == start + CleanSources(ctx, proc.cwd, sourceFiles[..i])
      {
        CleanOne(ctx, proc, sourceFiles[i]);
        CleanSourcesStep(ctx, proc.cwd, sourceFiles, i);
        AppendAssoc(start, CleanSources(ctx, proc.cwd, sourceFiles[..i]), CleanSource(ctx, proc.cwd, sourceFiles[i]));
      }
      assert sourceFiles[..|sourceFiles|] == sourceFiles;
      return None;
    }

    /** One round of CleanAction's loop. */
    static method CleanOne(ctx: Context, proc: Process, source: string)
      modifies proc
      ensures proc.cwd == old(proc.cwd)
      ensures proc.log == old(proc.log) + CleanSource(ctx, proc.cwd, source)
    {
      ghost var start := proc.log;
      var ofile := ObjectFilename(ctx.platform, source, ctx.objsdir);
      var dfile := DependenciesFilename(ofile, ctx.depsdir, ctx.objsdir);
      DoClean(proc, ofile, ctx.objsdir);
      DoClean(proc, dfile, ctx.depsdir);
      AppendAssoc(start, CleanPath(proc.cwd, ofile, ctx.objsdir), CleanPath(proc.cwd, dfile, ctx.depsdir));
    }

    /** The doClean closure of CleanAction. */
    static method DoClean(proc: Process, path: string, deletable: string)
      modifies proc
      ensures proc.cwd == old(proc.cwd)
      ensures proc.log == old(proc.log) + CleanPath(proc.cwd, path, deletable)
    {
      proc.Record(Remove(proc.cwd, path));
      var dir := Dir(path);
      if Base(dir) == deletable {
        proc.Record(RemoveAll(proc.cwd, dir));
        assert proc.log == old(proc.log) + [Remove(proc.cwd, path), RemoveAll(proc.cwd, dir)];
      }
    }

    /** InstallAction, with the destination directory passed to installfile
        (see InstallAsWritten for the call as written). */
    method InstallAction(proc: Process) returns (err: Option<Failure>)
      requires proc.Here().Some?
      modifies proc
      ensures proc.cwd == old(proc.cwd)
      ensures proc.log == old(proc.log) + [InstallOf(proc.cwd, State())]
      ensures err == AsError(proc.Here().value.installError)
    {
      var path := installprefix;
      if path == "" {
        path := ".";
      }
      var dest: string;
      var mode: nat;
      if outputtype == ExeOutputType {
        dest := Join(path, "bin");
        mode := ModeExecutable;
      } else {
        dest := Join(path, "lib");
        mode := ModeReadOnly;
      }
      proc.Record(Install(proc.cwd, outputname, InstallTarget(outputname, dest), mode));
      err := AsError(proc.Here().value.installError);
    }

    /** Run: read .dmake, walk the sub-directories, find the sources, infer the
        type, then clean, or build and maybe install. */
    method Run(ctx: Context, proc: Process, action: Action, env: seq<string>, ghost here: DirNode) returns (err: Option<Failure>)
      requires proc.Here() == Some(here) && IsFamilyOrder(ctx.familyOrder)
      modifies this, proc
      ensures var r := RunOf(ctx, proc.root, old(proc.cwd), here, old(State()), action, env);
        err == r.0.err && proc.cwd == r.0.cwd && proc.log == old(proc.log) + r.0.effects && State() == r.1
      decreases here, 1
    {
      var node := proc.Here().value;
      err := ReadDmakefile(ctx, node);
      if err.Some? {
        return;
      }
      ghost var d1 := State();
      ghost var w := Outcome(None, [], proc.cwd);
      if HaveDirs() {
        err := Directories(ctx, proc, action, env, here);
        w := WalkOf(ctx, proc.root, old(proc.cwd), here, directories, 0, installprefix, action, env, None);
        if err.Some? {
          return;
        }
      }
      assert proc.log == old(proc.log) + w.effects;
      ghost var before := proc.log;
      err := LocalRun(ctx, proc, action, env);
      AppendAssoc(old(proc.log), w.effects, LocalRunOf(ctx, old(proc.cwd), here, d1, action, env).0.effects);
    }

    /** The part of Run after the sub-directories. */
    method LocalRun(ctx: Context, proc: Process, action: Action, env: seq<string>) returns (err: Option<Failure>)
      requires proc.Here().Some? && IsFamilyOrder(ctx.familyOrder)
      modifies this, proc
      ensures var r := LocalRunOf(ctx, old(proc.cwd), old(proc.Here()).value, old(State()), action, env);
        err == r.0.err && proc.cwd == r.0.cwd && proc.log == old(proc.log) + r.0.effects && State() == r.1
    {
      var node := proc.Here().value;
      var e := Discover(ctx, node);
      if e.Some? {
        return Some(Error(e.value));
      }
      if |sourceFiles| < 1 {
        if !HaveDirs() {
          return Some(Error(NoSourcesMessage));
        }
        return None;
      }
      Infer(ctx, node.mains);
      err := Act(ctx, proc, action, env);
    }

    /** The SourceFiles call of Run. */
    method Discover(ctx: Context, here: DirNode) returns (err: Option<string>)
      requires IsFamilyOrder(ctx.familyOrder)
      modifies this
      ensures (State(), err) == DiscoverOf(ctx, here, old(State()))
    {
      if |sourceFiles| < 1 {
        var paths, lang, e := SourceFiles(here.glob, ctx.others, ctx.familyOrder, ctx.langflag);
        sourceFiles := paths;
        return e;
      }
      return None;
    }

    /** The type inference of Run. */
    method Infer(ctx: Context, mains: set<string>)
      modifies this
      ensures State() == InferOf(ctx, mains, old(State()))
    {
      if outputtype == UnknownOutputType {
        outputtype := DetermineOutputType(ctx, mains);
        if outputnameDefaulted {
          var panicked := SetOutputNameFromType(ctx);
        }
      }
    }

    /** The end of Run: clean, or build and then maybe install. */
    method Act(ctx: Context, proc: Process, action: Action, env: seq<string>) returns (err: Option<Failure>)
      requires proc.Here().Some?
      modifies proc
      ensures proc.cwd == old(proc.cwd)
      ensures var o := ActOf(ctx, old(proc.cwd), old(proc.Here()).value, State(), action, env);
        err == o.err && proc.log == old(proc.log) + o.effects
    {
      if action == Cleaning {
        err := CleanAction(ctx, proc);
        AppendAssoc(old(proc.log), [Remove(proc.cwd, outputname)], CleanSources(ctx, proc.cwd, sourceFiles));
        return;
      }
      err := BuildAction(ctx, proc, env);
      if err.Some? {
        return;
      }
      if action == Installing {
        ghost var built := proc.log;
        err := InstallAction(proc);
        AppendAssoc(old(proc.log), [Build(proc.cwd, env, DccArgs(ctx, State()).value)], [InstallOf(proc.cwd, State())]);
      }
    }

    /** Directories: run a fresh Dmake in each sub-directory. Without
        keep-going the first failure returns at once, before Restore. A panic
        in a sub-directory unwinds through this loop. */
    method Directories(ctx: Context, proc: Process, action: Action, env: seq<string>, ghost here: DirNode) returns (result: Option<Failure>)
      requires proc.Here() == Some(here) && IsFamilyOrder(ctx.familyOrder)
      modifies proc
      ensures var w := WalkOf(ctx, proc.root, old(proc.cwd), here, directories, 0, installprefix, action, env, None);
        result == w.err && proc.cwd == w.cwd && proc.log == old(proc.log) + w.effects
      decreases here, 0
    {
      ghost var cwd := proc.cwd;
      ghost var done: seq<Effect> := [];
      ghost var total := WalkOf(ctx, proc.root, cwd, here, directories, 0, installprefix, action, env, None);
      assert [] + total.effects == total.effects;
      result := None;
      var i := 0;
      while i < |directories|
        invariant 0 <= i <= |directories|
        invariant proc.cwd == cwd && proc.Here() == Some(here)
        invariant !Panicked(result) && (result.None? || ctx.keepgoing)
        invariant proc.log == old(proc.log) + done
        invariant total == Then(done, WalkOf(ctx, proc.root, cwd, here, directories, i, installprefix, action, env, result))
        decreases |directories| - i
      {
        var stop, next;
        stop, next, done := Visit(ctx, proc, action, env, here, directories, i, installprefix, result, old(proc.log), done, total);
        if stop {
          return next;
        }
        result := next;
        i := i + 1;
      }
      assert WalkOf(ctx, proc.root, cwd, here, directories, i, installprefix, action, env, result) == Outcome(result, [], cwd);
      assert done + [] == done;
    }

    /** One sub-directory of Directories: enter it, run a fresh Dmake there
        and change back, or say that the walk stops here and with what. */
    static method Visit(ctx: Context, proc: Process, action: Action, env: seq<string>, ghost here: DirNode,
                        dirs: seq<string>, i: nat, prefix: string, result: Option<Failure>,
                        ghost log0: seq<Effect>, ghost done: seq<Effect>, ghost total: Outcome)
      returns (stop: bool, next: Option<Failure>, ghost done': seq<Effect>)
      requires i < |dirs| && proc.Here() == Some(here) && IsFamilyOrder(ctx.familyOrder)
      requires !Panicked(result) && (result.None? || ctx.keepgoing)
      requires proc.log == log0 + done
      requires total == Then(done, WalkOf(ctx, proc.root, proc.cwd, here, dirs, i, prefix, action, env, result))
      modifies proc
      ensures proc.log == log0 + done'
      ensures stop ==> next == total.err && proc.cwd == total.cwd && done' == total.effects
      ensures !stop ==>
        proc.cwd == old(proc.cwd) && proc.Here() == Some(here) && !Panicked(next) && (next.None? || ctx.keepgoing)
        && total == Then(done', WalkOf(ctx, proc.root, old(proc.cwd), here, dirs, i + 1, prefix, action, env, next))
      decreases here, 0, 1
    {
      ghost var cwd := proc.cwd;
      var savedCwd, e, err := Enter(ctx, proc, action, env, here, dirs[i], prefix);
      if e.Some? {
        WalkStepNoEntry(ctx, proc.root, cwd, here, dirs, i, prefix, action, env, result);
        assert done + [] == done;
        return true, Some(Error(e.value)), done;
      }
      ghost var o := SubRun(ctx, proc.root, cwd, here, dirs[i], prefix, action, env);
      AppendAssoc(log0, done, o.effects);
      done' := done + o.effects;
      next := result;
      if err.Some? {
        if err.value.Panic? || !ctx.keepgoing {
          WalkStepStops(ctx, proc.root, cwd, here, dirs, i, prefix, action, env, result);
          return true, err, done';
        }
        if next.None? {
          next := err;
        }
      }
      WalkStepGoesOn(ctx, proc.root, cwd, here, dirs, i, prefix, action, env, result);
      ThenThen(done, o.effects, WalkOf(ctx, proc.root, cwd, here, dirs, i + 1, prefix, action, env, next));
      Restore(proc, savedCwd);
      stop := false;
    }

    /** One round of Directories up to the sub-directory's run: change into
        `path` and run a fresh Dmake there. */
    static method Enter(ctx: Context, proc: Process, action: Action, env: seq<string>, ghost here: DirNode, path: string, prefix: string)
      returns (savedCwd: CwdRestorer, e: Option<string>, err: Option<Failure>)
      requires proc.Here() == Some(here) && IsFamilyOrder(ctx.familyOrder)
      modifies proc
      ensures e == ChangeDirectoryError(here, path)
      ensures e.Some? ==> proc.cwd == old(proc.cwd) && proc.log == old(proc.log)
      ensures e.None? ==>
        var o := SubRun(ctx, proc.root, old(proc.cwd), here, path, prefix, action, env);
        err == o.err && proc.cwd == o.cwd && proc.log == old(proc.log) + o.effects
        && savedCwd == CwdRestorer(old(proc.cwd), None)
      decreases here, 0, 0
    {
      err := None;
      savedCwd, e := ChangeDirectory(proc, path);
      if e.Some? {
        return;
      }
      ghost var child := here.subdirs[FindSub(here.subdirs, path).value].node;
      NodeAtChild(proc.root, old(proc.cwd), here, path);
      var sub := new Dmake(path, "", prefix);
      err := sub.Run(ctx, proc, action, env, child);
    }
  }

  /** `w` with `effects` logged before it. */
  function Then(effects: seq<Effect>, w: Outcome): Outcome {
    Outcome(w.err, effects + w.effects, w.cwd)
  }

  lemma ThenThen(a: seq<Effect>, b: seq<Effect>, w: Outcome)
    ensures Then(a, Then(b, w)) == Then(a + b, w)
  {
    AppendAssoc(a, b, w.effects);
  }
}
