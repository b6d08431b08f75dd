# dmake, modelled in Dafny

dmake is a small build tool that sits on top of the `dcc` compiler driver.
In a directory of C, C++, Objective-C or Objective-C++ sources, it works out:

- which files to compile;
- whether the result is an executable, a static library, a shared library or a plugin;
- what the result is called.

It then runs `dcc`, cleans the build products away, or installs the result
under a prefix. An optional `.dmake` file of `NAME = value` lines can set:

- the sources (`SRCS`);
- the sub-directories to visit first (`DIRS`);
- the install prefix (`PREFIX`);
- the output name and type (`DLL`, `PLUGIN`, `EXE`, `LIB`).

`dmake init` writes a starting `.dcc` options file, `.dmake` and `Makefile`.

The modules follow the Go files:

| module | models |
|---|---|
| `Enums` | `enums.go`: the `Action`, `Language` and `OutputType` enumerations, their strings, the `-lang` flag and the dcc option of each output type |
| `Platform` | `platform.go`: the Windows, macOS and ELF naming profiles, the host selection, the other-platform file filter and the prefix/suffix decoration of file names |
| `Vars` | `vars.go`: the word-by-word `$NAME` interpolator of the variable store |
| `VarsApi` | The variable-store API that `dmake.go` and `vars_test.go` use: `GetValue`, `SetValue`, `GetString`, `Apply` with `=`, `+=` and `-=`, `Interpolate` with `$NAME`, `${NAME}` and `$$`, and `ReadFromReader` |
| `Util` | `util.go`: globbing with the platform filter, expansion of a list of patterns, source discovery per language, object and dependency file names, the output name for a type, and changing into and out of a directory |
| `Dmake` | `dmake.go`: the `Dmake` descriptor of one directory as a class, `.dmake` reading, the walk over sub-directories, the build, clean and install actions, and `InitAction` |
| `Driver` | `main.go`: the older driver built on package globals, with its own `.dmake` reader, file naming, source discovery, type inference, argument splitting and command-line dispatch |

The file system is a tree of `DirNode` values (module `Workspace`):

- each node holds its sub-directories, the `.dmake` lines if there is a file, a `Globber` function for `filepath.Glob`, and the set of sources that define `main()`;
- each node also holds the error that `os.Getwd`, `dcc` or the installer would return there;
- a `Process` object holds the current directory and an append-only log of effects (`Build`, `Remove`, `RemoveAll`, `Install`), which stand for the commands and file operations dmake performs;
- `Text` and `Paths` give the parts of Go's `strings` and `path/filepath` that the core relies on, such as `Fields`, `TrimSpace`, `Base`, `Dir`, `Join` and `Ext`.

Each Go method that updates its receiver's fields is a `method` of a class with those fields. The method is proved against a function on the state as a value, and the lemmas state what that function promises. For example:

- `Dmake.Dmake.Run` is proved to do what `Dmake.RunOf` describes;
- `Dmake.Dmake.Directories` is proved to do what `Dmake.WalkOf` describes;
- `RunEndsHome`, `WalkStopsAtFailure` and `WalkKeepGoing` then say what that means for the process's directory and for the `-k` (keep going) flag.

## Model

| member | source | states |
|---|---|---|
| Enums.ActionStringInjective | enums.go:25-39 | Different actions have different names, so the debug output names the action unambiguously |
| Enums.ParseLanguage | enums.go:70-84 | A language parsed from an argument is a known language whose name is that argument |
| Enums.LanguageRoundTrip | enums.go:53-84 | Parsing a known language's name gives that language back; the unknown language's name parses to nothing |
| Enums.ParseLanguageAccepts | enums.go:70-84 | Exactly "c", "c++", "objc" and "objc++" are accepted by the -lang flag |
| Enums.LanguageFlag.Set | enums.go:70-84 | The flag is set exactly when the argument parses. Otherwise it is unchanged and the error is `"<arg>" is not a valid language` |
| Enums.DccArgumentIsDashedName | enums.go:97-123 | DccArgument panics exactly for the unknown and plugin types; otherwise it is "--" followed by the type's name |
| Platform.ProfileShapes | platform.go:33-61 | Windows uses no lib prefix and the .lib/.dll/.exe/.obj suffixes; macOS differs from ELF only in its shared-library suffix (.dylib against .so) |
| Platform.Init | platform.go:75-106 | The host profile is chosen by GOOS; the other-platform list is every known platform except the host |
| Platform.OtherPlatformsExcludeHost | platform.go:76-104 | The host is never in the other-platform list, and every other known platform is |
| Platform.OtherPlatformFileTagged | platform.go:99-105 | A file is filtered out exactly when its name contains `_<p>.` for a known platform p other than the host |
| Platform.Decorate | platform.go:124-133 | A decorated name starts with the prefix and ends with the suffix. Each is added only when missing |
| Platform.DecorateIdempotent | platform.go:124-133 | Decorating twice gives the same name as decorating once |
| Platform.FormFilenameShape | platform.go:124-133 | formFilename keeps the directory and decorates only the base name |
| Platform.DecoratedIsElement | platform.go:124-133 | A decorated base name is a single path element |
| Platform.FormFilenameIdempotent | platform.go:108-133 | Forming a file name is idempotent |
| Platform.ProfilesHavePlainAffixes | platform.go:33-61 | No profile's prefix or suffix contains a slash |
| Platform.ExeAndObjNeverPrefix | platform.go:114-122 | Executable and object names keep the directory and start with the original base name |
| Platform.PlatformNamesIdempotent | platform.go:108-122 | LibFilename, DllFilename and ExeFilename are idempotent |
| Platform.ElfNames | platform.go:55-61 | On ELF, lib x is libx.a, dll x is libx.so and exe x is x |
| Platform.NameOfElement | platform.go:124-133 | For a plain name, formFilename is just the decoration |
| Platform.InstallTarget | platform.go:135-165 | The installer puts the file, under its own name, into the destination directory |
| Vars.InterpolateVarReferences | vars.go:15-26 | The in-place loop over the fields computes the word-by-word substitution |
| Vars.SubstituteInPlace | vars.go:17-24 | Every field of the array is replaced by its substitution |
| Vars.WordsPreserved | vars.go:15-26 | When every value is one word, interpolation keeps the number of fields, and field i becomes the substitution of field i |
| Vars.WhitespaceNormalised | vars.go:15-26 | Interpolation depends only on the fields, not on the spacing between them |
| Vars.UndefinedKept | vars.go:18-22 | With no defined references, interpolation only normalises the spacing |
| Vars.SubstituteWordChanges | vars.go:18-22 | A word changes only when it is `$` followed by a defined name, and then it becomes that value |
| Vars.SinglePass | vars.go:15-26 | Substitution is one pass: a value that itself reads `$x` is not substituted again |
| VarsApi.Vars.constructor | vars_test.go:17 | A new store is empty |
| VarsApi.Vars.SetValue | vars_test.go:40-41 | SetValue sets one key and keeps the others |
| VarsApi.Vars.GetValue | dmake.go:523 | `found` is true exactly when the key is defined; an undefined key gives "" |
| VarsApi.Vars.GetString | vars_test.go:161 | GetString gives the value, or "" for an undefined key |
| VarsApi.Vars.Apply | vars_test.go:156-170 | Apply changes the key to the value the operator gives and no other key |
| VarsApi.ApplyPlusEqExtends | vars_test.go:160-163 | `+=` appends: the old value is a prefix, the operand a suffix, and the lengths add up |
| VarsApi.ApplyMinusEqChar | vars_test.go:165-168 | `-= c` removes every c from the value and is a no-op when there is none |
| VarsApi.ExpandNoDollar | vars_test.go:51-61 | A string with no `$` interpolates to itself, "" included |
| VarsApi.ExpandEscape | vars_test.go:63-80 | `$$` gives one `$` and expansion goes on after it |
| VarsApi.ExpandBraced | vars_test.go:118-128 | `${NAME}` is replaced by the value, or by "" when undefined |
| VarsApi.ExpandBare | vars_test.go:82-100 | `$NAME` is replaced by the value, or by "" when undefined |
| VarsApi.ExpandUnterminated | vars_test.go:43-47 | `Interpolate` can return an error; in this model an unclosed `${` is that error |
| VarsApi.InterpolateEscape | vars_test.go:63-80 | `p$$q` gives `p$q` |
| VarsApi.InterpolateUndefinedBraced | vars_test.go:102-116 | An undefined `${NAME}` disappears and the text around it is kept |
| VarsApi.InterpolateUndefinedBare | vars_test.go:82-100 | An undefined `$NAME` at the end disappears |
| VarsApi.InterpolateDefinedBraced | vars_test.go:118-143 | A defined `${NAME}` is replaced in place |
| VarsApi.InterpolateRepeated | vars_test.go:130-133 | A reference that occurs twice is replaced both times |
| VarsApi.InterpolateAdjacent | vars_test.go:145-153 | Adjacent references are both replaced, in either spelling |
| VarsApi.ParseStatement | vars_test.go:9-15 | Blank lines and comments are blank. An assignment's key is one word without `=` |
| VarsApi.BareNameIsTrue | vars_test.go:12 | A bare name on a line defines it as "true" |
| VarsApi.PlainAssignment | vars_test.go:11 | `NAME = value` assigns value to NAME |
| VarsApi.CommentIsBlank | vars_test.go:9 | A `#` line is ignored |
| VarsApi.ReadLinesKeys | dmake.go:498-507 | Reading keeps every key it had and adds only keys assigned in the file |
| VarsApi.ReadLinesSkipsBlank | vars_test.go:9-15 | A file of blank and comment lines defines nothing |
| VarsApi.TestReadFromFile | vars_test.go:8-36 | The test's input defines exactly AVAR = "AVAR-Value" and BOOLEAN = "true" |
| VarsApi.Vars.ReadFromReader | vars_test.go:17-22 | Reading updates the store to what ReadLines computes, with the same error |
| Util.FilteredMembers | util.go:91-101 | A name survives the filter exactly when the glob found it and it is not another platform's file |
| Util.FilteredAppend | util.go:91-101 | Filtering distributes over concatenation |
| Util.FilteredIdempotent | util.go:91-101 | Filtering twice is filtering once |
| Util.Glob | util.go:85-105 | A glob error is passed on with no names. Otherwise the names are the filtered matches, in order, and `matched` is true exactly when there is one |
| Util.ExpandGlobs | util.go:107-117 | The loop computes the expansion of the patterns' fields, or the first glob error with no names |
| Util.GlobEach | util.go:109-115 | The loop over a list of patterns computes ExpandedGlobs |
| Util.ExpandedGlobsAppend | util.go:107-117 | Expanding two lists is expanding the first, then the second after its names |
| Util.ExpandedGlobsMembers | util.go:107-117 | A name is expanded exactly when some pattern's glob found it and the filter keeps it |
| Util.ExpandedGlobsFirstError | util.go:107-117 | Expansion fails exactly when some glob fails, and then with the first failing pattern's error |
| Util.SourceFiles | util.go:132-148 | The loop over languages and patterns computes SourceFilesOf |
| Util.SearchFamilyOf | util.go:134-145 | The loop over one language's patterns computes SearchFamily |
| Util.SearchFamilyFirst | util.go:134-145 | What a language's search returns is the first of its patterns that matches something, and every earlier pattern matched nothing |
| Util.SearchFamilyNothing | util.go:134-145 | A language's search finds nothing exactly when every one of its patterns matches nothing |
| Util.SourceFilesNone | util.go:132-148 | No sources and no error exactly when every pattern of every language matches nothing |
| Util.SearchFamiliesNone | util.go:133-147 | The languages, in map order, find nothing exactly when every one of their patterns matches nothing |
| Util.SourceFilesFound | util.go:132-148 | Found sources are one pattern's filtered matches. The language is -lang when given, else that pattern's language |
| Util.SearchFamiliesFound | util.go:133-145 | A successful search returns a non-empty match of some pattern of the language it names |
| Util.ObjectFilenameShape | util.go:70-74 | An object file lives in `<dir>/<objsdir>` and is the source's stem with the object suffix |
| Util.DependenciesFilenameShape | util.go:76-83 | A dependency file keeps the object's base name. It stays beside the object when the object directory ends in objsdir, else it goes into `<dir>/<depsdir>` |
| Util.DependenciesOfObjectFile | util.go:70-83 | A source's dependency file sits beside its object file, under the same name |
| Util.FilenameForTypeIdempotent | util.go:150-163 | FilenameForType panics exactly for the unknown type, and is idempotent for dll, exe and lib |
| Util.ChangeDirectory | util.go:170-181 | A Getwd failure leaves the directory unchanged and returns the detailed error. Otherwise the old directory is saved, and the process moves into the child `path` of the directory tree when there is one, or returns the detailed Chdir error |
| Util.Restore | util.go:183-190 | Restore goes back to the saved directory only when ChangeDirectory succeeded |
| Dmake.DefaultOutputOfSourceDir | dmake.go:49-56 | A directory `p/src` or `p/source` is named after p; any other directory after itself |
| Dmake.Dmake.constructor | dmake.go:49-65 | A new descriptor has that default name and prefix, with empty sources, directories and type. The name is the default, and marked defaulted, exactly when none was given |
| Dmake.SrcsOf | dmake.go:523-532 | Without SRCS nothing changes. Otherwise only the sources change, and a successful step leaves at least one |
| Dmake.PrefixOf | dmake.go:534-538 | PREFIX applies only when no prefix is set |
| Dmake.DirsOf | dmake.go:540-550 | Without DIRS nothing changes. Otherwise only the directories change, and a successful step leaves at least one |
| Dmake.CheckVarOf | dmake.go:552-561 | A checkVar step changes only the type and the output name |
| Dmake.CheckVarOfMeaning | dmake.go:552-561 | An undefined key changes nothing. A defined key fails exactly when a different type is already known, and otherwise sets the type and the decorated name |
| Dmake.CheckVarsOf | dmake.go:562-574 | The four checks change only the type and the output name |
| Dmake.CheckVarsKeepKnownType | dmake.go:552-574 | A known type is never replaced silently: success keeps it |
| Dmake.CheckVarsFirstDecides | dmake.go:552-574 | DLL with any other type variable is a conflict, and so are EXE and LIB together. On success the type is the first of DLL, PLUGIN, EXE, LIB that is defined |
| Dmake.PrefixOnlyWhenUnset | dmake.go:534-538 | InitFromVars never overrides a prefix that was given |
| Dmake.EmptyGlobsRejected | dmake.go:523-550 | SRCS matching nothing is the "matches no source files" error. After success, a defined SRCS or DIRS is non-empty |
| Dmake.Dmake.InitFromVars | dmake.go:518-575 | The method updates the state, and returns the error, that InitFromVarsOf describes |
| Dmake.Dmake.SetSources | dmake.go:523-532 | The SRCS step updates the state, and returns the error, that SrcsOf describes |
| Dmake.Dmake.SetPrefix | dmake.go:534-538 | The PREFIX step updates the state as PrefixOf describes |
| Dmake.Dmake.SetDirectories | dmake.go:540-550 | The DIRS step updates the state, and returns the error, that DirsOf describes |
| Dmake.Dmake.CheckVar | dmake.go:552-561 | One checkVar updates the state, and returns the error, that CheckVarOf describes |
| Dmake.Dmake.ReadDmakefile | dmake.go:498-507 | A missing .dmake file is no error. A read error is returned. Otherwise InitFromVars runs on what was read |
| Dmake.OutputTypeOf | dmake.go:472-493 | The inferred type is never unknown. It is exe exactly when some source defines main() |
| Dmake.Dmake.DetermineOutputType | dmake.go:472-493 | The loop computes OutputTypeOf over the descriptor's sources |
| Dmake.InferKnown | dmake.go:105-110 | After inference the type is known. A known type keeps its name, and a given name is never decorated |
| Dmake.Dmake.Infer | dmake.go:105-110 | Run's inference step updates the state as InferOf describes |
| Dmake.Dmake.SetOutputNameFromType | dmake.go:127-140 | The name is decorated for the type, and nothing else changes. It panics exactly when the type is unknown |
| Dmake.Dmake.SetOutputType | dmake.go:591-596 | The type is set. An empty name becomes the default decorated for the type, and any other name is kept. It panics exactly for an empty name with the unknown type |
| Dmake.Dmake.AddDirectory | dmake.go:579-587 | The paths are appended to the directories, and HaveDirs becomes true exactly when there is one |
| Dmake.DccArgsShape | dmake.go:184-193 | The dcc arguments are the optional --debug and --quiet, the type option and the name, --objdir and its value, then every source in order |
| Dmake.PluginBuildPanics | dmake.go:191 | A plugin cannot be built: DccArgument has no case for it |
| Dmake.Dmake.BuildAction | dmake.go:180-202 | The build logs one dcc run with those arguments and returns dcc's error. It panics with nothing logged when the type has no dcc option |
| Dmake.CleanPath | dmake.go:209-215 | doClean removes the file first, and removes only things in the current directory |
| Dmake.CleanSource | dmake.go:216-218 | Cleaning a source removes its object file and only things in the current directory |
| Dmake.CleanRemovesObjects | dmake.go:206-221 | The clean loop removes every source's object file |
| Dmake.CleanStaysHere | dmake.go:206-221 | The clean loop only removes things in the current directory |
| Dmake.Dmake.CleanAction | dmake.go:206-221 | Clean removes the output, then each source's object and dependency files in order, and never fails |
| Dmake.Dmake.CleanOne | dmake.go:216-218 | One round of the clean loop logs that source's removals |
| Dmake.Dmake.DoClean | dmake.go:209-215 | doClean logs the removal of the file, then of its directory when that directory is named `deletable` |
| Dmake.InstallOfTarget | dmake.go:225-240 | An executable installs into `<prefix>/bin` with mode 0555, anything else into `<prefix>/lib` with mode 0444; an empty prefix means "." |
| Dmake.Dmake.InstallAction | dmake.go:225-242 | Install logs one install of the output and returns the installer's error |
| Dmake.DiscoverOf | dmake.go:86-91 | Discovery changes only the sources, and only when there were none |
| Dmake.Dmake.Discover | dmake.go:86-91 | The discovery step updates the state, and returns the error, that DiscoverOf describes |
| Dmake.ActOf | dmake.go:112-124 | The action never changes directory |
| Dmake.ActSequencing | dmake.go:112-124 | Clean removes the output first and never fails. Build and install log the dcc run first, and log the install only for install when the build succeeded. A failed build returns its error, and a plugin panics |
| Dmake.Dmake.Act | dmake.go:112-124 | The action step logs what ActOf describes and returns its error |
| Dmake.NoSourcesOutcome | dmake.go:93-99 | With no sources, a directory without DIRS is the "no ... source files found" error, and one with DIRS succeeds doing nothing |
| Dmake.LocalRunOf | dmake.go:86-124 | The part of Run after the sub-directories stays in the current directory |
| Dmake.Dmake.LocalRun | dmake.go:86-124 | That part of Run logs what LocalRunOf describes and updates the state to match |
| Dmake.RunOf | dmake.go:69-125 | In the directory tree, a run that succeeds, or fails without a panic under -k, ends where it began; any run ends at or below where it began |
| Dmake.RunEndsHome | dmake.go:69-125 | In the directory tree, a run ends in its starting directory unless it failed without -k or panicked; it never goes above that directory |
| Dmake.ReadKeepsGivenPrefix | dmake.go:534-538 | Reading `.dmake` keeps a prefix that was given |
| Dmake.DotDirRepeats | dmake.go:144-159 | As written, `DIRS = .` enters the same directory, and from the second level on each run passes on the prefix it received, so Run recurses forever |
| Dmake.SubdirectoryDescends | dmake.go:154-159 | A sub-directory name leads exactly one level down, the only kind of step the directory tree has |
| Dmake.Dmake.Run | dmake.go:69-125 | Run's error, final directory, log and descriptor are those RunOf describes |
| Dmake.WalkOf | dmake.go:144-176 | A walk that succeeds, or keeps going, ends where it began. A first error that was kept is always reported |
| Dmake.WalkStopsAtFailure | dmake.go:159-163 | Without -k, a failing sub-directory ends the walk with its outcome, inside that sub-directory |
| Dmake.WalkStopsAtChdirFailure | dmake.go:154-157 | A directory that cannot be entered ends the walk with the ChangeDirectory error, where it began |
| Dmake.WalkKeepGoing | dmake.go:159-166 | Under -k, with every directory enterable and no panic, every sub-directory runs in turn and the walk returns the first error |
| Dmake.Dmake.Directories | dmake.go:144-176 | The loop's error, final directory and log are those WalkOf describes |
| Dmake.Dmake.Visit | dmake.go:149-174 | One round either stops with the walk's outcome or moves on to the next directory in the same place, with the first error kept |
| Dmake.Dmake.Enter | dmake.go:154-159 | Entering fails exactly when ChangeDirectory does, and then changes nothing. Otherwise the sub-directory's run is logged and the old directory is saved |
| Dmake.InitArgStep | dmake.go:298-336 | An "already specified" failure names the argument and the value it clashes with |
| Dmake.InitArgStepMeaning | dmake.go:298-336 | An argument whose setting is already claimed fails. Otherwise it sets exactly its own setting |
| Dmake.Dmake.InitArg | dmake.go:299-335 | The switch computes InitArgStep |
| Dmake.Dmake.InitArgs | dmake.go:298-336 | The loop computes InitArgsOf from empty settings |
| Dmake.InitArgsRejectRepeats | dmake.go:298-336 | Two arguments for the same setting (two types, two build modes, two standards, two names) are always a fatal error |
| Dmake.InitArgsRejectForeignStandard | dmake.go:318-331 | A C standard in a C++ project, or a C++ standard in a C project, is always a fatal error |
| Dmake.InitArgsFromArgs | dmake.go:298-336 | Every setting is either unset or one of the arguments of its kind |
| Dmake.InitDefaults | dmake.go:338-350 | Defaults fill only settings that are empty; the project type is never defaulted |
| Dmake.InitDefaultsWithoutArgs | dmake.go:338-350 | With no arguments, init uses the default name, the debug build mode, and c11 or c++14 by language |
| Dmake.MakefileInstallDirBalanced | dmake.go:446-449 | The corrected Makefile install directory starts with `$(prefix)/` and ends in /bin exactly for an exe project |
| Dmake.InitPlanShape | dmake.go:261-468 | A successful init found none of .dcc, .dmake and Makefile, and has a build mode. It writes .dmake exactly when the name differs from the default, and installs into bin exactly for exe |
| Dmake.Dmake.InitAction | dmake.go:261-468 | InitAction returns what InitOf describes |
| Dmake.Dmake.InitPlanFor | dmake.go:352-468 | The files init writes are what PlanOf describes for the settings with their defaults |
| Dmake.DirsMessageShowsPatterns | dmake.go:548 | The corrected DIRS error shows the DIRS value |
| Dmake.DirsMessageAsWrittenHidesPatterns | dmake.go:548 | As written, with no SRCS, the DIRS error shows an empty value where the corrected message shows the DIRS value |
| Dmake.ConflictMessageAsWrittenNamesValue | dmake.go:553-555 | As written, the conflict error starts with the variable's value, not its name |
| Dmake.InstallAsWrittenNestsName | dmake.go:241 | As written, an install lands in `<dest>/<name>/<name>` instead of `<dest>/<name>` |
| Dmake.MakefileInstallDirAsWrittenUnbalanced | dmake.go:446 | As written, the library install directory `$(prefix/lib` has unbalanced parentheses |
| Dmake.CxxStandardMessageNamesWrongLanguage | dmake.go:323-325 | As written, the C++-standard error says "a C++ project" where the project is C |
| Driver.DccOptionInjective | main.go:29-31 | The three dcc options and "" are distinct |
| Driver.OtherPlatformsNarrower | main.go:735-750 | Every file that main.go filters as another platform's is filtered by platform.go too |
| Driver.ClassifyLine | main.go:637-652 | A line is skipped exactly when it is blank or a comment. A line without `=` is malformed. An assignment's key is one word without `=` |
| Driver.ClassifyLineParts | main.go:641-651 | A line that starts with `=` has no name. Otherwise the key is the trimmed text before the first `=`: with more than one word it is malformed, with one it gets the trimmed text after that `=` |
| Driver.ClassifyAssignment | main.go:637-651 | `key = value`, with one-word key and value and no `=` in the key, assigns exactly `value` to `key` |
| Driver.ClassifyAt | main.go:635-656 | Each line is classified on its own |
| Driver.ReadDmakeFile | main.go:626-657 | The loop computes ReadDmakeFileOf |
| Driver.ReadLinesKeys | main.go:635-656 | A successful read defines the predefined keys and exactly the keys the file assigns |
| Driver.ReadDmakeFileKeys | main.go:626-657 | A read defines OS, ARCH and the assigned keys |
| Driver.ReadDmakeFileFails | main.go:635-656 | A read fails exactly when some line is malformed |
| Driver.ReadDmakeFileFirstBad | main.go:630-656 | The error names the path and the 1-based number of the first malformed line |
| Driver.ReadLinesAppend | main.go:635-656 | Reading two blocks of lines is reading the first, then the second from its result |
| Driver.LaterAssignmentWins | main.go:652-653 | A later assignment replaces the value, interpolated in the variables read before it |
| Driver.MakeFilenameFromShape | main.go:552-561 | The directory is kept and the base gets the prefix and suffix; a base that has both is unchanged |
| Driver.MakeFilenameFromIdempotent | main.go:552-561 | Making a file name twice gives the same name |
| Driver.OutputFilenameAgrees | main.go:563-574 | makeDllFilename, makeExeFilename and makeLibFilename name files as platform.go does |
| Driver.MakeObjectFileFilename | main.go:576-580 | An object file name ends in the object suffix |
| Driver.MakeObjectFileFilenameShape | main.go:576-580 | The object file lives in `<dir>/<objsdir>` and is the stem followed by the object suffix |
| Driver.MakeObjectFileFilenameAppendsAlways | main.go:576-580 | main.go always appends the suffix; util.go does not when the stem already ends with it |
| Driver.ObjectFilesDependencyFile | main.go:582-589 | main.go's dependency file is util.go's |
| Driver.GetInstallDir | main.go:437-442 | Executables install into `<path>/bin` and everything else into `<path>/lib` |
| Driver.IsCommonSourceCodeSubdirectory | main.go:659-668 | src and source, in any letter case, are source sub-directories |
| Driver.SourceDirSpellings | main.go:659-668 | The accepted names are exactly `src` and `source` with each letter in either case |
| Driver.DefaultOutputFoldsCase | main.go:158-164 | main.go names a project in `p/SRC` after p, where dmake.go names it SRC |
| Driver.ExpandedPatternsAgree | main.go:595-608 | Given the same list of other platforms, main.go's expansion succeeds exactly when util.go's does, with the same names. main.go's own list is narrower (OtherPlatformsNarrower) |
| Driver.ExpandGlobPatterns | main.go:595-608 | The loop appends the expansion of the patterns' fields to the names, or returns the first glob error |
| Driver.ExpandedPatternsStep | main.go:596-605 | One pattern's error ends the expansion; otherwise its filtered matches come first |
| Driver.PatternLanguageNamesLanguage | main.go:311-321 | Every source pattern names a language whose extensions include it |
| Driver.FirstMatchSpec | main.go:304-310 | Discovery returns the first pattern with a match, after patterns that matched nothing, or reports that none matched |
| Driver.DiscoveryFirstPatternWins | main.go:302-326 | There are files exactly when a language is named. C means no C++ pattern matched, objc++ means no earlier pattern matched, and no files means no pattern matched |
| Driver.Session.GetSourceFileFilenames | main.go:304-326 | Discovery sets only the sources and returns what DiscoveryOf describes |
| Driver.DetermineOutputNames | main.go:328-346 | The type is exe exactly when some source defines main(), and dll exactly when -dll is set and none does. The name is the type's name for opath |
| Driver.Session.DetermineOutput | main.go:328-346 | The loop computes DetermineOutputOf |
| Driver.SrcsStage | main.go:460-470 | SRCS appends its expansion to the sources, and success leaves at least one |
| Driver.PrefixStage | main.go:473-477 | PREFIX applies only when no prefix is set |
| Driver.DirsStage | main.go:479-489 | DIRS appends its expansion to the directories, and success leaves at least one |
| Driver.CheckVarStageMeaning | main.go:491-500 | A defined key fails exactly when a different type is already set, and otherwise sets the type and the name |
| Driver.CheckVarsConflicts | main.go:491-509 | With DLL, EXE and LIB checked in turn, success means at most one is defined and agrees with any type already set, and then it decides the type and the name |
| Driver.GetVarsKeeps | main.go:454-489 | The prefix, sources and directories after reading the variables are as SRCS, PREFIX and DIRS say |
| Driver.Session.constructor | main.go:58-63 | The globals start empty |
| Driver.Session.GetVarsFromDmakeFile | main.go:454-511 | The method updates the globals, and returns the error, that GetVarsFromDmakeFileOf describes |
| Driver.Session.SetSources | main.go:460-470 | The SRCS step is SrcsStage |
| Driver.Session.SetDirectories | main.go:479-489 | The DIRS step is DirsStage |
| Driver.Session.CheckVar | main.go:491-500 | One checkVar is CheckVarStage |
| Driver.AssignmentArgShape | main.go:146-147 | An argument is an assignment exactly when it has an `=` after the first character |
| Driver.SplitArgsPartition | main.go:145-152 | Splitting the arguments loses and adds nothing |
| Driver.SplitArgsSides | main.go:145-152 | Every assignment goes to the environment, and every other argument stays an argument |
| Driver.SplitArgs | main.go:145-152 | The loop keeps the plain arguments in order and appends the assignments to the environment |
| Driver.ParseCommand | main.go:172-231 | `init` runs init with the rest. `install` and `clean` alone, and a type word with an optional `install` or `clean`, are builds; anything else after those words is a usage error. Any other words are sub-directories |
| Driver.TypedInstallAsWritten | main.go:172-179 | As written, `exe install` (and dll, lib) is a usage error; corrected, it builds and installs |
| Driver.ParseCommandAgreesElsewhere | main.go:172-231 | The corrected dispatch differs from the code as written only for a type word followed by `install` |

## Left out

- Running dcc and the installer: each is an entry in the process's log. The `MkdirAll` calls before a build (dmake.go:181-182) are not modelled; the source ignores their errors. The error that dcc or the installer would return is a field of the directory.
- `DefinesMain` and `sourceFileDefinesMain` (util.go:54-68, main.go:536-550): the regular-expression scan of each file is abstracted as the set of files that define `main()`.
- Go's map iteration order in `SourceFiles` (util.go:133) is a parameter, the `familyOrder` of the context, which may be any order of the four languages.
- `platform.PluginFilename` is not part of this model: it is a function parameter, `pluginName`.
- `installWithUsrBinInstall` and `installByCopyingFile` (platform.go:135-165): only the installed file's destination and mode are modelled, not the copy or the subprocess.
- `filepath.Clean` is modelled for names without `..` or repeated slashes; `Join` treats "." and an empty directory alike.
- `log.Fatal`, `panic` and `os.Exit` are values of `Failure` (`Fatal`, `Panic`) or `Command` (`UsageExit`). Verbose and debug logging, `-C`, the usage text and `prepareEnv` are left out.
- The text of the options file, `.dcc/LDFLAGS`, `.dcc/LIBS` and the Makefile: `InitPlan` records which files are written, the `.dmake` line and the Makefile install directory, not each written line.
- `%q` quoting in error messages is written as a plain double-quoted string.
- `main.go`'s `dmake()` and `dmakeInDirectory` (main.go:272-300, 348-435) are a second, different driver, and they are not part of this model. They differ from `Dmake.Dmake.Run` in several ways:
  - they never descend into the DIRS of a `.dmake` (main.go:234-245);
  - they fail when a directory has no sources, even when it has DIRS (main.go:361-363);
  - they install to the directory joined with the output name (main.go:424);
  - a glob error is fatal (main.go:518).
  Only the pieces they call are modelled, each under its own row.
- The variable store's own source file (`ReadFromFile`, `Apply`, `Interpolate`) is not part of this model. `VarsApi` gives it the behaviour `dmake.go` relies on and `vars_test.go` pins down.
- VarsApi.ExpandUnterminated: the tests only interpolate closed `${NAME}` references. Making an unclosed `${` the error `Interpolate` may return is this model's choice, which the store's own source may not share.
- VarsApi.NameLen: the tests only end a bare `$NAME` at the end of the text. Ending it at white space or at the next `$` (`VarsApi.IsNameChar`) is this model's choice, which the store's own source may not share.
- Dmake.InitArgStep: its own contract states only the error's shape. What each argument does is stated by `InitArgStepMeaning` and the `InitArgsReject*` lemmas.
- Directories as a finite tree: os.Chdir enters only a child of the given name. `.`, `..`, paths of several elements, absolute paths and symbolic links are not represented, so a DIRS entry always reads as a sub-directory name, the corrected reading of `DIRS = .` in the Findings. `ChdirElement` resolves `.` and `..` only to state that finding.
- Util.ChangeDirectory: enters a child of the tree, never `.`, `..` or a longer path (see the line above).
- Dmake.RunOf: "ends at or below where it began" and the termination of the recursion hold in the tree, where every DIRS entry goes one level down. As written, `DIRS = .` does not terminate (Findings).
- Dmake.RunEndsHome: the same restriction to the tree as `Dmake.RunOf`.
- Dmake.DirsOf: reports the corrected `DIRS=<DIRS value> matches no names`, where dmake.go:548 prints the SRCS patterns (Findings).
- Dmake.CheckVarOf: reports the corrected `<key> definition conflicts with <type>`, where dmake.go:553-555 prints the variable's value in place of its name (Findings).
- Dmake.Dmake.InitFromVars: returns the corrected DIRS and conflict errors of `Dmake.DirsOf` and `Dmake.CheckVarOf`.
- Dmake.Dmake.SetDirectories: returns the corrected DIRS error of `Dmake.DirsOf`.
- Dmake.Dmake.CheckVar: returns the corrected conflict error of `Dmake.CheckVarOf`.
- Dmake.ActOf: logs the corrected install into `<dest>`, where dmake.go:241 installs into `<dest>/<name>` (Findings).
- Dmake.Dmake.InstallAction: logs the corrected install target of `Dmake.ActOf`.
- Dmake.Dmake.InitArg: a C++ standard in a C project fails with the corrected "this is a C project" text (dmake.go:324 says "C++ project", Findings).
- Dmake.Dmake.InitAction: fails with the corrected C++-standard text of `Dmake.Dmake.InitArg`, and plans the corrected Makefile install directory of `Dmake.Dmake.InitPlanFor`.
- Dmake.Dmake.InitPlanFor: plans `$(prefix)/lib`, where dmake.go:446 writes the unbalanced `$(prefix/lib` (Findings).
- Driver.DirsStage: reports the corrected DIRS error of `Dmake.DirsMessage`, where main.go:487 prints the SRCS patterns (Findings).
- Driver.CheckVarStageMeaning: states the corrected conflict error of `Dmake.ConflictMessage`, where main.go:492-494 prints the variable's value in place of its name (Findings).
- Driver.CheckVarsConflicts: the conflict it states for a second type variable is the corrected error, which names the variable.
- Driver.Session.GetVarsFromDmakeFile: returns the corrected DIRS and conflict errors of `Driver.DirsStage` and `Driver.CheckVarStageMeaning`.
- Driver.Session.SetDirectories: returns the corrected DIRS error of `Driver.DirsStage`.
- Driver.Session.CheckVar: returns the corrected conflict error of `Driver.CheckVarStageMeaning`.

## Findings

| source | as written | input that shows it | evidently intended | confidence | as-written member | corrected member |
|---|---|---|---|---|---|---|
| main.go:172-227 | `checkclean` runs first, and `checkarg("clean")` calls `usage()` whenever there are two arguments and the second is not "clean" | `dmake exe install` | `exe install` builds and installs, as the usage text `{exe\|lib\|dll} [install\|clean]` says | high, not executed | Driver.TypedInstallAsWritten | Driver.ParseCommand |
| dmake.go:241 | `installfile(name, Join(dest, name), mode)`, and the installer joins the name onto its destination again | an exe `prog` with prefix `/usr/local` | install to `/usr/local/bin/prog` | medium, not executed | Dmake.InstallAsWrittenNestsName | Dmake.InstallOfTarget |
| dmake.go:548 | `fmt.Errorf("DIRS=%s matches no names", patterns)` prints the SRCS value | a `.dmake` with only `DIRS = nothing*` | `DIRS=nothing* matches no names` | high, not executed | Dmake.DirsMessageAsWrittenHidesPatterns | Dmake.DirsMessageShowsPatterns |
| dmake.go:553-555 | `if name, exists := vars.GetValue(name)` shadows the key with its value, so the error starts with the value | `.dmake` with `DLL = a` and `EXE = b` | `EXE definition conflicts with dll` | medium, not executed | Dmake.ConflictMessageAsWrittenNamesValue | Dmake.ConflictMessage |
| main.go:487 | `fmt.Errorf("DIRS=%s matches no names", patterns)` prints the SRCS value, as dmake.go:548 does | a `.dmake` with only `DIRS = nothing*` | `DIRS=nothing* matches no names` | high, not executed | Dmake.DirsMessageAsWrittenHidesPatterns | Dmake.DirsMessageShowsPatterns |
| main.go:492-494 | `if name, exists := vars[name]` shadows the key with its value, as dmake.go:553 does | `.dmake` with `DLL = a` and `EXE = b` | `EXE definition conflicts with dll` | medium, not executed | Dmake.ConflictMessageAsWrittenNamesValue | Dmake.ConflictMessage |
| dmake.go:144-176 | each DIRS entry is entered with `ChangeDirectory` and run again, with no check that it is a sub-directory | a `.dmake` with `DIRS = .` | `.` and `..` are not sub-directories, so each DIRS step goes one level deeper and the walk of the finite tree ends (`Dmake.RunOf` terminates) | medium, not executed | Dmake.DotDirRepeats | Dmake.SubdirectoryDescends |
| dmake.go:446 | `installDir := "$(prefix/lib"` | `dmake init lib` | `$(prefix)/lib` in the Makefile | high, not executed | Dmake.MakefileInstallDirAsWrittenUnbalanced | Dmake.MakefileInstallDirBalanced |
| dmake.go:324 | `"C++ standard specified but this is a C++ project"` | `dmake init c++14` with only C sources | `... but this is a C project` | high, not executed | Dmake.CxxStandardMessageNamesWrongLanguage | Dmake.CxxStandardMessage |
