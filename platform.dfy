/** platform.go: the three platform profiles, the host selection, the list of
    other platforms whose file names are ignored, and output-name decoration. */
module Platform {
  import opened Text
  import opened Paths

  /** PlatformSpecific, without its `installfile` routine (file I/O). */
  datatype PlatformSpecific = PlatformSpecific(
    objsuffix: string,
    exesuffix: string,
    libprefix: string,
    libsuffix: string,
    dllprefix: string,
    dllsuffix: string)

  const WindowsPlatform := PlatformSpecific(".obj", ".exe", "", ".lib", "", ".dll")
  const MacosPlatform := PlatformSpecific(".o", "", "lib", ".a", "lib", ".dylib")
  const ElfPlatform := PlatformSpecific(".o", "", "lib", ".a", "lib", ".so")

  const AllPlatforms: seq<string> := [
    "aix", "darwin", "dragonfly", "freebsd", "illumos", "ios",
    "linux", "netbsd", "openbsd", "solaris", "windows"]

  /** The windows profile has no library prefixes and its own suffixes; the mac
      and elf profiles differ only in the dynamic-library suffix. */
  lemma ProfileShapes()
    ensures WindowsPlatform.libprefix == "" && WindowsPlatform.dllprefix == ""
    ensures WindowsPlatform.libsuffix == ".lib" && WindowsPlatform.dllsuffix == ".dll"
    ensures WindowsPlatform.exesuffix == ".exe" && WindowsPlatform.objsuffix == ".obj"
    ensures MacosPlatform.dllsuffix == ".dylib" && ElfPlatform.dllsuffix == ".so"
    ensures MacosPlatform.(dllsuffix := ElfPlatform.dllsuffix) == ElfPlatform
  {
  }

  /** The profile `init` selects for a host operating system. */
  function SelectPlatform(goos: string): PlatformSpecific {
    if goos == "windows" then WindowsPlatform
    else if goos == "darwin" then MacosPlatform
    else ElfPlatform
  }

  /** `names` without `x`, in order. */
  function Omit(names: seq<string>, x: string): (r: seq<string>)
    ensures forall n :: n in r <==> n in names && n != x
    ensures |r| <= |names|
  {
    if names == [] then []
    else Omit(names[..|names| - 1], x) + (if names[|names| - 1] != x then [names[|names| - 1]] else [])
  }

  /** The names `init` puts into the other-platform pattern. */
  function OtherPlatformNames(goos: string): seq<string> {
    Omit(AllPlatforms, goos)
  }

  /** The host is never an "other" platform, and every other listed platform is. */
  lemma OtherPlatformsExcludeHost(goos: string)
    ensures goos !in OtherPlatformNames(goos)
    ensures forall n :: n in AllPlatforms && n != goos ==> n in OtherPlatformNames(goos)
  {
  }

  /** The init function: pick the host profile and collect the other platforms'
      names in a loop. */
  method Init(goos: string) returns (platform: PlatformSpecific, others: seq<string>)
    ensures platform == SelectPlatform(goos)
    ensures others == OtherPlatformNames(goos)
    ensures goos !in others
  {
    if goos == "windows" {
      platform := WindowsPlatform;
    } else if goos == "darwin" {
      platform := MacosPlatform;
    } else {
      platform := ElfPlatform;
    }
    others := [];
    for i := 0 to |AllPlatforms|
      invariant others == Omit(AllPlatforms[..i], goos)
    {
      assert AllPlatforms[..i + 1][..i] == AllPlatforms[..i];
      if AllPlatforms[i] != goos {
        others := others + [AllPlatforms[i]];
      }
    }
    assert AllPlatforms[..|AllPlatforms|] == AllPlatforms;
  }

  /** The other-platform regular expression `_(a|b|...)\.` matches `name`. */
  predicate IsOtherPlatformFile(name: string, others: seq<string>) {
    exists i :: 0 <= i < |others| && Contains(name, "_" + others[i] + ".")
  }

  /** With the names `init` computes, a file is ignored exactly when it carries
      the tag of a listed platform other than the host. */
  lemma OtherPlatformFileTagged(goos: string, name: string)
    ensures IsOtherPlatformFile(name, OtherPlatformNames(goos))
        <==> exists n :: n in AllPlatforms && n != goos && Contains(name, "_" + n + ".")
  {
    var others := OtherPlatformNames(goos);
    if IsOtherPlatformFile(name, others) {
      var i :| 0 <= i < |others| && Contains(name, "_" + others[i] + ".");
      assert others[i] in others;
    }
    if exists n :: n in AllPlatforms && n != goos && Contains(name, "_" + n + ".") {
      var n :| n in AllPlatforms && n != goos && Contains(name, "_" + n + ".");
      assert n in others;
      var i :| 0 <= i < |others| && others[i] == n;
    }
  }

  // ---------------------------------------------------------------- output names

  /** The element part of formFilename: the prefix is added when it is
      non-empty and absent, then the suffix when it is non-empty and absent. */
  function Decorate(prefix: string, base: string, suffix: string): (r: string)
    ensures HasPrefix(r, prefix) && HasSuffix(r, suffix)
    ensures HasPrefix(base, prefix) ==> HasPrefix(r, base)
    ensures !HasPrefix(base, prefix) ==> HasPrefix(r, prefix + base)
    ensures HasSuffix(base, suffix) ==> HasSuffix(r, base)
    ensures r == base || r == prefix + base || r == base + suffix || r == prefix + base + suffix
  {
    var named := if prefix != [] && !HasPrefix(base, prefix) then prefix + base else base;
    assert HasSuffix(named, base);
    if suffix != [] && !HasSuffix(named, suffix) then
      assert (named + suffix)[..|named|] == named;
      assert HasPrefix(named, prefix) ==> (named + suffix)[..|prefix|] == named[..|prefix|];
      assert !HasPrefix(base, prefix) ==> (named + suffix)[..|prefix + base|] == named;
      named + suffix
    else named
  }

  /** A name that already has the prefix and the suffix is left alone. */
  lemma DecorateIdempotent(prefix: string, base: string, suffix: string)
    ensures Decorate(prefix, Decorate(prefix, base, suffix), suffix) == Decorate(prefix, base, suffix)
  {
  }

  /** formFilename: decorate the last element of `path`, keeping its directory. */
  function FormFilename(prefix: string, path: string, suffix: string): string {
    Join(Dir(path), Decorate(prefix, Base(path), suffix))
  }

  /** The directory is kept and the last element is the decorated one. */
  lemma FormFilenameShape(prefix: string, path: string, suffix: string)
    requires '/' !in prefix && '/' !in suffix && Base(path) != "/"
    ensures var r := FormFilename(prefix, path, suffix);
      Dir(r) == Dir(path) && Base(r) == Decorate(prefix, Base(path), suffix)
  {
    var element := Decorate(prefix, Base(path), suffix);
    DecoratedIsElement(prefix, Base(path), suffix);
    DirOfJoin(Dir(path), element);
    BaseOfJoin(Dir(path), element);
  }

  lemma DecoratedIsElement(prefix: string, base: string, suffix: string)
    requires '/' !in prefix && '/' !in suffix && IsElement(base)
    ensures IsElement(Decorate(prefix, base, suffix))
  {
    var r := Decorate(prefix, base, suffix);
    assert r == base || r == prefix + base || r == base + suffix || r == prefix + base + suffix;
  }

  /** Applying formFilename twice is the same as applying it once. The root
      path "/" is excluded: its last element is the separator itself. */
  lemma FormFilenameIdempotent(prefix: string, path: string, suffix: string)
    requires '/' !in prefix && '/' !in suffix && Base(path) != "/"
    ensures FormFilename(prefix, FormFilename(prefix, path, suffix), suffix) == FormFilename(prefix, path, suffix)
  {
    var once := FormFilename(prefix, path, suffix);
    FormFilenameShape(prefix, path, suffix);
    DecoratedIsElement(prefix, Base(path), suffix);
    assert Base(once) == Decorate(prefix, Base(path), suffix);
    DecorateIdempotent(prefix, Base(path), suffix);
  }

  function LibFilename(p: PlatformSpecific, path: string): string {
    FormFilename(p.libprefix, path, p.libsuffix)
  }

  function DllFilename(p: PlatformSpecific, path: string): string {
    FormFilename(p.dllprefix, path, p.dllsuffix)
  }

  function ExeFilename(p: PlatformSpecific, path: string): string {
    FormFilename("", path, p.exesuffix)
  }

  function ObjFilename(p: PlatformSpecific, path: string): string {
    FormFilename("", path, p.objsuffix)
  }

  /** No prefix or suffix of the profile contains a separator. */
  predicate PlainAffixes(p: PlatformSpecific) {
    '/' !in p.objsuffix && '/' !in p.exesuffix && '/' !in p.libprefix
    && '/' !in p.libsuffix && '/' !in p.dllprefix && '/' !in p.dllsuffix
  }

  lemma ProfilesHavePlainAffixes()
    ensures PlainAffixes(WindowsPlatform) && PlainAffixes(MacosPlatform) && PlainAffixes(ElfPlatform)
  {
  }

  /** Executable and object names keep the directory and only ever gain a
      suffix: the last element starts with the original one. */
  lemma ExeAndObjNeverPrefix(p: PlatformSpecific, path: string)
    requires PlainAffixes(p) && Base(path) != "/"
    ensures Dir(ExeFilename(p, path)) == Dir(path) && HasPrefix(Base(ExeFilename(p, path)), Base(path))
    ensures Dir(ObjFilename(p, path)) == Dir(path) && HasPrefix(Base(ObjFilename(p, path)), Base(path))
  {
    SuffixedKeepsBase(path, p.exesuffix);
    SuffixedKeepsBase(path, p.objsuffix);
  }

  lemma SuffixedKeepsBase(path: string, suffix: string)
    requires '/' !in suffix && Base(path) != "/"
    ensures var r := FormFilename("", path, suffix);
      Dir(r) == Dir(path) && HasPrefix(Base(r), Base(path))
  {
    FormFilenameShape("", path, suffix);
    assert HasPrefix(Base(path), "");
  }

  /** Library and dynamic-library names are idempotent on every profile. */
  lemma PlatformNamesIdempotent(p: PlatformSpecific, path: string)
    requires PlainAffixes(p) && Base(path) != "/"
    ensures LibFilename(p, LibFilename(p, path)) == LibFilename(p, path)
    ensures DllFilename(p, DllFilename(p, path)) == DllFilename(p, path)
    ensures ExeFilename(p, ExeFilename(p, path)) == ExeFilename(p, path)
  {
    FormFilenameIdempotent(p.libprefix, path, p.libsuffix);
    FormFilenameIdempotent(p.dllprefix, path, p.dllsuffix);
    FormFilenameIdempotent("", path, p.exesuffix);
  }

  /** On an ELF host a plain name `n` becomes "lib<n>.a" as a library and
      "lib<n>.so" as a dynamic library, and stays `n` as an executable. */
  lemma ElfNames(name: string)
    requires IsElement(name) && !HasPrefix(name, "lib")
    requires !HasSuffix("lib" + name, ".a") && !HasSuffix("lib" + name, ".so")
    ensures LibFilename(ElfPlatform, name) == "lib" + name + ".a"
    ensures DllFilename(ElfPlatform, name) == "lib" + name + ".so"
    ensures ExeFilename(ElfPlatform, name) == name
  {
    NameOfElement("lib", name, ".a");
    NameOfElement("lib", name, ".so");
    NameOfElement("", name, "");
  }

  lemma NameOfElement(prefix: string, name: string, suffix: string)
    requires IsElement(name)
    ensures FormFilename(prefix, name, suffix) == Decorate(prefix, name, suffix)
  {
    ElementParts(name);
    var element := Decorate(prefix, name, suffix);
    assert |element| >= |name| > 0;
    assert Join(".", element) == element;
  }

  /** The file that installfile writes: both installWithUsrBinInstall and
      installByCopyingFile copy `filename` to `destdir` joined with `filename`. */
  function InstallTarget(filename: string, destdir: string): (r: string)
    ensures IsElement(filename) && IsDirForm(destdir) ==> Dir(r) == destdir && Base(r) == filename
  {
    if IsElement(filename) && IsDirForm(destdir) then
      DirOfJoin(destdir, filename);
      BaseOfJoin(destdir, filename);
      Join(destdir, filename)
    else Join(destdir, filename)
  }
}
