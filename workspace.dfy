/** What dmake observes of the file system and the process, abstracted: a
    tree of directories, each of which says what globbing, reading `.dmake`,
    scanning for `main()` and running dcc or the installer give there, and a
    process with a working directory and a log of the commands it ran. */
module Workspace {
  import opened Wrappers

  /** filepath.Glob in one directory: the matches of a pattern, or an error. */
  type Globber = string -> Result<seq<string>, string>

  datatype Sub = Sub(name: string, node: DirNode)

  datatype DirNode = DirNode(
    dmakefile: Option<seq<string>>,  // the lines of ./.dmake; None when there is none
    glob: Globber,
    mains: set<string>,              // the files whose text defines main()
    subdirs: seq<Sub>,               // what a relative os.Chdir can enter from here
    getwdError: Option<string>,      // os.Getwd fails here
    buildError: Option<string>,      // what running dcc here returns
    installError: Option<string>)    // what installing a file from here returns

  /** The first sub-directory called `name`. */
  function FindSub(subs: seq<Sub>, name: string): (r: Option<nat>)
    ensures r.Some? ==> r.value < |subs| && subs[r.value].name == name
    ensures r.None? ==> forall i :: 0 <= i < |subs| ==> subs[i].name != name
  {
    if subs == [] then None
    else if subs[0].name == name then Some(0)
    else match FindSub(subs[1..], name)
      case None => None
      case Some(i) => Some(i + 1)
  }

  /** The directory reached from `root` through the named sub-directories. */
  function NodeAt(root: DirNode, path: seq<string>): Option<DirNode>
    decreases |path|
  {
    if path == [] then Some(root)
    else match NodeAt(root, path[..|path| - 1])
      case None => None
      case Some(parent) =>
        match FindSub(parent.subdirs, path[|path| - 1])
        case None => None
        case Some(i) => Some(parent.subdirs[i].node)
  }

  /** Entering a sub-directory extends the path by its name. */
  lemma NodeAtChild(root: DirNode, path: seq<string>, node: DirNode, name: string)
    requires NodeAt(root, path) == Some(node) && FindSub(node.subdirs, name).Some?
    ensures NodeAt(root, path + [name]) == Some(node.subdirs[FindSub(node.subdirs, name).value].node)
  {
    assert (path + [name])[..|path|] == path;
  }

  /** Octal 0555 and 0444, the install modes. */
  const ModeExecutable: nat := 5 * 64 + 5 * 8 + 5
  const ModeReadOnly: nat := 4 * 64 + 4 * 8 + 4

  /** A command run or a file removed, with the directory it happened in. */
  datatype Effect =
    | Build(dir: seq<string>, env: seq<string>, args: seq<string>)
    | Install(dir: seq<string>, file: string, target: string, mode: nat)
    | Remove(dir: seq<string>, path: string)
    | RemoveAll(dir: seq<string>, path: string)

  /** The running process: its working directory, as a path from the root of
      the tree, and the log of what it has done to the world. */
  class Process {
    const root: DirNode
    var cwd: seq<string>
    var log: seq<Effect>

    constructor (root: DirNode)
      ensures this.root == root && cwd == [] && log == []
    {
      this.root := root;
      cwd := [];
      log := [];
    }

    /** The directory the process is in. */
    function Here(): Option<DirNode>
      reads this
    {
      NodeAt(root, cwd)
    }

    /** os.Getwd: the working directory, or the error this directory gives. */
    method Getwd() returns (path: seq<string>, err: Option<string>)
      requires Here().Some?
      ensures err == Here().value.getwdError
      ensures err.None? ==> path == cwd
      ensures err.Some? ==> path == []
    {
      err := Here().value.getwdError;
      path := if err.None? then cwd else [];
    }

    /** os.Chdir with a relative path: enter the sub-directory of that name. */
    method Chdir(name: string) returns (err: Option<string>)
      requires Here().Some?
      modifies this
      ensures log == old(log)
      ensures FindSub(old(Here()).value.subdirs, name).Some? ==> err.None? && cwd == old(cwd) + [name]
      ensures FindSub(old(Here()).value.subdirs, name).None? ==> err == Some(ChdirError(name)) && cwd == old(cwd)
      ensures Here().Some?
    {
      var here := Here().value;
      var k := FindSub(here.subdirs, name);
      if k.None? {
        return Some(ChdirError(name));
      }
      NodeAtChild(root, cwd, here, name);
      cwd := cwd + [name];
      return None;
    }

    /** os.Chdir with a path that Getwd returned. */
    method ChdirTo(path: seq<string>) returns (err: Option<string>)
      modifies this
      ensures log == old(log)
      ensures NodeAt(root, path).Some? ==> err.None? && cwd == path
      ensures NodeAt(root, path).None? ==> err == Some(ChdirError("/")) && cwd == old(cwd)
    {
      if NodeAt(root, path).None? {
        return Some(ChdirError("/"));
      }
      cwd := path;
      return None;
    }

    method Record(e: Effect)
      modifies this
      ensures log == old(log) + [e] && cwd == old(cwd)
    {
      log := log + [e];
    }
  }

  /** Where os.Chdir goes from `cwd` through one relative path element: "."
      is the directory itself, ".." its parent (None above the root of the
      tree), any other name the entry of that name. */
  function ChdirElement(cwd: seq<string>, name: string): Option<seq<string>> {
    if name == "." then Some(cwd)
    else if name == ".." then (if cwd == [] then None else Some(cwd[..|cwd| - 1]))
    else Some(cwd + [name])
  }

  /** A name that denotes an entry of a directory, and neither the directory
      itself nor its parent. */
  predicate IsSubdirectoryName(name: string) {
    name != [] && '/' !in name && name != "." && name != ".."
  }

  /** The text of the error os.Chdir returns for a missing directory. */
  function ChdirError(name: string): string {
    "chdir " + name + ": no such file or directory"
  }
}
