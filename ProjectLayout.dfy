/** Where a project keeps its data: the `.storyfold` directory under the first
    workspace folder, and one fixed file name per document. */
module ProjectLayout {
  import opened Base
  import opened Files

  /** `path.join(dir, name)` for a normalised `dir` and a plain file name. */
  function JoinPath(dir: string, name: string): string {
    dir + "/" + name
  }

  /** Joining under one directory tells names apart. */
  lemma JoinPathInjective(dir: string, a: string, b: string)
    requires JoinPath(dir, a) == JoinPath(dir, b)
    ensures a == b
  {
    assert a == JoinPath(dir, a)[|dir| + 1..];
    assert b == JoinPath(dir, b)[|dir| + 1..];
  }

  const StoryFoldDirName: string := ".storyfold"
  const BriefFile: string := "brief.json"
  const OutlineFile: string := "outline.json"
  const SamplesFile: string := "samples.json"
  const FinalFile: string := "final.json"
  const ReviewFile: string := "review.json"
  const RefinementStateFile: string := "refinementState.json"

  /** The six document names, all distinct. */
  function DocumentNames(): (names: seq<string>)
    ensures |names| == 6
    ensures forall i, j :: 0 <= i < j < |names| ==> names[i] != names[j]
  {
    [BriefFile, OutlineFile, SamplesFile, FinalFile, ReviewFile, RefinementStateFile]
  }

  /** `getWorkspaceRoot`: the first folder's path, none without folders. */
  function WorkspaceRoot(folders: seq<string>): Option<string> {
    if |folders| == 0 then None else Some(folders[0])
  }

  /** `getStoryFoldDir` without its side effect; an empty root counts as none. */
  function StoryFoldDir(folders: seq<string>): (r: Option<string>)
    ensures r.Some? ==> |folders| > 0 && r.value == JoinPath(folders[0], StoryFoldDirName)
    ensures |folders| > 0 && folders[0] != "" ==> r == Some(JoinPath(folders[0], StoryFoldDirName))
    ensures |folders| == 0 || folders[0] == "" ==> r.None?
  {
    match WorkspaceRoot(folders)
    case None => None
    case Some(root) => if root == "" then None else Some(JoinPath(root, StoryFoldDirName))
  }

  /** Every path getter: `dir/<name>`, or undefined when there is no directory. */
  function PathOf(folders: seq<string>, name: string): (r: Option<string>)
    ensures r.Some? <==> StoryFoldDir(folders).Some?
    ensures r.Some? ==> r.value == JoinPath(StoryFoldDir(folders).value, name)
  {
    match StoryFoldDir(folders)
    case None => None
    case Some(dir) => Some(JoinPath(dir, name))
  }

  /** The six getters give six different paths whenever the project has a directory. */
  lemma PathsDistinct(folders: seq<string>, i: nat, j: nat)
    requires i < j < 6 && StoryFoldDir(folders).Some?
    ensures PathOf(folders, DocumentNames()[i]) != PathOf(folders, DocumentNames()[j])
  {
    var names := DocumentNames();
    if PathOf(folders, names[i]) == PathOf(folders, names[j]) {
      JoinPathInjective(StoryFoldDir(folders).value, names[i], names[j]);
    }
  }

  /** The directories after `getStoryFoldDir` ran: the project directory is there
      whenever it is defined. */
  function WithStoryFoldDir(dirs: set<string>, folders: seq<string>): (r: set<string>)
    ensures dirs <= r
    ensures StoryFoldDir(folders).Some? ==> r == dirs + {StoryFoldDir(folders).value}
    ensures StoryFoldDir(folders).None? ==> r == dirs
  {
    match StoryFoldDir(folders)
    case None => dirs
    case Some(d) => dirs + {d}
  }

  /** `getStoryFoldDir`: the directory, created when missing. */
  method GetStoryFoldDir(store: FileStore, folders: seq<string>) returns (dir: Option<string>)
    modifies store
    ensures dir == StoryFoldDir(folders)
    ensures store.files == old(store.files)
    ensures store.dirs == if dir.Some? then old(store.dirs) + {dir.value} else old(store.dirs)
  {
    dir := StoryFoldDir(folders);
    if dir.Some? {
      store.Mkdir(dir.value);
    }
  }

  /** A path getter (`getBriefJsonPath` and the rest): each goes through
      `getStoryFoldDir`, so it creates the directory too. */
  method GetPath(store: FileStore, folders: seq<string>, name: string) returns (path: Option<string>)
    modifies store
    ensures path == PathOf(folders, name)
    ensures store.files == old(store.files)
    ensures store.dirs == if path.Some? then old(store.dirs) + {StoryFoldDir(folders).value} else old(store.dirs)
  {
    var dir := GetStoryFoldDir(store, folders);
    path := if dir.Some? then Some(JoinPath(dir.value, name)) else None;
  }
}
