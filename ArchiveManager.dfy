/** Archives ("创作档案"): snapshots of the project's five documents kept in the
    extension's global storage, which can be listed newest first and cloned back. */
module ArchiveManager {
  import opened Base
  import opened Strings
  import opened Files
  import opened ProjectLayout

  /** An archive's `meta.json`. */
  datatype ArchiveMeta = ArchiveMeta(id: string, createdAt: int, name: Option<string>)

  /** One archive directory: its meta file (which may be missing or unreadable) and
      its copies of the documents, by file name. */
  datatype ArchiveDir = ArchiveDir(meta: Stored<ArchiveMeta>, files: map<string, FileData>)

  /** How `saveArchive` ends: no project directory (`null`), the new archive's id, or a
      rejected promise. */
  datatype SaveOutcome = NoProject | Saved(id: string) | Rejected

  /** One entry of the archives root's directory listing. */
  datatype DirEntry = DirEntry(name: string, isDirectory: bool)

  /** The five documents an archive holds; the refinement state is not among them. */
  const ArchivedFiles: seq<string> := [BriefFile, OutlineFile, SamplesFile, FinalFile, ReviewFile]

  /** The characters an archive id keeps: ASCII letters and digits, U+4E00 to U+9FA5,
      `_` and `-`. */
  predicate Allowed(c: char) {
    ('a' <= c <= 'z') || ('A' <= c <= 'Z') || ('0' <= c <= '9') || ('\U{4E00}' <= c <= '\U{9FA5}') || c == '_' || c == '-'
  }

  /** `name.replace(/[^a-zA-Z0-9一-龥_-]/g, '_')`. */
  function Sanitize(s: string): (r: string)
    ensures |r| == |s|
    ensures forall i :: 0 <= i < |s| ==> r[i] == if Allowed(s[i]) then s[i] else '_'
  {
    if s == [] then [] else [if Allowed(s[0]) then s[0] else '_'] + Sanitize(s[1..])
  }

  /** Sanitising keeps the length, leaves only allowed characters, changes a name
      exactly when it has some other character, and is idempotent. */
  lemma SanitizeSpec(s: string)
    ensures forall i :: 0 <= i < |s| ==> Allowed(Sanitize(s)[i])
    ensures Sanitize(s) == s <==> forall i :: 0 <= i < |s| ==> Allowed(s[i])
    ensures Sanitize(Sanitize(s)) == Sanitize(s)
  {
    if Sanitize(s) == s {
      forall i | 0 <= i < |s|
        ensures Allowed(s[i])
      {
        assert Sanitize(s)[i] == s[i];
      }
    }
  }

  /** The archive id: the save time in milliseconds, then `-` and the sanitised name
      when a non-empty name is given. */
  function ArchiveId(now: nat, name: Option<string>): (id: string)
    ensures name.None? || name.value == "" ==> id == NatToString(now)
    ensures name.Some? && name.value != "" ==> id == NatToString(now) + "-" + Sanitize(name.value)
  {
    NatToString(now) + if name.Some? && name.value != "" then "-" + Sanitize(name.value) else ""
  }

  /** Where a file name lives: under the project directory, or directly by name in
      an archive. */
  function At(dir: Option<string>, name: string): string {
    if dir.Some? then JoinPath(dir.value, name) else name
  }

  /** Different names live at different places. */
  lemma AtInjective(dir: Option<string>, a: string, b: string)
    requires At(dir, a) == At(dir, b)
    ensures a == b
  {
    if dir.Some? {
      JoinPathInjective(dir.value, a, b);
    }
  }

  /** Copies the named files that exist in `src` (at `At(from, name)`) into `dst` (at
      `At(to, name)`), in list order. A missing source and a write that fails
      (`fails` of the target path) both skip that file, as the read and the write
      share one `try`. */
  function CopyFiles(dst: map<string, FileData>, src: map<string, FileData>, names: seq<string>,
                     from: Option<string>, to: Option<string>, fails: string -> bool): map<string, FileData> {
    if names == [] then dst
    else
      var d := CopyFiles(dst, src, names[..|names| - 1], from, to, fails);
      var n := names[|names| - 1];
      if At(from, n) in src && !fails(At(to, n)) then d[At(to, n) := src[At(from, n)]] else d
  }

  /** What a copy leaves at any path `p`: the source file of the name copied there,
      when that file exists and the write to `p` succeeds, and otherwise what was
      there before. */
  lemma {:induction false} CopyFilesAt(dst: map<string, FileData>, src: map<string, FileData>, names: seq<string>,
                                       from: Option<string>, to: Option<string>, fails: string -> bool, p: string)
    requires forall i, j :: 0 <= i < j < |names| ==> names[i] != names[j]
    ensures var r := CopyFiles(dst, src, names, from, to, fails);
            && (forall i :: 0 <= i < |names| && At(to, names[i]) == p && At(from, names[i]) in src && !fails(p) ==>
                  p in r && r[p] == src[At(from, names[i])])
            && ((fails(p) || forall i :: 0 <= i < |names| && At(to, names[i]) == p ==> At(from, names[i]) !in src) ==>
                  (p in r <==> p in dst) && (p in dst ==> r[p] == dst[p]))
  {
    if names != [] {
      var init := names[..|names| - 1];
      var n := names[|names| - 1];
      CopyFilesAt(dst, src, init, from, to, fails, p);
      forall i | 0 <= i < |init| && At(to, init[i]) == At(to, n)
        ensures init[i] == n
      {
        AtInjective(to, init[i], n);
      }
    }
  }

  /** The five archived names are distinct and do not include the refinement state. */
  lemma ArchivedFilesSpec()
    ensures forall i, j :: 0 <= i < j < |ArchivedFiles| ==> ArchivedFiles[i] != ArchivedFiles[j]
    ensures RefinementStateFile !in ArchivedFiles
  {
    var ns := DocumentNames();
    assert ArchivedFiles == ns[..5];
  }

  /** A save copies each archived document that exists in the project into the
      archive under its own name, unless that write fails, and keeps what the
      archive had for the others. */
  lemma SaveCopies(before: map<string, FileData>, files: map<string, FileData>, dir: string, fails: string -> bool,
                   k: nat)
    requires k < |ArchivedFiles|
    ensures var r := CopyFiles(before, files, ArchivedFiles, Some(dir), None, fails);
            var n := ArchivedFiles[k];
            && (JoinPath(dir, n) in files && !fails(n) ==> n in r && r[n] == files[JoinPath(dir, n)])
            && (JoinPath(dir, n) !in files || fails(n) ==> (n in r <==> n in before) && (n in before ==> r[n] == before[n]))
  {
    ArchivedFilesSpec();
    var n := ArchivedFiles[k];
    CopyFilesAt(before, files, ArchivedFiles, Some(dir), None, fails, n);
    assert At(None, n) == n && At(Some(dir), n) == JoinPath(dir, n);
  }

  /** A clone writes each archived document the archive holds over the project's
      file of that name unless that write fails, keeps the project's other files,
      and never touches the refinement state. */
  lemma CloneCopies(files: map<string, FileData>, src: map<string, FileData>, dir: string, fails: string -> bool,
                    k: nat)
    requires k < |ArchivedFiles|
    ensures var r := CopyFiles(files, src, ArchivedFiles, None, Some(dir), fails);
            var n := ArchivedFiles[k];
            var p := JoinPath(dir, n);
            var state := JoinPath(dir, RefinementStateFile);
            && (n in src && !fails(p) ==> p in r && r[p] == src[n])
            && (n !in src || fails(p) ==> (p in r <==> p in files) && (p in files ==> r[p] == files[p]))
            && (state in r <==> state in files) && (state in files ==> r[state] == files[state])
  {
    ArchivedFilesSpec();
    var n := ArchivedFiles[k];
    var state := JoinPath(dir, RefinementStateFile);
    CopyFilesAt(files, src, ArchivedFiles, None, Some(dir), fails, JoinPath(dir, n));
    CopyFilesAt(files, src, ArchivedFiles, None, Some(dir), fails, state);
    forall i | 0 <= i < |ArchivedFiles| && At(Some(dir), ArchivedFiles[i]) == JoinPath(dir, n)
      ensures ArchivedFiles[i] == n
    {
      JoinPathInjective(dir, ArchivedFiles[i], n);
    }
    forall i | 0 <= i < |ArchivedFiles|
      ensures At(Some(dir), ArchivedFiles[i]) != state
    {
      if At(Some(dir), ArchivedFiles[i]) == state {
        JoinPathInjective(dir, ArchivedFiles[i], RefinementStateFile);
      }
    }
    assert At(None, n) == n && At(Some(dir), n) == JoinPath(dir, n);
  }

  /** The meta a listing reports for a directory: its own meta with the id replaced
      by the directory name, or `{ id: dir, createdAt: 0, name: dir }` when the meta
      cannot be read. */
  function MetaFor(archives: map<string, ArchiveDir>, dirName: string): (m: ArchiveMeta)
    ensures m.id == dirName
    ensures !(dirName in archives && archives[dirName].meta.Present?) ==> m == ArchiveMeta(dirName, 0, Some(dirName))
  {
    if dirName in archives && archives[dirName].meta.Present? then archives[dirName].meta.value.(id := dirName)
    else ArchiveMeta(dirName, 0, Some(dirName))
  }

  /** The directory names of a listing, in listing order. */
  function DirNames(entries: seq<DirEntry>): (names: seq<string>)
    ensures |names| <= |entries|
  {
    if entries == [] then []
    else DirNames(entries[..|entries| - 1]) + if entries[|entries| - 1].isDirectory then [entries[|entries| - 1].name] else []
  }

  /** Only directories are listed, and every one of them is. */
  lemma {:induction false} DirNamesSpec(entries: seq<DirEntry>, i: nat)
    requires i < |entries|
    ensures entries[i].isDirectory ==> entries[i].name in DirNames(entries)
    ensures forall n :: n in DirNames(entries) ==> DirEntry(n, true) in entries
  {
    if |entries| > 1 {
      var init := entries[..|entries| - 1];
      if i < |init| {
        DirNamesSpec(init, i);
      } else {
        DirNamesSpec(init, 0);
      }
      assert forall n :: n in DirNames(init) ==> DirEntry(n, true) in init;
    }
  }

  /** The metas collected from a listing, before sorting. */
  function Metas(archives: map<string, ArchiveDir>, names: seq<string>): (ms: seq<ArchiveMeta>)
    ensures |ms| == |names|
    ensures forall i :: 0 <= i < |names| ==> ms[i] == MetaFor(archives, names[i])
  {
    seq(|names|, i requires 0 <= i < |names| => MetaFor(archives, names[i]))
  }

  /** Newest first. */
  ghost predicate SortedDesc(s: seq<ArchiveMeta>) {
    forall k, l :: 0 <= k < l < |s| ==> s[k].createdAt >= s[l].createdAt
  }

  /** Exchanges two neighbours. */
  method Swap(a: array<ArchiveMeta>, j: int)
    requires 0 < j < a.Length
    modifies a
    ensures a[..] == old(a[..])[j - 1 := old(a[j])][j := old(a[j - 1])]
    ensures multiset(a[..]) == multiset(old(a[..]))
  {
    a[j - 1], a[j] := a[j], a[j - 1];
  }

  /** Moves `a[i]` left past every strictly older meta, extending the sorted prefix.
      An element never passes one with the same `createdAt`. */
  method Insert(a: array<ArchiveMeta>, i: int)
    requires 0 < i < a.Length
    requires SortedDesc(a[..i])
    modifies a
    ensures SortedDesc(a[..i + 1])
    ensures multiset(a[..]) == multiset(old(a[..]))
  {
    var j := i;
    while j > 0 && a[j - 1].createdAt < a[j].createdAt
      invariant 0 <= j <= i
      invariant forall k, l :: 0 <= k < l <= i && k != j && l != j ==> a[k].createdAt >= a[l].createdAt
      invariant forall l :: j < l <= i ==> a[j].createdAt > a[l].createdAt
      invariant multiset(a[..]) == multiset(old(a[..]))
    {
      Swap(a, j);
      j := j - 1;
    }
  }

  /** `metas.sort((a, b) => b.createdAt - a.createdAt)`, as a stable insertion sort. */
  method SortDesc(a: array<ArchiveMeta>)
    modifies a
    ensures SortedDesc(a[..])
    ensures multiset(a[..]) == multiset(old(a[..]))
  {
    if a.Length == 0 {
      return;
    }
    var i := 1;
    while i < a.Length
      invariant 1 <= i <= a.Length
      invariant SortedDesc(a[..i])
      invariant multiset(a[..]) == multiset(old(a[..]))
    {
      Insert(a, i);
      i := i + 1;
    }
    assert a[..i] == a[..];
  }

  /** The archives under the extension's global storage, by directory name. */
  class ArchiveStore {
    var archives: map<string, ArchiveDir>

    constructor (archives: map<string, ArchiveDir>)
      ensures this.archives == archives
    {
      this.archives := archives;
    }

    /** `saveArchive`. `idTime` and `createdAt` are the two readings of the clock (the
        id is made before the files are copied, `createdAt` after). Without a project
        directory nothing is written and there is no id. `dirFails` says that creating
        the archive directories rejects, `copyFails` which copy writes fail (by file
        name in the archive) and `metaFails` that writing `meta.json` rejects; the two
        rejections are outside any `try` and reject the whole save. */
    method SaveArchive(store: FileStore, folders: seq<string>, idTime: nat, createdAt: int, name: Option<string>,
                       dirFails: bool, copyFails: string -> bool, metaFails: bool)
      returns (r: SaveOutcome)
      modifies this, store
      ensures StoryFoldDir(folders).None? ==> r == NoProject && archives == old(archives)
      ensures StoryFoldDir(folders).Some? && dirFails ==> r == Rejected && archives == old(archives)
      ensures StoryFoldDir(folders).Some? && !dirFails ==>
                var dir := StoryFoldDir(folders).value;
                var i := ArchiveId(idTime, name);
                var old_ := if i in old(archives) then old(archives)[i] else ArchiveDir(Absent, map[]);
                var copies := CopyFiles(old_.files, old(store.files), ArchivedFiles, Some(dir), None, copyFails);
                && r == (if metaFails then Rejected else Saved(i))
                && archives == old(archives)[i := ArchiveDir(if metaFails then old_.meta
                                                             else Present(ArchiveMeta(i, createdAt, name)), copies)]
      ensures store.files == old(store.files)
      ensures store.dirs == WithStoryFoldDir(old(store.dirs), folders)
    {
      var dir := GetStoryFoldDir(store, folders);
      if dir.None? {
        return NoProject;
      }
      if dirFails {
        return Rejected;
      }
      var i := ArchiveId(idTime, name);
      var previous := if i in archives then archives[i] else ArchiveDir(Absent, map[]);
      var copies: map<string, FileData> := previous.files;
      ghost var before := copies;
      var k := 0;
      while k < |ArchivedFiles|
        invariant 0 <= k <= |ArchivedFiles|
        invariant archives == old(archives)
        invariant store.files == old(store.files) && store.dirs == WithStoryFoldDir(old(store.dirs), folders)
        invariant copies == CopyFiles(before, store.files, ArchivedFiles[..k], dir, None, copyFails)
      {
        var fileName := ArchivedFiles[k];
        var filePath := GetPath(store, folders, fileName);
        assert ArchivedFiles[..k + 1][..k] == ArchivedFiles[..k];
        if filePath.Some? && filePath.value in store.files && !copyFails(fileName) {
          copies := copies[fileName := store.files[filePath.value]];
        }
        k := k + 1;
      }
      assert ArchivedFiles[..k] == ArchivedFiles;
      if metaFails {
        archives := archives[i := ArchiveDir(previous.meta, copies)];
        return Rejected;
      }
      archives := archives[i := ArchiveDir(Present(ArchiveMeta(i, createdAt, name)), copies)];
      r := Saved(i);
    }

    /** `listArchives`: `entries` is what reading the archives root gives, `None`
        when it cannot be read. */
    method ListArchives(entries: Option<seq<DirEntry>>) returns (metas: seq<ArchiveMeta>)
      ensures entries.None? ==> metas == []
      ensures entries.Some? ==> multiset(metas) == multiset(Metas(archives, DirNames(entries.value)))
      ensures SortedDesc(metas)
    {
      if entries.None? {
        return [];
      }
      var es := entries.value;
      var collected: seq<ArchiveMeta> := [];
      var k := 0;
      while k < |es|
        invariant 0 <= k <= |es|
        invariant collected == Metas(archives, DirNames(es[..k]))
      {
        assert es[..k + 1][..k] == es[..k];
        if es[k].isDirectory {
          collected := collected + [MetaFor(archives, es[k].name)];
        }
        k := k + 1;
      }
      assert es[..k] == es;
      var a := new ArchiveMeta[|collected|](j requires 0 <= j < |collected| => collected[j]);
      assert a[..] == collected;
      SortDesc(a);
      metas := a[..];
    }

    /** `cloneArchive`: copies the archive's five documents that exist over the
        project's, skipping any whose write fails (`fails` of the project path), and
        reports success whenever the project directory exists. */
    method CloneArchive(store: FileStore, folders: seq<string>, archiveId: string, fails: string -> bool)
      returns (ok: bool)
      modifies store
      ensures ok <==> StoryFoldDir(folders).Some?
      ensures !ok ==> store.files == old(store.files)
      ensures ok ==>
                var src := if archiveId in archives then archives[archiveId].files else map[];
                store.files == CopyFiles(old(store.files), src, ArchivedFiles, None, StoryFoldDir(folders), fails)
      ensures store.dirs == WithStoryFoldDir(old(store.dirs), folders)
    {
      var dir := GetStoryFoldDir(store, folders);
      if dir.None? {
        return false;
      }
      var src: map<string, FileData> := if archiveId in archives then archives[archiveId].files else map[];
      ghost var before := store.files;
      var k := 0;
      while k < |ArchivedFiles|
        invariant 0 <= k <= |ArchivedFiles|
        invariant store.dirs == WithStoryFoldDir(old(store.dirs), folders)
        invariant store.files == CopyFiles(before, src, ArchivedFiles[..k], None, dir, fails)
      {
        var fileName := ArchivedFiles[k];
        var dest := JoinPath(dir.value, fileName);
        assert ArchivedFiles[..k + 1][..k] == ArchivedFiles[..k];
        if fileName in src && !fails(dest) {
          store.WriteFile(dest, src[fileName]);
        }
        k := k + 1;
      }
      assert ArchivedFiles[..k] == ArchivedFiles;
      ok := true;
    }
  }
}
