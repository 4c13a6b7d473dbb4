/** The files the extension touches: each path holds a JSON document (already
    decoded, with distinct keys as `JSON.parse` leaves them) or plain text, which is
    taken not to parse as JSON. Directories are a set of paths. */
module Files {
  import opened Base
  import opened Json

  datatype FileData = Doc(json: Json) | Text(text: string)

  /** What `JSON.parse(fs.readFileSync(path))` finds at `path`. */
  function ReadJson(files: map<string, FileData>, path: string): (r: Stored<Json>)
    ensures r.Absent? <==> path !in files
    ensures r.Present? <==> path in files && files[path].Doc?
  {
    if path !in files then Absent
    else match files[path]
      case Doc(j) => Present(j)
      case Text(_) => Unparsable
  }

  /** The files after a stage writes `{ text }` to `path`: nothing changes when the
      path is undefined or the write fails. */
  function WithTextDoc(files: map<string, FileData>, path: Option<string>, text: string, fails: bool): (r: map<string, FileData>)
    ensures path.Some? && !fails ==> r.Keys == files.Keys + {path.value} && r[path.value] == Doc(TextDoc(text))
    ensures path.Some? && !fails ==> forall p :: p in files && p != path.value ==> p in r && r[p] == files[p]
    ensures path.None? || fails ==> r == files
  {
    if path.Some? && !fails then files[path.value := Doc(TextDoc(text))] else files
  }

  class FileStore {
    var files: map<string, FileData>
    var dirs: set<string>

    constructor (files: map<string, FileData>, dirs: set<string>)
      ensures this.files == files && this.dirs == dirs
    {
      this.files := files;
      this.dirs := dirs;
    }

    /** `fs.mkdirSync(dir, { recursive: true })` when `dir` is missing. */
    method Mkdir(dir: string)
      modifies this
      ensures dirs == old(dirs) + {dir} && files == old(files)
    {
      if dir !in dirs {
        dirs := dirs + {dir};
      }
    }

    /** `fs.writeFileSync(path, data)`. */
    method WriteFile(path: string, data: FileData)
      modifies this
      ensures files == old(files)[path := data] && dirs == old(dirs)
    {
      files := files[path := data];
    }

    /** A stage's write-back of `{ text }`, guarded by `if (path)` and a `try` that
        swallows a failed write. */
    method WriteTextDoc(path: Option<string>, text: string, fails: bool)
      modifies this
      ensures files == WithTextDoc(old(files), path, text, fails) && dirs == old(dirs)
    {
      if path.Some? && !fails {
        WriteFile(path.value, Doc(TextDoc(text)));
      }
    }
  }
}
