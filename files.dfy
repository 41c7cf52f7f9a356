/**
 * The file system the log lives in, as far as the logger uses it: directories
 * and text files, `File::create` (create or truncate), `File::open` followed by
 * `read_to_string`, and `write!` into a created file.
 */
module Files {
  import opened Wrappers

  /** A path as its sequence of components; `PathBuf::join` adds one. */
  type Path = seq<string>

  /** `path.join(name)` for a relative `name`. */
  function Join(dir: Path, name: string): (p: Path)
    ensures |p| == |dir| + 1 && p[..|dir|] == dir && p[|dir|] == name
  {
    dir + [name]
  }

  function Parent(p: Path): Path
    requires p != []
  {
    p[..|p| - 1]
  }

  /** The I/O errors the logger meets; each is fatal there (`unwrap`). */
  datatype IoError = NotFound | CannotCreate

  class FileSystem {
    var dirs: set<Path>
    var files: map<Path, string>

    /** Every file sits in an existing directory and is not itself a directory. */
    ghost predicate Valid()
      reads this
    {
      forall p :: p in files ==> CanCreate(p)
    }

    /** `File::create(p)` succeeds: `p`'s directory exists and `p` is no directory. */
    predicate CanCreate(p: Path)
      reads this
    {
      p != [] && Parent(p) in dirs && p !in dirs
    }

    /** The contents of the file at `p`, if there is one. */
    function FileAt(p: Path): Option<string>
      reads this
    {
      if p in files then Some(files[p]) else None
    }

    constructor (dirs: set<Path>)
      ensures Valid()
      ensures this.dirs == dirs && files == map[]
    {
      this.dirs := dirs;
      files := map[];
    }

    /** `File::create`: an empty file at `p`, replacing the old contents. */
    method Create(p: Path) returns (r: Result<(), IoError>)
      requires Valid()
      modifies this
      ensures Valid() && dirs == old(dirs)
      ensures r.Ok? <==> old(CanCreate(p))
      ensures r.Err? ==> r.error == CannotCreate
      ensures files == if r.Ok? then old(files)[p := []] else old(files)
    {
      if CanCreate(p) {
        files := files[p := []];
        r := Ok(());
      } else {
        r := Err(CannotCreate);
      }
    }

    /** `File::open` then `read_to_string`: the whole contents of the file at `p`. */
    method Read(p: Path) returns (r: Result<string, IoError>)
      ensures p in files <==> r.Ok?
      ensures r.Ok? ==> r.value == files[p]
      ensures r.Err? ==> r.error == NotFound
    {
      if p in files {
        r := Ok(files[p]);
      } else {
        r := Err(NotFound);
      }
    }

    /** `write!` into the file just created at `p`. */
    method Write(p: Path, text: string)
      requires Valid() && p in files
      modifies this
      ensures Valid() && dirs == old(dirs)
      ensures files == old(files)[p := text]
    {
      files := files[p := text];
    }
  }
}
