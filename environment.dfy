/**
 * The environment the program acts on: the filesystem as sets of path strings, and
 * the outcome of running an external command with `subprocess.run(..., check=True)`.
 */
module Environment {
  import opened Wrappers

  /** An argument vector passed to `subprocess.run`. */
  type Argv = seq<string>

  /** How a `subprocess.run(argv, check=True)` call ends. */
  datatype CommandOutcome =
    | Completed                        // exit status 0
    | NonZeroExit(message: string)     // raises CalledProcessError; `message` is its text
    | NotFound                         // the executable is missing: raises FileNotFoundError

  /** The files and directories that exist, by path. */
  datatype Fs = Fs(files: set<string>, dirs: set<string>)

  /**
   * `os.makedirs(path, exist_ok=True)`: fails on the empty path and on a path that
   * names an existing file; otherwise the directory exists afterwards.
   */
  function MakeDirsOn(fs: Fs, path: string): (r: Result<Fs>)
    ensures r.Ok? <==> path != "" && path !in fs.files
    ensures r.Ok? ==> path in r.value.dirs && r.value.files == fs.files && fs.dirs <= r.value.dirs
  {
    if path == "" then Err("[Errno 2] No such file or directory: ''")
    else if path in fs.files then Err("[Errno 17] File exists: '" + path + "'")
    else Ok(fs.(dirs := fs.dirs + {path}))
  }

  /** `os.remove(path)`: fails unless `path` is an existing file, which it deletes. */
  function RemoveFrom(fs: Fs, path: string): (r: Result<Fs>)
    ensures r.Ok? <==> path in fs.files
    ensures r.Ok? ==> r.value.files == fs.files - {path} && r.value.dirs == fs.dirs
  {
    if path in fs.files then Ok(fs.(files := fs.files - {path}))
    else Err("[Errno 2] No such file or directory: '" + path + "'")
  }

  /** A file written by an external tool. */
  function WriteFile(fs: Fs, path: string): Fs
  {
    fs.(files := fs.files + {path})
  }

  /** The process-wide filesystem. */
  class FileSystem {
    var files: set<string>
    var dirs: set<string>

    function View(): Fs
      reads this
    {
      Fs(files, dirs)
    }

    constructor (files: set<string>, dirs: set<string>)
      ensures View() == Fs(files, dirs)
    {
      this.files := files;
      this.dirs := dirs;
    }

    method MakeDirs(path: string) returns (error: Option<string>)
      modifies this
      ensures match MakeDirsOn(old(View()), path)
        case Ok(after) => error.None? && View() == after
        case Err(e) => error == Some(e) && View() == old(View())
    {
      match MakeDirsOn(View(), path)
      case Ok(after) =>
        dirs := after.dirs;
        error := None;
      case Err(e) =>
        error := Some(e);
    }

    method Remove(path: string) returns (error: Option<string>)
      modifies this
      ensures match RemoveFrom(old(View()), path)
        case Ok(after) => error.None? && View() == after
        case Err(e) => error == Some(e) && View() == old(View())
    {
      match RemoveFrom(View(), path)
      case Ok(after) =>
        files := after.files;
        error := None;
      case Err(e) =>
        error := Some(e);
    }

    method Write(path: string)
      modifies this
      ensures View() == WriteFile(old(View()), path)
    {
      files := files + {path};
    }
  }
}
