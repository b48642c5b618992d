/** An abstract filesystem and the three `fs/promises` primitives the handlers
    call. A primitive is a pure function of the filesystem, its arguments and a
    `Fault` that stands for whatever the operating system does beyond what the
    map shows (permission denied, a directory in the way, a full disk, ...). */
module Fs {
  import opened Js

  /** Path to text content of every file that exists. */
  type FileSystem = map<string, string>

  /** A rejected filesystem promise: the Node error's `code` and `message`. */
  datatype FsError = FsError(code: string, message: string)

  const ENOENT := "ENOENT"
  const ERR_INVALID_ARG_TYPE := "ERR_INVALID_ARG_TYPE"
  const ERR_INVALID_ARG_VALUE := "ERR_INVALID_ARG_VALUE"

  /** The operating system's extra say in one primitive call. */
  datatype Fault = Clear | Fail(error: FsError)

  /** How a primitive's promise settles. */
  datatype Result<T> = Ok(value: T) | Err(error: FsError)

  /** The outcome of a primitive that may change the filesystem. */
  datatype Effect = Effect(result: Result<()>, fs: FileSystem)

  /** The rejection for a path that does not exist. The text follows Node's
      format; only its code and the fact that it names the path matter. */
  function NotFound(syscall: string, path: string): (e: FsError)
    ensures e.code == ENOENT
    ensures e.message != ""
    ensures Contains(e.message, path)
  {
    var lead := "ENOENT: no such file or directory, " + syscall + " '";
    var m := lead + path + "'";
    assert OccursAt(m, path, |lead|);
    FsError(ENOENT, m)
  }

  /** `sub` appears in `s` starting at index `k`. */
  predicate OccursAt(s: string, sub: string, k: nat)
  {
    k + |sub| <= |s| && s[k..k + |sub|] == sub
  }

  ghost predicate Contains(s: string, sub: string)
  {
    exists k: nat :: OccursAt(s, sub, k)
  }

  /** The rejection Node gives, before any system call, for a missing
      argument. The text is a stand-in; only its code matters. */
  function InvalidArg(name: string): (e: FsError)
    ensures e.code == ERR_INVALID_ARG_TYPE && e.code != ENOENT
    ensures e.message != ""
  {
    FsError(ERR_INVALID_ARG_TYPE, "The \"" + name + "\" argument must be of type string. Received undefined")
  }

  /** The rejection Node gives, before any system call, for a string path
      that contains a NUL character. The text is a stand-in; only its code
      matters. */
  function NullBytes(name: string): (e: FsError)
    ensures e.code == ERR_INVALID_ARG_VALUE && e.code != ENOENT
    ensures e.message != ""
  {
    FsError(ERR_INVALID_ARG_VALUE, "The argument '" + name + "' must be a string without null bytes")
  }

  /** A string Node accepts as a path: one without a NUL character. */
  predicate ValidPath(p: string)
  {
    p == [] || (p[0] != '\0' && ValidPath(p[1..]))
  }

  /** `ValidPath` is exactly the absence of a NUL character. */
  lemma {:induction false} ValidPathIsNoNul(p: string)
    ensures ValidPath(p) <==> '\0' !in p
  {
    if p != [] {
      ValidPathIsNoNul(p[1..]);
      assert p == [p[0]] + p[1..];
    }
  }

  /** `fs.access(path)`: resolves exactly when the path is valid, exists and
      nothing else goes wrong; a missing path is reported as ENOENT, and an
      invalid path is rejected before the system is asked. */
  function Access(fs: FileSystem, path: Value, fault: Fault): (r: Result<()>)
    ensures r.Ok? <==> path.Str? && ValidPath(path.s) && fault.Clear? && path.s in fs
    ensures path.Str? && ValidPath(path.s) && fault.Clear? && path.s !in fs ==> r == Err(NotFound("access", path.s))
    ensures path.Str? && ValidPath(path.s) && fault.Fail? ==> r == Err(fault.error)
    ensures path.Str? && !ValidPath(path.s) ==> r == Err(NullBytes("path"))
    ensures path.Undefined? ==> r == Err(InvalidArg("path"))
  {
    match path
    case Undefined => Err(InvalidArg("path"))
    case Str(p) =>
      if !ValidPath(p) then Err(NullBytes("path"))
      else if fault.Fail? then Err(fault.error)
      else if p in fs then Ok(())
      else Err(NotFound("access", p))
  }

  /** `fs.readFile(path, "utf-8")`: the stored text, or the rejection. */
  function ReadText(fs: FileSystem, path: Value, fault: Fault): (r: Result<string>)
    ensures r.Ok? <==> path.Str? && ValidPath(path.s) && fault.Clear? && path.s in fs
    ensures r.Ok? ==> r.value == fs[path.s]
    ensures path.Str? && ValidPath(path.s) && fault.Clear? && path.s !in fs ==> r == Err(NotFound("open", path.s))
    ensures path.Str? && ValidPath(path.s) && fault.Fail? ==> r == Err(fault.error)
    ensures path.Str? && !ValidPath(path.s) ==> r == Err(NullBytes("path"))
    ensures path.Undefined? ==> r == Err(InvalidArg("path"))
  {
    match path
    case Undefined => Err(InvalidArg("path"))
    case Str(p) =>
      if !ValidPath(p) then Err(NullBytes("path"))
      else if fault.Fail? then Err(fault.error)
      else if p in fs then Ok(fs[p])
      else Err(NotFound("open", p))
  }

  /** `fs.writeFile(path, data, "utf-8")`: creates or replaces the file. Node
      checks the data, then the path, before it opens anything, and a
      rejected call leaves the filesystem as it was. */
  function WriteText(fs: FileSystem, path: Value, data: Value, fault: Fault): (e: Effect)
    ensures e.result.Ok? <==> path.Str? && ValidPath(path.s) && data.Str? && fault.Clear?
    ensures e.result.Ok? ==> e.fs == fs[path.s := data.s]
    ensures e.result.Err? ==> e.fs == fs
    ensures data.Undefined? ==> e.result == Err(InvalidArg("data"))
    ensures data.Str? && path.Str? && !ValidPath(path.s) ==> e.result == Err(NullBytes("path"))
  {
    if data.Undefined? then Effect(Err(InvalidArg("data")), fs)
    else if path.Undefined? then Effect(Err(InvalidArg("path")), fs)
    else if !ValidPath(path.s) then Effect(Err(NullBytes("path")), fs)
    else if fault.Fail? then Effect(Err(fault.error), fs)
    else Effect(Ok(()), fs[path.s := data.s])
  }
}
