/** The implementations behind the catalog, as pure transitions of the
    abstract filesystem. Each handler's promise settles to a `ToolResult`;
    neither handler ever rejects. */
module Handlers {
  import opened Js
  import opened Fs
  import opened Catalog

  /** What a handler's promise resolves to: text for the model, or nothing. */
  datatype ToolResult = Payload(text: string) | NoPayload

  /** A handler's result together with the filesystem it leaves behind. */
  datatype Step = Step(result: ToolResult, fs: FileSystem)

  /** The operating system's say in each primitive a handler may call. */
  datatype Oracle = Oracle(access: Fault, read: Fault, write: Fault)

  const ReadErrorPrefix := "Error reading file '"
  const ReadErrorSeparator := "': "

  /** The text `readFile` returns in place of the content when the read
      fails: the prefix, the path, the separator, then the message. */
  function ReadErrorText(filePath: string, message: string): (text: string)
    ensures OccursAt(text, ReadErrorPrefix, 0)
    ensures OccursAt(text, filePath, |ReadErrorPrefix|)
    ensures OccursAt(text, ReadErrorSeparator, |ReadErrorPrefix| + |filePath|)
    ensures text[|ReadErrorPrefix| + |filePath| + |ReadErrorSeparator|..] == message
  {
    ReadErrorPrefix + filePath + ReadErrorSeparator + message
  }

  /** `readFile({ filePath })`: the file's text when the read succeeds, and
      otherwise the error rendered as text; the filesystem never changes. */
  function ReadFile(fs: FileSystem, args: Args, oracle: Oracle): (step: Step)
    ensures step.fs == fs
    ensures step.result.Payload?
    ensures FilePathParam in args && ValidPath(args[FilePathParam]) && oracle.read.Clear? && args[FilePathParam] in fs
      ==> step.result.text == fs[args[FilePathParam]]
    ensures FilePathParam in args && ValidPath(args[FilePathParam]) && oracle.read.Fail?
      ==> step.result.text == ReadErrorText(args[FilePathParam], oracle.read.error.message)
    ensures FilePathParam in args && ValidPath(args[FilePathParam]) && oracle.read.Clear? && args[FilePathParam] !in fs
      ==> step.result.text == ReadErrorText(args[FilePathParam], NotFound("open", args[FilePathParam]).message)
    ensures FilePathParam in args && !ValidPath(args[FilePathParam])
      ==> step.result.text == ReadErrorText(args[FilePathParam], NullBytes("path").message)
    ensures FilePathParam !in args
      ==> step.result.text == ReadErrorText("undefined", InvalidArg("path").message)
  {
    var filePath := Get(args, FilePathParam);
    match ReadText(fs, filePath, oracle.read)
    case Ok(content) => Step(Payload(content), fs)
    case Err(error) => Step(Payload(ReadErrorText(Interpolate(filePath), error.message)), fs)
  }

  /** The existence probe for `p` answers "not found"; a path Node rejects
      never gets that answer. */
  predicate ProbeSaysMissing(fs: FileSystem, p: string, probe: Fault)
  {
    ValidPath(p) && if probe.Fail? then probe.error.code == ENOENT else p !in fs
  }

  /** The message of the error a failed read of the string path `p` carries. */
  function ReadFailureMessage(p: string, read: Fault): string
  {
    if !ValidPath(p) then NullBytes("path").message
    else if read.Fail? then read.error.message
    else NotFound("open", p).message
  }

  /** The probe does not claim a path is missing when it exists. */
  predicate ProbeTruthful(fs: FileSystem, p: string, probe: Fault)
  {
    p in fs ==> !ProbeSaysMissing(fs, p, probe)
  }

  /** `writeFile` creates the file: both arguments are present, the probe
      reports the path missing and the write goes through. */
  predicate Creates(fs: FileSystem, args: Args, oracle: Oracle)
  {
    && FilePathParam in args
    && ContentParam in args
    && ProbeSaysMissing(fs, args[FilePathParam], oracle.access)
    && oracle.write.Clear?
  }

  /** `writeFile({ filePath, content })`: probe the path; when the probe
      reports ENOENT, write the content; any other outcome, including a
      failed write, leaves the filesystem alone. Resolves with nothing. */
  function WriteFile(fs: FileSystem, args: Args, oracle: Oracle): (step: Step)
    ensures step.result == NoPayload
    ensures Creates(fs, args, oracle) ==> step.fs == fs[args[FilePathParam] := args[ContentParam]]
    ensures !Creates(fs, args, oracle) ==> step.fs == fs
  {
    var filePath := Get(args, FilePathParam);
    match Access(fs, filePath, oracle.access)
    case Ok(_) => Step(NoPayload, fs)
    case Err(error) =>
      if error.code == ENOENT then
        Step(NoPayload, WriteText(fs, filePath, Get(args, ContentParam), oracle.write).fs)
      else
        Step(NoPayload, fs)
  }

  /** A successful read of a stored file returns exactly its content and
      leaves every file as it was, whatever other properties the argument
      object carries. */
  lemma ReadFileReturnsContent(fs: FileSystem, p: string, args: Args, oracle: Oracle)
    requires FilePathParam in args && args[FilePathParam] == p
    requires ValidPath(p) && p in fs && oracle.read.Clear?
    ensures ReadFile(fs, args, oracle) == Step(Payload(fs[p]), fs)
  {
  }

  /** A failed read is not an error to the caller: it returns the error text
      for the path and the caught error's own message, leaves the filesystem
      alone, and the text always names the path. The messages Node makes up
      itself are never empty. */
  lemma ReadFileFailureIsData(fs: FileSystem, p: string, args: Args, oracle: Oracle)
    requires FilePathParam in args && args[FilePathParam] == p
    requires !ValidPath(p) || oracle.read.Fail? || p !in fs
    ensures ReadFile(fs, args, oracle) == Step(Payload(ReadErrorText(p, ReadFailureMessage(p, oracle.read))), fs)
    ensures !ValidPath(p) ==> ReadFailureMessage(p, oracle.read) == NullBytes("path").message
    ensures ValidPath(p) && oracle.read.Fail? ==> ReadFailureMessage(p, oracle.read) == oracle.read.error.message
    ensures ValidPath(p) && oracle.read.Clear? ==> ReadFailureMessage(p, oracle.read) == NotFound("open", p).message
    ensures !ValidPath(p) || oracle.read.Clear? ==> ReadFailureMessage(p, oracle.read) != ""
    ensures Contains(ReadFile(fs, args, oracle).result.text, p)
  {
    assert OccursAt(ReadFile(fs, args, oracle).result.text, p, |ReadErrorPrefix|);
  }

  /** An existing file is never overwritten: with a truthful probe the
      filesystem is unchanged. */
  lemma WriteFileNeverOverwrites(fs: FileSystem, args: Args, oracle: Oracle)
    requires FilePathParam in args && args[FilePathParam] in fs
    requires ProbeTruthful(fs, args[FilePathParam], oracle.access)
    ensures WriteFile(fs, args, oracle).fs == fs
  {
  }

  /** A probe that reports ENOENT followed by a successful write leaves
      exactly the new file added; every other path keeps its state. Extra
      properties of the argument object play no part. */
  lemma WriteFileCreates(fs: FileSystem, p: string, c: string, args: Args, oracle: Oracle)
    requires FilePathParam in args && args[FilePathParam] == p && ValidPath(p)
    requires ContentParam in args && args[ContentParam] == c
    requires ProbeSaysMissing(fs, p, oracle.access) && oracle.write.Clear?
    ensures var fs' := WriteFile(fs, args, oracle).fs;
      && p in fs' && fs'[p] == c
      && fs'.Keys == fs.Keys + {p}
      && (forall q :: q in fs && q != p ==> fs'[q] == fs[q])
  {
  }

  /** A failed write, a probe failing with any other code, missing
      arguments and a path Node rejects all leave the filesystem unchanged. */
  lemma WriteFileFailuresChangeNothing(fs: FileSystem, args: Args, oracle: Oracle)
    requires || oracle.write.Fail?
             || (oracle.access.Fail? && oracle.access.error.code != ENOENT)
             || FilePathParam !in args
             || ContentParam !in args
             || (FilePathParam in args && !ValidPath(args[FilePathParam]))
    ensures WriteFile(fs, args, oracle) == Step(NoPayload, fs)
  {
  }

  /** Writing twice with the same arguments and the same operating-system
      behaviour ends where writing once does. */
  lemma WriteFileIdempotent(fs: FileSystem, args: Args, oracle: Oracle)
    ensures var once := WriteFile(fs, args, oracle);
      WriteFile(once.fs, args, oracle) == once
  {
  }

  /** Once a call has created the file, a later call whose probe tells the
      truth about the new file leaves the filesystem alone, whatever the
      operating system does on that call otherwise. */
  lemma WriteFileSecondCallNoOp(fs: FileSystem, args: Args, first: Oracle, second: Oracle)
    requires FilePathParam in args && Creates(fs, args, first)
    requires ProbeTruthful(WriteFile(fs, args, first).fs, args[FilePathParam], second.access)
    ensures var once := WriteFile(fs, args, first);
      WriteFile(once.fs, args, second) == once
  {
  }

  /** `writeFile` never deletes a file and changes at most the file it names. */
  lemma WriteFileFrame(fs: FileSystem, args: Args, oracle: Oracle)
    ensures var fs' := WriteFile(fs, args, oracle).fs;
      && fs.Keys <= fs'.Keys
      && (forall q :: q in fs' && (FilePathParam !in args || q != args[FilePathParam])
            ==> q in fs && fs'[q] == fs[q])
  {
  }
}
