/** The implementation table: tool name to handler, alongside the catalog. */
module Registry {
  import opened Js
  import opened Fs
  import opened Catalog
  import opened Handlers

  /** The handlers the table can hold. */
  datatype Handler = ReadFileHandler | WriteFileHandler

  /** The `availableTools` object. */
  const AvailableTools: map<string, Handler> :=
    map[ReadFileName := ReadFileHandler, WriteFileName := WriteFileHandler]

  /** Calling a handler from the table. Reading returns text and never
      changes the filesystem; writing returns nothing and never deletes. */
  function Invoke(h: Handler, fs: FileSystem, args: Args, oracle: Oracle): (step: Step)
    ensures h.ReadFileHandler? ==> step.result.Payload? && step.fs == fs
    ensures h.WriteFileHandler? ==> step.result == NoPayload
    ensures fs.Keys <= step.fs.Keys
  {
    match h
    case ReadFileHandler => ReadFile(fs, args, oracle)
    case WriteFileHandler => WriteFile(fs, args, oracle)
  }

  /** The names the catalog advertises are exactly the keys of the table, and
      each descriptor sits beside the handler of the same name. */
  lemma CatalogParity()
    ensures Names(Tools) == AvailableTools.Keys
    ensures forall i :: 0 <= i < |Tools| ==> Tools[i].fun.name in AvailableTools
    ensures AvailableTools[ReadFileTool.fun.name] == ReadFileHandler
    ensures AvailableTools[WriteFileTool.fun.name] == WriteFileHandler
  {
    CatalogWellFormed();
  }

  /** A call of the table's `readFile` that supplies the descriptor's
      required arguments reads the stored content of an existing file. */
  lemma ReadFileThroughTable(fs: FileSystem, args: Args, oracle: Oracle)
    requires Supplies(ReadFileTool, args)
    requires ValidPath(args[FilePathParam]) && args[FilePathParam] in fs && oracle.read.Clear?
    ensures Invoke(AvailableTools[ReadFileName], fs, args, oracle) == Step(Payload(fs[args[FilePathParam]]), fs)
  {
    SuppliesRequired(args);
  }

  /** A call of the table's `writeFile` that supplies the descriptor's
      required arguments creates a missing file with the given content. */
  lemma WriteFileThroughTable(fs: FileSystem, args: Args, oracle: Oracle)
    requires Supplies(WriteFileTool, args)
    requires ValidPath(args[FilePathParam]) && args[FilePathParam] !in fs
    requires oracle.access.Clear? && oracle.write.Clear?
    ensures ContentParam in args
    ensures Invoke(AvailableTools[WriteFileName], fs, args, oracle)
      == Step(NoPayload, fs[args[FilePathParam] := args[ContentParam]])
  {
    SuppliesRequired(args);
  }

  /** Leaving out the required `filePath` is not an error to the caller
      either: `readFile` reports it as text about the path `undefined`, and
      `writeFile` does nothing. */
  lemma MissingPathIsAbsorbed(fs: FileSystem, args: Args, oracle: Oracle)
    requires !Supplies(ReadFileTool, args)
    ensures Invoke(AvailableTools[ReadFileName], fs, args, oracle)
      == Step(Payload(ReadErrorText("undefined", InvalidArg("path").message)), fs)
    ensures Invoke(AvailableTools[WriteFileName], fs, args, oracle) == Step(NoPayload, fs)
  {
    SuppliesRequired(args);
  }

  /** A `filePath` containing a NUL character is rejected by Node before any
      system call: `readFile` reports it as text and `writeFile` does nothing,
      whatever the filesystem holds. */
  lemma InvalidPathIsAbsorbed(fs: FileSystem, args: Args, oracle: Oracle)
    requires FilePathParam in args && !ValidPath(args[FilePathParam])
    ensures Invoke(AvailableTools[ReadFileName], fs, args, oracle)
      == Step(Payload(ReadErrorText(args[FilePathParam], NullBytes("path").message)), fs)
    ensures Invoke(AvailableTools[WriteFileName], fs, args, oracle) == Step(NoPayload, fs)
  {
  }
}
