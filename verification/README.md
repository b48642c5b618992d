# ollama-mcp tool registry, modelled in Dafny

`ollama-mcp/tools.js` gives a local LLM two file tools through Ollama's
function-calling interface. It has two halves:

- the catalog `tools`: one JSON descriptor per tool (`type: "function"`, a
  name, a description and an object schema of string parameters with a
  `required` list);
- the implementation table `availableTools`: the same names mapped to async
  handlers. `readFile({ filePath })` returns the file's text. When the read
  fails it returns an error text instead ("errors as data").
  `writeFile({ filePath, content })` probes the path with `fs.access`. It
  creates the file only when the probe fails with `ENOENT`. It swallows every
  other outcome and always resolves with nothing.

The model replaces the disk with `map<string, string>` (path to content). It
replaces each `fs/promises` primitive with a pure function of that map, its
arguments and a `Fault`. `Clear` means the operating system answers from the
map: the content, or `ENOENT` for a missing path. `Fail(e)` injects any other
outcome, such as permission denied or a full disk. This way every `catch`
branch of the handlers can be reached. A handler is a function from
(filesystem, argument object, faults) to (resolved value, new filesystem).

Modules, one per concern:

- `Js` (js.dfy): argument objects, `undefined` for a property the caller left
  out, and template-literal rendering.
- `Fs` (fs.dfy): the filesystem, Node errors (`code`, `message`), and
  `access` / `readFile` / `writeFile`.
- `Catalog` (catalog.dfy): the `TOOL_TYPE`, `FIELD_TYPE` and `TOOL`
  constants, the descriptor datatypes, the `tools` array with its texts
  verbatim, and the catalog's invariants.
- `Handlers` (handlers.dfy): the two handlers and their branch-by-branch
  properties.
- `ReadErrors` (read_errors.dfy): the caller's view of `readFile`'s error
  text. It has a parser that inverts the text, and it proves where the
  error text cannot be told apart from real content.
- `Registry` (registry.dfy): `availableTools`, and its parity with the
  catalog.

Points about the code that shape the model:

- The code has no startup parity check between catalog and table. Parity
  holds by construction and is proved as a lemma (`Registry.CatalogParity`).
- The code has no dispatcher, so it has no "tool not found" outcome.
- The existence check is `fs.access`. It rejects rather than returning a
  boolean, so the write handler branches on the rejection's `code`.
- A missing argument is not validated. Destructuring yields `undefined`.
  Node rejects `undefined` with `ERR_INVALID_ARG_TYPE`. `readFile` therefore
  returns `Error reading file 'undefined': …` and `writeFile` does nothing.
- Node also rejects a string path containing a NUL character, with
  `ERR_INVALID_ARG_VALUE`, before any system call. `readFile` turns that into
  error text and `writeFile`'s probe fails with a code other than `ENOENT`,
  so nothing is created.

## Model

| member | source | states |
|---|---|---|
| `Fs.Access` | ollama-mcp/tools.js:76 | the probe resolves exactly when the path is a string without NUL, nothing is injected and the file exists; a missing file rejects with ENOENT, an injected fault rejects with that fault; `undefined` rejects with ERR_INVALID_ARG_TYPE and a path containing NUL with ERR_INVALID_ARG_VALUE, both before any fault |
| `Fs.ReadText` | ollama-mcp/tools.js:65 | the read succeeds exactly when the path is valid, the file exists and nothing is injected, and then yields the stored text; otherwise the rejection is ENOENT, the injected fault, the NUL-path error or the invalid-argument error |
| `Fs.WriteText` | ollama-mcp/tools.js:82 | the write succeeds exactly when path and data are strings, the path has no NUL and nothing is injected, and then stores the data at the path; a rejected write leaves the filesystem unchanged; `undefined` data is rejected first, then a NUL path |
| `Fs.NotFound` | ollama-mcp/tools.js:80 | the missing-file rejection carries code ENOENT and a non-empty message that contains the path |
| `Fs.ValidPathIsNoNul` | ollama-mcp/tools.js:65-82 | a path Node accepts is exactly a string with no NUL character, in both directions |
| `Fs.NullBytes` | ollama-mcp/tools.js:63-76 | a string path containing NUL is rejected with ERR_INVALID_ARG_VALUE, which is not ENOENT, with a non-empty message |
| `Fs.InvalidArg` | ollama-mcp/tools.js:63-65 | a missing argument is rejected with ERR_INVALID_ARG_TYPE, which is not ENOENT, with a non-empty message |
| `Catalog.Names` | ollama-mcp/tools.js:19-58 | the name set of a catalog holds every descriptor's name and nothing else |
| `Catalog.CatalogWellFormed` | ollama-mcp/tools.js:12-58 | the catalog is `readFile` then `writeFile`, with distinct names; each descriptor is of type "function" over an "object" schema with distinct property names; every property has type "string"; every required name is a declared property |
| `Catalog.SuppliesRequired` | ollama-mcp/tools.js:25-54 | arguments meet `readFile`'s `required` exactly when they have `filePath`, and meet `writeFile`'s exactly when they have `filePath` and `content` |
| `Handlers.ReadErrorText` | ollama-mcp/tools.js:70 | the error text is the prefix `Error reading file '` at index 0, then the path, then the separator `': `, and the rest is exactly the message |
| `Handlers.ReadFile` | ollama-mcp/tools.js:63-72 | always resolves with text and never changes the filesystem; the text is the stored content on a clean read of an existing file with a valid path, and otherwise `Error reading file '<path>': <message>` carrying the injected, ENOENT, NUL-path or invalid-argument message |
| `Handlers.WriteFile` | ollama-mcp/tools.js:74-91 | always resolves with nothing; the filesystem gains `filePath := content` exactly when both arguments are present, the path has no NUL, the probe reports ENOENT and the write goes through, and is unchanged otherwise |
| `Handlers.ReadFileReturnsContent` | ollama-mcp/tools.js:63-67 | for any argument object whose `filePath` is a valid path of a stored file, a read without a fault returns exactly its content and leaves the filesystem as it was |
| `Handlers.ReadFileFailureIsData` | ollama-mcp/tools.js:68-71 | a failed read resolves, instead of rejecting, with exactly `Error reading file '<path>': <message>`, where the message is the caught error's own (the NUL-path, injected or ENOENT error); it leaves the filesystem alone; the text always contains the path; the messages Node makes up are non-empty |
| `Handlers.WriteFileNeverOverwrites` | ollama-mcp/tools.js:76-77 | when the path exists and the probe does not falsely report ENOENT, the filesystem is unchanged |
| `Handlers.WriteFileCreates` | ollama-mcp/tools.js:78-83 | for any argument object carrying a valid `filePath` and a `content`, an ENOENT probe followed by a clean write adds exactly the new path with the given content; every other file keeps its content |
| `Handlers.WriteFileFailuresChangeNothing` | ollama-mcp/tools.js:84-89 | a failed write, a probe failing with a code other than ENOENT, a missing argument or a path containing NUL yields no value and the same filesystem |
| `Handlers.WriteFileIdempotent` | ollama-mcp/tools.js:74-91 | calling `writeFile` twice with the same arguments and the same faults equals calling it once |
| `Handlers.WriteFileSecondCallNoOp` | ollama-mcp/tools.js:74-83 | after a call that created the file, any later call with the same arguments whose probe is truthful about the new file changes nothing |
| `Handlers.WriteFileFrame` | ollama-mcp/tools.js:74-91 | `writeFile` never removes a file and never changes a file other than the one it names |
| `ReadErrors.ParseReadError` | ollama-mcp/tools.js:70 | whatever the parser accepts is an error text, namely the rendering of the path and message it returns, and the path it returns contains no quote |
| `ReadErrors.ParseReadErrorRoundTrip` | ollama-mcp/tools.js:70 | for a path without a quote, parsing the error text gives back exactly the path and the message |
| `ReadErrors.QuotedPathIsAmbiguous` | ollama-mcp/tools.js:70 | for all `a`, `b`, `m`: the path `a': b` with message `m` renders to the same text as the different, shorter path `a` with message `b': m`, so the shape alone cannot recover the path |
| `ReadErrors.QuotedPathParsesShort` | ollama-mcp/tools.js:70 | for every quote-free `a` and all `b`, `m`: the parser reads the error text for path `a': b` with message `m` as path `a` with message `b': m` |
| `ReadErrors.ReadFailureParses` | ollama-mcp/tools.js:63-71 | every failed `readFile` on a quote-free path, including one with a NUL, returns text from which the parser recovers that path and the underlying message |
| `ReadErrors.ContentMimicsFailure` | ollama-mcp/tools.js:65-70 | for any argument object naming it, a file whose content is an error text reads exactly like a failed read with that message, so the caller cannot tell success from failure by the result |
| `Registry.Invoke` | ollama-mcp/tools.js:62-92 | the table's `readFile` resolves with text and keeps the filesystem; its `writeFile` resolves with nothing; neither deletes a file |
| `Registry.CatalogParity` | ollama-mcp/tools.js:19-92 | the catalog's names are exactly the keys of `availableTools`, and each name maps to the handler of that tool |
| `Registry.ReadFileThroughTable` | ollama-mcp/tools.js:33-67 | a table call of `readFile` that supplies the descriptor's required arguments reads the stored content of an existing file at a valid path |
| `Registry.WriteFileThroughTable` | ollama-mcp/tools.js:54-83 | a table call of `writeFile` that supplies the descriptor's required arguments, on a missing valid path with no faults, creates the file with the given content |
| `Registry.InvalidPathIsAbsorbed` | ollama-mcp/tools.js:63-91 | a `filePath` containing NUL makes `readFile` return the error text with the ERR_INVALID_ARG_VALUE message and makes `writeFile` do nothing, whatever the filesystem holds |
| `Registry.MissingPathIsAbsorbed` | ollama-mcp/tools.js:63-91 | without `filePath`, `readFile` returns the error text for path `undefined` and `writeFile` does nothing; neither rejects |

## Left out

- `async`/`await` and promise scheduling: every handler's promise settles at once, in order.
- `console.log` / `console.error` diagnostics: the caller cannot see them.
- The race between `fs.access` and `fs.writeFile`: a sequential model has no concurrent writer. `Handlers.WriteFileNeverOverwrites` holds only with no interleaving.
- Handlers.WriteFileNeverOverwrites: it assumes the probe never reports ENOENT for a path that exists (`ProbeTruthful`). An injected ENOENT on an existing path would let the write replace the file.
- UTF-8 decoding and the real text of Node's error messages. `Fs.NotFound`, `Fs.NullBytes` and `Fs.InvalidArg` use stand-in texts. Only the code matters, and for ENOENT the fact that the message names the path.
- A write that fails after `fs.writeFile` has already created the file: a rejected write is modelled as changing nothing, so an empty or partly written new file left behind is not modelled.
- Argument values other than strings: arguments are modelled as strings only. Non-string scalars (a number, a boolean, `null`) and plain objects are rejected with ERR_INVALID_ARG_TYPE and render differently in the error text. An array `content` is not rejected: `fs.writeFile` writes the concatenation of its elements.
- A missing argument object: destructuring it would reject the handler's promise before its `try`.
- Directories, permissions and paths that differ textually but name the same file: paths are opaque keys. All such effects arrive through the injected `Fault`. A `Clear` write is realistic only for a path that can be created: the empty path, or a path whose parent directory is missing, fails with ENOENT in the operating system, so for those the write fault must be `Fail`.
- Dispatch of an unknown tool name: the file defines no dispatcher.
