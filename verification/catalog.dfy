/** The tool catalog advertised to the model's function-calling API: one
    descriptor per tool, in the wire shape
    `{ type, function: { name, description, parameters } }`. */
module Catalog {

  /** Values of the `type` fields (the `TOOL_TYPE` and `FIELD_TYPE` tables). */
  const ToolTypeFunction := "function"
  const FieldTypeObject := "object"
  const FieldTypeString := "string"

  /** Tool names (the `TOOL` table). */
  const ReadFileName := "readFile"
  const WriteFileName := "writeFile"

  /** Parameter names shared by the descriptors and the handlers. */
  const FilePathParam := "filePath"
  const ContentParam := "content"

  /** One entry of `parameters.properties`; `kind` is its `type` field. */
  datatype Property = Property(name: string, kind: string, description: string)

  /** `parameters`: an object schema with its properties in declaration order
      and the ordered list of required property names. */
  datatype Parameters = Parameters(kind: string, properties: seq<Property>, required: seq<string>)

  /** The `function` member of a descriptor. */
  datatype FunctionSchema = FunctionSchema(name: string, description: string, parameters: Parameters)

  /** A catalog entry; `kind` is its `type` field and `fun` its `function` field. */
  datatype Tool = Tool(kind: string, fun: FunctionSchema)

  const ReadFileTool := Tool(ToolTypeFunction, FunctionSchema(
    ReadFileName,
    "주어진 경로의 텍스트 파일 내용을 읽습니다.",
    Parameters(FieldTypeObject,
      [Property(FilePathParam, FieldTypeString, "읽을 파일의 경로")],
      [FilePathParam])))

  const WriteFileTool := Tool(ToolTypeFunction, FunctionSchema(
    WriteFileName,
    "주어진 경로에 텍스트 파일을 만듭니다.",
    Parameters(FieldTypeObject,
      [Property(FilePathParam, FieldTypeString, "새로 만들 파일의 경로"),
       Property(ContentParam, FieldTypeString, "파일에 쓸 내용")],
      [FilePathParam, ContentParam])))

  /** The `tools` array, in order. */
  const Tools: seq<Tool> := [ReadFileTool, WriteFileTool]

  /** `n` is the name of one of the declared properties. */
  predicate Declares(ps: Parameters, n: string)
  {
    exists i :: 0 <= i < |ps.properties| && ps.properties[i].name == n
  }

  /** A descriptor is well formed when it is a function descriptor over an
      object schema whose property names are distinct and whose required
      names are all declared. */
  predicate WellFormed(t: Tool)
  {
    var ps := t.fun.parameters;
    && t.kind == ToolTypeFunction
    && ps.kind == FieldTypeObject
    && (forall i, j :: 0 <= i < j < |ps.properties| ==> ps.properties[i].name != ps.properties[j].name)
    && (forall k :: 0 <= k < |ps.required| ==> Declares(ps, ps.required[k]))
  }

  /** Every parameter the descriptor declares is a string. */
  predicate AllStringParameters(t: Tool)
  {
    forall i :: 0 <= i < |t.fun.parameters.properties| ==> t.fun.parameters.properties[i].kind == FieldTypeString
  }

  /** No two descriptors carry the same name. */
  predicate NamesDistinct(tools: seq<Tool>)
  {
    forall i, j :: 0 <= i < j < |tools| ==> tools[i].fun.name != tools[j].fun.name
  }

  /** The names the catalog advertises. */
  function Names(tools: seq<Tool>): (names: set<string>)
    ensures forall i :: 0 <= i < |tools| ==> tools[i].fun.name in names
    ensures forall n :: n in names ==> exists i :: 0 <= i < |tools| && tools[i].fun.name == n
  {
    if tools == [] then {} else {tools[0].fun.name} + Names(tools[1..])
  }

  /** Every name in `names` is a property of the arguments. */
  predicate HasAll(names: seq<string>, args: map<string, string>)
  {
    names == [] || (names[0] in args && HasAll(names[1..], args))
  }

  /** The arguments supply every parameter the descriptor marks as required. */
  predicate Supplies(t: Tool, args: map<string, string>)
  {
    HasAll(t.fun.parameters.required, args)
  }

  /** The shipped catalog: two function descriptors with distinct names, each
      over an object schema of string parameters whose required names are
      all declared. */
  lemma CatalogWellFormed()
    ensures |Tools| == 2 && Tools[0].fun.name == ReadFileName && Tools[1].fun.name == WriteFileName
    ensures NamesDistinct(Tools)
    ensures forall i :: 0 <= i < |Tools| ==> WellFormed(Tools[i]) && AllStringParameters(Tools[i])
    ensures Names(Tools) == {ReadFileName, WriteFileName}
  {
    assert ReadFileTool.fun.parameters.properties[0].name == FilePathParam;
    assert Declares(ReadFileTool.fun.parameters, FilePathParam);
    assert WriteFileTool.fun.parameters.properties[0].name == FilePathParam;
    assert Declares(WriteFileTool.fun.parameters, FilePathParam);
    assert WriteFileTool.fun.parameters.properties[1].name == ContentParam;
    assert Declares(WriteFileTool.fun.parameters, ContentParam);
    assert Tools[1..][1..] == [];
  }

  /** Supplying the required arguments of a descriptor means supplying each
      parameter it names as required. */
  lemma SuppliesRequired(args: map<string, string>)
    ensures Supplies(ReadFileTool, args) <==> FilePathParam in args
    ensures Supplies(WriteFileTool, args) <==> FilePathParam in args && ContentParam in args
  {
    var r := ReadFileTool.fun.parameters.required;
    var w := WriteFileTool.fun.parameters.required;
    assert r == [FilePathParam] && w == [FilePathParam, ContentParam];
    assert r[1..] == [] && w[1..] == [ContentParam] && w[1..][1..] == [];
    assert HasAll(r, args) <==> FilePathParam in args && HasAll([], args);
    assert HasAll(w[1..], args) <==> ContentParam in args && HasAll([], args);
    assert HasAll(w, args) <==> FilePathParam in args && HasAll(w[1..], args);
  }
}
