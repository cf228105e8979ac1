/**
 * The Google ADK request and content types both model wrappers convert
 * from and to (`types.Content`, `types.Part`, `types.FunctionCall`,
 * function declarations and their schemas), and the conversions the two
 * wrappers share: the schema type names and the error reply.
 *
 * The ADK types are pydantic models: every attribute exists, and one that
 * is unset reads as `None`, which an optional field here stands for. The
 * wrappers' `hasattr` tests on them are therefore always true.
 */
module AdkTypes {
  import opened Wrappers
  import opened Json

  /** The arguments of a function call: a dictionary, a JSON text, or none. */
  datatype Args = ArgsNone | ArgsText(text: string) | ArgsDict(fields: map<string, Json>)

  datatype FunctionCall = FunctionCall(name: Option<string>, args: Args, id: Option<string>)

  datatype FunctionResponse = FunctionResponse(response: Json, id: Option<string>)

  /** A part carries text, a function call or a function response. */
  datatype Part = Part(text: Option<string>, functionCall: Option<FunctionCall>, functionResponse: Option<FunctionResponse>)

  datatype Content = Content(role: Option<string>, parts: seq<Part>)

  /** `part.text` is set and not empty. */
  predicate HasText(p: Part)
  {
    p.text.Some? && p.text.value != ""
  }

  function TextPart(text: string): Part
  {
    Part(Some(text), None, None)
  }

  function CallPart(call: FunctionCall): Part
  {
    Part(None, Some(call), None)
  }

  /** What each part counts as, by the order of the wrappers' `if`/`elif` tests. */
  datatype PartKind = TextKind(text: string) | CallKind(call: FunctionCall) | ResponseKind(response: FunctionResponse) | Ignored

  function KindOf(p: Part): (k: PartKind)
    ensures k.TextKind? <==> HasText(p)
    ensures k.CallKind? <==> !HasText(p) && p.functionCall.Some?
    ensures k.ResponseKind? <==> !HasText(p) && p.functionCall.None? && p.functionResponse.Some?
  {
    if HasText(p) then TextKind(p.text.value)
    else if p.functionCall.Some? then CallKind(p.functionCall.value)
    else if p.functionResponse.Some? then ResponseKind(p.functionResponse.value)
    else Ignored
  }

  function TextOfPart(p: Part): Option<string>
  {
    if KindOf(p).TextKind? then Some(KindOf(p).text) else None
  }

  /** The texts of the text parts, in order. */
  function Texts(parts: seq<Part>): seq<string>
  {
    FilterMap(parts, TextOfPart)
  }

  function ResponseOfPart(p: Part): Option<FunctionResponse>
  {
    if KindOf(p).ResponseKind? then Some(KindOf(p).response) else None
  }

  /** The function responses of the response parts, in order. */
  function Responses(parts: seq<Part>): seq<FunctionResponse>
  {
    FilterMap(parts, ResponseOfPart)
  }

  /** When no part before `i` is a response and part `i` is, part `i` holds the first response. */
  lemma FirstResponseAt(parts: seq<Part>, i: nat)
    requires i < |parts| && Responses(parts[..i]) == [] && KindOf(parts[i]).ResponseKind?
    ensures Responses(parts) != [] && Responses(parts)[0] == KindOf(parts[i]).response
  {
    FilterMapStep(parts, ResponseOfPart, i);
    assert parts == parts[..i + 1] + parts[i + 1..];
    FilterMapAppend(parts[..i + 1], parts[i + 1..], ResponseOfPart);
  }

  /** The schema of one property of a function's parameters. */
  datatype PropertySchema = PropertySchema(schemaType: Option<string>, description: Option<string>, enumValues: Option<seq<string>>)

  /** A parameters schema; any of its attributes may be unset. */
  datatype Schema = Schema(
    schemaType: Option<string>,
    properties: Option<map<string, PropertySchema>>,
    required: Option<seq<string>>)

  datatype FunctionDeclaration = FunctionDeclaration(name: Option<string>, description: Option<string>, parameters: Option<Schema>)

  /** `config.tools[i]`. */
  datatype ToolGroup = ToolGroup(functionDeclarations: Option<seq<FunctionDeclaration>>)

  datatype RequestConfig = RequestConfig(systemInstruction: Option<string>, tools: seq<ToolGroup>)

  datatype LlmRequest = LlmRequest(contents: seq<Content>, config: Option<RequestConfig>)

  /** The system instruction when the request has a non-empty one. */
  function SystemInstruction(r: LlmRequest): (si: Option<string>)
    ensures si.Some? ==> si.value != ""
  {
    if r.config.Some? && r.config.value.systemInstruction.Some? && r.config.value.systemInstruction.value != "" then
      r.config.value.systemInstruction
    else None
  }

  /** The function declarations of the first tool group, when there are any. */
  function Declarations(r: LlmRequest): (ds: seq<FunctionDeclaration>)
  {
    if r.config.Some? && r.config.value.tools != [] && r.config.value.tools[0].functionDeclarations.Some? then
      r.config.value.tools[0].functionDeclarations.value
    else []
  }

  /**
   * The JSON Schema name of an ADK type: STRING, INTEGER, NUMBER, BOOLEAN,
   * ARRAY and OBJECT become their lowercase names, and anything else
   * becomes "string".
   */
  function JsonTypeName(adkType: string): (r: string)
    ensures r in ["string", "integer", "number", "boolean", "array", "object"]
    ensures adkType !in ["STRING", "INTEGER", "NUMBER", "BOOLEAN", "ARRAY", "OBJECT"] ==> r == "string"
  {
    if adkType == "STRING" then "string"
    else if adkType == "INTEGER" then "integer"
    else if adkType == "NUMBER" then "number"
    else if adkType == "BOOLEAN" then "boolean"
    else if adkType == "ARRAY" then "array"
    else if adkType == "OBJECT" then "object"
    else "string"
  }

  /** The ADK type name of a JSON Schema name. */
  function UpperName(name: string): string
  {
    if name == "integer" then "INTEGER"
    else if name == "number" then "NUMBER"
    else if name == "boolean" then "BOOLEAN"
    else if name == "array" then "ARRAY"
    else if name == "object" then "OBJECT"
    else "STRING"
  }

  /** The six ADK types keep their identity: no two of them get the same JSON Schema name. */
  lemma JsonTypeNameRoundTrip(adkType: string)
    requires adkType in ["STRING", "INTEGER", "NUMBER", "BOOLEAN", "ARRAY", "OBJECT"]
    ensures UpperName(JsonTypeName(adkType)) == adkType
  {
  }

  // The function-tool format both wrappers send: a name, a description and
  // an object schema of typed properties with the required names.

  /** A converted property: its JSON Schema type, and its description and enum when they are set and not empty. */
  datatype PropertySpec = PropertySpec(jsonType: string, description: Option<string>, enumValues: Option<seq<string>>)

  /** The `parameters` of a tool; `required` is copied as it is, None included. */
  datatype ParametersSpec = ParametersSpec(paramType: string, properties: map<string, PropertySpec>, required: Option<seq<string>>)

  /** A tool dictionary; the name and the description are copied as they are, None included. */
  datatype ToolSpec = ToolSpec(name: Option<string>, description: Option<string>, parameters: ParametersSpec)

  /** The `parameters` a declaration starts with: an object with no properties and nothing required. */
  const EmptyParameters := ParametersSpec("object", map[], Some([]))

  /** The six JSON Schema type names a property can get. */
  const JsonTypeNames: seq<string> := ["string", "integer", "number", "boolean", "array", "object"]

  /**
   * One property: its type mapped, an unset type taking the fallback
   * "string" like any other unknown one, and its description and enum kept
   * only when set and not empty.
   */
  function PropertySpecOf(p: PropertySchema): (r: PropertySpec)
    ensures r.jsonType in JsonTypeNames
    ensures p.schemaType.Some? ==> r.jsonType == JsonTypeName(p.schemaType.value)
    ensures p.schemaType.None? ==> r.jsonType == "string"
    ensures r.description.Some? <==> p.description.Some? && p.description.value != ""
    ensures r.description.Some? ==> r.description == p.description
    ensures r.enumValues.Some? <==> p.enumValues.Some? && p.enumValues.value != []
    ensures r.enumValues.Some? ==> r.enumValues == p.enumValues
  {
    PropertySpec(
      if p.schemaType.Some? then JsonTypeName(p.schemaType.value) else "string",
      if p.description.Some? && p.description.value != "" then p.description else None,
      if p.enumValues.Some? && p.enumValues.value != [] then p.enumValues else None)
  }

  /** The parameters of a schema with properties: every property converted, the required names copied as they are. */
  function ParametersOf(properties: map<string, PropertySchema>, required: Option<seq<string>>): (r: ParametersSpec)
    ensures r.paramType == "object" && r.required == required
    ensures r.properties.Keys == properties.Keys
    ensures forall k :: k in properties ==> r.properties[k] == PropertySpecOf(properties[k])
  {
    ParametersSpec("object", map k | k in properties :: PropertySpecOf(properties[k]), required)
  }

  /** Converting the declaration raises `AttributeError`: it has parameters whose `properties` is None, and `.items()` is called on it. */
  predicate PropertiesUnset(d: FunctionDeclaration)
  {
    d.parameters.Some? && d.parameters.value.properties.None?
  }

  /**
   * `_convert_function_declaration_to_langchain_tool`, whose code
   * `_convert_function_declaration_to_openai_tool` repeats: the name and the
   * description copied as they are, and, for a declaration with parameters,
   * every property converted with one of the six type names and `required`
   * copied; `None` when the conversion raises. The OpenAI branch for
   * parameters without a `properties` attribute is never taken, since the
   * attribute always exists.
   */
  function ToolSpecOf(d: FunctionDeclaration): (t: Option<ToolSpec>)
    ensures t.None? <==> PropertiesUnset(d)
    ensures t.Some? ==> t.value.name == d.name && t.value.description == d.description && t.value.parameters.paramType == "object"
    ensures t.Some? && d.parameters.None? ==> t.value.parameters == EmptyParameters
    ensures t.Some? && d.parameters.Some? ==>
      var ps := t.value.parameters;
      && ps.properties.Keys == d.parameters.value.properties.value.Keys
      && ps.required == d.parameters.value.required
      && forall k :: k in ps.properties ==> ps.properties[k].jsonType in JsonTypeNames
  {
    if d.parameters.None? then Some(ToolSpec(d.name, d.description, EmptyParameters))
    else match d.parameters.value.properties
      case None => None
      case Some(properties) => Some(ToolSpec(d.name, d.description, ParametersOf(properties, d.parameters.value.required)))
  }

  /**
   * The tools of a list of declarations, one per declaration in order; `None`
   * when converting one of them raises, which happens before the wrappers'
   * `try`.
   */
  function ToolSpecsOf(ds: seq<FunctionDeclaration>): (r: Option<seq<ToolSpec>>)
    ensures r.None? <==> exists i :: 0 <= i < |ds| && PropertiesUnset(ds[i])
    ensures r.Some? ==> |r.value| == |ds| && forall i :: 0 <= i < |ds| ==> Some(r.value[i]) == ToolSpecOf(ds[i])
  {
    if ds == [] then Some([])
    else
      var init := ToolSpecsOf(ds[..|ds| - 1]);
      var last := ToolSpecOf(ds[|ds| - 1]);
      assert forall i :: 0 <= i < |ds| - 1 ==> ds[..|ds| - 1][i] == ds[i];
      if init.None? || last.None? then None else Some(init.value + [last.value])
  }

  /** The single-text reply both wrappers give when generation raises. */
  function ErrorContent(message: string): (c: Content)
    ensures c.role == Some("assistant") && |c.parts| == 1
    ensures c.parts[0].text == Some("Error generating content: " + message)
  {
    Content(Some("assistant"), [TextPart("Error generating content: " + message)])
  }
}
