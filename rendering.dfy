/**
 * What the formatter emits, as a sequence of lines (each line is written
 * to the output followed by "\n"; see `Text.Unlines`). One function per
 * renderer of src/formatter.ts, and one per `forEach` loop over a
 * collection, each concatenating the lines of its elements in input order.
 * Every function lists the parts of its block in the order the renderer
 * writes them; their properties are proved in `BlockLaws`, `CleanLaws`
 * and `DocumentLaws`.
 */
module Rendering {
  import opened Wrappers
  import opened OpenApi
  import opened Options
  import opened Text

  /** The label of the line that shows an example value. */
  const ExamplePrefix: string := "  Example: "

  /** The line `tag + value` when `value` is truthy, as in `if (x) output += `Label: ${x}\n``. */
  function LabelLine(tag: string, value: Option<string>): seq<string> {
    if Truthy(value) then [tag + value.value] else []
  }

  /** Emitting a `LabelLine` appends its text, or nothing. */
  lemma UnlinesLabelLine(lines: seq<string>, tag: string, value: Option<string>)
    ensures Truthy(value) ==> Unlines(lines + LabelLine(tag, value)) == Unlines(lines) + (tag + value.value) + "\n"
    ensures !Truthy(value) ==> Unlines(lines + LabelLine(tag, value)) == Unlines(lines) && lines + LabelLine(tag, value) == lines
  {
    if Truthy(value) {
      UnlinesSnoc(lines, tag + value.value);
    } else {
      assert lines + [] == lines;
    }
  }

  /** The example line, shown only when examples are included and the example is truthy. */
  function ExampleLine(o: Settings, example: Option<string>): seq<string> {
    if o.includeExamples then LabelLine(ExamplePrefix, example) else []
  }

  /** Emitting an `ExampleLine` appends its text, or nothing. */
  lemma UnlinesExampleLine(lines: seq<string>, o: Settings, example: Option<string>)
    ensures o.includeExamples && Truthy(example) ==> Unlines(lines + ExampleLine(o, example)) == Unlines(lines) + (ExamplePrefix + example.value) + "\n"
    ensures !(o.includeExamples && Truthy(example)) ==> Unlines(lines + ExampleLine(o, example)) == Unlines(lines) && lines + ExampleLine(o, example) == lines
  {
    UnlinesLabelLine(lines, ExamplePrefix, example);
    if !o.includeExamples {
      assert lines + [] == lines;
    }
  }

  // ----- formatSchema: one property ---------------------------------------

  /** The `Required: Yes` line of a property; a property that is not required gets no line. */
  function RequiredLine(required: bool): seq<string> {
    if required then ["  Required: Yes"] else []
  }

  /** The lines of one entry of `schema.properties`; none when a required description is missing. */
  function PropertyLines(o: Settings, name: string, p: Property): seq<string> {
    if o.requireDescription && !Truthy(p.description) then []
    else
      ["- " + name + ":", "  Type: " + OrElse(p.typeTag, "any")]
        + LabelLine("  Description: ", p.description) + RequiredLine(p.required) + ExampleLine(o, p.example)
  }

  /** The `forEach` over `schema.properties`. */
  function PropertiesLines(o: Settings, props: seq<(string, Property)>): seq<string>
    decreases |props|
  {
    if props == [] then []
    else
      var last := props[|props| - 1];
      PropertiesLines(o, props[..|props| - 1]) + PropertyLines(o, last.0, last.1)
  }

  // ----- formatSchema ------------------------------------------------------

  /** The properties section of a schema block, when it declares properties. */
  function SchemaPropertiesLines(o: Settings, s: Schema): seq<string> {
    match s.properties
    case None => []
    case Some(props) => ["", "Properties:"] + PropertiesLines(o, props)
  }

  /** The possible-values line of a schema block, when it declares an enumeration. */
  function SchemaValuesLines(s: Schema): seq<string> {
    match s.enumValues
    case None => []
    case Some(vs) => ["", "Possible Values: " + Join(vs, ", ")]
  }

  /** The lines `formatSchema(schema, name)` writes; none when a required description is missing. */
  function SchemaLines(o: Settings, s: Schema, name: Option<string>): seq<string> {
    if o.requireDescription && !Truthy(s.description) then []
    else
      LabelLine("Schema: ", name) + LabelLine("Type: ", s.typeTag) + LabelLine("Description: ", s.description)
        + SchemaPropertiesLines(o, s) + SchemaValuesLines(s) + [""]
  }

  // ----- formatParameters --------------------------------------------------

  /** The type and example lines of a parameter that has a schema. */
  function ParameterSchemaLines(o: Settings, schema: Option<Schema>): seq<string> {
    match schema
    case None => []
    case Some(sc) => ["  Type: " + Interpolated(sc.typeTag)] + ExampleLine(o, sc.example)
  }

  /** The lines one entry of the parameter list contributes; none when a required description is missing. */
  function ParameterLines(o: Settings, p: Parameter): seq<string> {
    if o.requireDescription && !Truthy(p.description) then []
    else
      var head := "- " + Interpolated(p.name) + " (" + Interpolated(p.location) + "):";
      var description := "  Description: " + OrElse(p.description, "No description");
      var required := "  Required: " + (if p.required then "Yes" else "No");
      [head, description, required] + ParameterSchemaLines(o, p.schema)
  }

  /** The `forEach` over the parameter list. */
  function ParameterListLines(o: Settings, params: seq<Parameter>): seq<string>
    decreases |params|
  {
    if params == [] then []
    else ParameterListLines(o, params[..|params| - 1]) + ParameterLines(o, params[|params| - 1])
  }

  /** The lines `formatParameters(parameters)` writes: nothing for an absent or empty list. */
  function ParametersLines(o: Settings, params: Option<seq<Parameter>>): seq<string> {
    if params.None? || |params.value| == 0 then []
    else ["Parameters:"] + ParameterListLines(o, params.value) + [""]
  }

  // ----- formatEndpoint: request body and responses -------------------------

  /** The request body lines of an operation: a header when JSON content is declared, then its schema. */
  function RequestBodyLines(o: Settings, body: Option<RequestBody>): seq<string> {
    match body
    case None => []
    case Some(b) =>
      match JsonMedia(b.content)
      case None => []
      case Some(media) =>
        ["Request Body:"] + (match media.schema
                             case None => []
                             case Some(schema) => SchemaLines(o, schema, None))
  }

  /** The lines one entry of `responses` contributes. */
  function ResponseLines(o: Settings, code: string, response: Option<Response>): seq<string> {
    match response
    case None => []
    case Some(r) =>
      if o.requireDescription && !Truthy(r.description) then []
      else
        var head := "- " + code + ": " + OrElse(r.description, "No description");
        [head] + (match JsonMedia(r.content)
                  case Some(MediaType(Some(schema))) => SchemaLines(o, schema, None)
                  case _ => [])
  }

  /** The `forEach` over `responses`. */
  function ResponsesLines(o: Settings, responses: seq<(string, Option<Response>)>): seq<string>
    decreases |responses|
  {
    if responses == [] then []
    else
      var last := responses[|responses| - 1];
      ResponsesLines(o, responses[..|responses| - 1]) + ResponseLines(o, last.0, last.1)
  }

  // ----- formatEndpoint: one operation ----------------------------------------

  /** Whether an entry of a path item yields a method block. */
  predicate Shown(o: Settings, details: Option<Operation>) {
    && details.Some?
    && (!o.requireDescription || Truthy(details.value.description))
    && (o.includeDeprecated || !details.value.deprecated)
  }

  /** The parameters of an operation: a blank line, then the parameter block, when the list is present. */
  function OperationParametersLines(o: Settings, op: Operation): seq<string> {
    if op.parameters.Some? then [""] + ParametersLines(o, op.parameters) else []
  }

  /** The responses of an operation: a header, then one entry per response, when responses are present. */
  function OperationResponsesLines(o: Settings, op: Operation): seq<string> {
    match op.responses
    case None => []
    case Some(rs) => ["Responses:"] + ResponsesLines(o, rs)
  }

  /** The lines one entry of a path item contributes: a method block, or nothing. */
  function OperationLines(o: Settings, verb: string, details: Option<Operation>): seq<string> {
    if !Shown(o, details) then []
    else
      var op := details.value;
      ["Method: " + UpperAscii(verb)] + LabelLine("Summary: ", op.summary) + LabelLine("Description: ", op.description)
        + OperationParametersLines(o, op) + RequestBodyLines(o, op.requestBody) + OperationResponsesLines(o, op)
        + ["---", ""]
  }

  /** The `forEach` over the entries of a path item. */
  function MethodsLines(o: Settings, methods: Methods): seq<string>
    decreases |methods|
  {
    if methods == [] then []
    else
      var last := methods[|methods| - 1];
      MethodsLines(o, methods[..|methods| - 1]) + OperationLines(o, last.0, last.1)
  }

  /** The lines `formatEndpoint(path, methods)` writes. */
  function EndpointLines(o: Settings, path: string, methods: Option<Methods>): seq<string> {
    ["Endpoint: " + path, ""] + (match methods
                                 case None => []
                                 case Some(ms) => MethodsLines(o, ms))
  }

  // ----- format ------------------------------------------------------------

  /** The `forEach` over `spec.paths`. */
  function EndpointsLines(o: Settings, paths: seq<(string, Option<Methods>)>): seq<string>
    decreases |paths|
  {
    if paths == [] then []
    else
      var last := paths[|paths| - 1];
      EndpointsLines(o, paths[..|paths| - 1]) + EndpointLines(o, last.0, last.1)
  }

  /** The `forEach` over `components.schemas`; each schema is rendered under its own name. */
  function SchemasLines(o: Settings, schemas: seq<(string, Schema)>): seq<string>
    decreases |schemas|
  {
    if schemas == [] then []
    else
      var last := schemas[|schemas| - 1];
      SchemasLines(o, schemas[..|schemas| - 1]) + SchemaLines(o, last.1, Some(last.0))
  }

  /** The title block of the document. */
  function HeaderLines(info: Info): seq<string> {
    ["API Documentation", "", "Title: " + info.title, "Version: " + info.version]
      + (if Truthy(info.description) then ["", "Description: " + info.description.value] else [])
      + [""]
  }

  /** The schemas section of the document, when it declares component schemas. */
  function SchemasSectionLines(o: Settings, doc: Document): seq<string> {
    match NamedSchemas(doc)
    case None => []
    case Some(schemas) => ["=== Schemas ===", ""] + SchemasLines(o, schemas)
  }

  /** The lines `format(spec)` returns. */
  function DocumentLines(o: Settings, doc: Document): seq<string> {
    HeaderLines(doc.info) + ["=== Endpoints ===", ""] + EndpointsLines(o, doc.paths) + SchemasSectionLines(o, doc)
  }
}
