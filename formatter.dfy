/**
 * The class `OpenAPILLMFormatter` of src/formatter.ts: options resolved once
 * at construction, and renderers that build their output string step by
 * step. Each renderer is proved to return the text of the lines that the
 * matching function of `Rendering` specifies; a `forEach` callback of the
 * source is a method of its own here, called once per element in order.
 */
module Formatter {
  import opened Wrappers
  import opened OpenApi
  import opened Options
  import opened Text
  import opened Rendering

  class OpenApiLlmFormatter {
    /** The options merged with the defaults; never changed after construction. */
    const options: Settings

    /** Explicitly supplied options win; every other option takes its default. */
    constructor (supplied: FormatterOptions)
      ensures options == Resolve(supplied)
    {
      options := Resolve(supplied);
    }

    // ----- formatSchema ------------------------------------------------------

    /** The callback `formatSchema` runs for each entry of `schema.properties`. */
    method FormatProperty(propName: string, prop: Property) returns (output: string)
      ensures output == Unlines(PropertyLines(options, propName, prop))
    {
      if options.requireDescription && !Truthy(prop.description) {
        return "";
      }
      var nameLine := "- " + propName + ":";
      var typeLine := "  Type: " + OrElse(prop.typeTag, "any");
      output := nameLine + "\n" + typeLine + "\n";
      ghost var lines := [nameLine, typeLine];
      assert output == Unlines(lines) by {
        UnlinesSnoc([], nameLine);
        UnlinesSnoc([nameLine], typeLine);
        assert [] + [nameLine] == [nameLine] && [nameLine] + [typeLine] == lines;
      }
      if Truthy(prop.description) {
        var line := "  Description: " + prop.description.value;
        output := output + line + "\n";
      }
      UnlinesLabelLine(lines, "  Description: ", prop.description);
      lines := lines + LabelLine("  Description: ", prop.description);
      if prop.required {
        var line := "  Required: Yes";
        output := output + line + "\n";
        UnlinesSnoc(lines, line);
      } else {
        assert lines + RequiredLine(prop.required) == lines;
      }
      lines := lines + RequiredLine(prop.required);
      if options.includeExamples && Truthy(prop.example) {
        var line := ExamplePrefix + prop.example.value;
        output := output + line + "\n";
      }
      UnlinesExampleLine(lines, options, prop.example);
      lines := lines + ExampleLine(options, prop.example);
    }

    /** The `forEach` of `formatSchema` over `schema.properties`, in input order. */
    method FormatProperties(props: seq<(string, Property)>) returns (output: string)
      ensures output == Unlines(PropertiesLines(options, props))
    {
      output := "";
      var i := 0;
      while i < |props|
        invariant 0 <= i <= |props|
        invariant output == Unlines(PropertiesLines(options, props[..i]))
      {
        var (propName, prop) := props[i];
        var text := FormatProperty(propName, prop);
        assert props[..i + 1][..i] == props[..i] && props[..i + 1][i] == props[i];
        UnlinesAppend(PropertiesLines(options, props[..i]), PropertyLines(options, propName, prop));
        output := output + text;
        i := i + 1;
      }
      assert props[..i] == props;
    }

    /** The properties section of `formatSchema`: a header, then one entry per property, when properties are declared. */
    method FormatPropertiesSection(schema: Schema) returns (output: string)
      ensures output == Unlines(SchemaPropertiesLines(options, schema))
    {
      if schema.properties.None? {
        return "";
      }
      output := "\n" + "Properties:" + "\n";
      var text := FormatProperties(schema.properties.value);
      UnlinesBlankThen([], "Properties:");
      UnlinesAppend3([], ["", "Properties:"], PropertiesLines(options, schema.properties.value));
      assert [] + (["", "Properties:"] + PropertiesLines(options, schema.properties.value)) == SchemaPropertiesLines(options, schema);
      output := output + text;
    }

    /** Renders a schema, under a name when one is given. */
    method FormatSchema(schema: Schema, name: Option<string>) returns (output: string)
      ensures output == Unlines(SchemaLines(options, schema, name))
    {
      if options.requireDescription && !Truthy(schema.description) {
        return "";
      }
      output := "";
      if Truthy(name) {
        var line := "Schema: " + name.value;
        output := output + line + "\n";
      }
      UnlinesLabelLine([], "Schema: ", name);
      assert [] + LabelLine("Schema: ", name) == LabelLine("Schema: ", name);
      ghost var lines := LabelLine("Schema: ", name);
      if Truthy(schema.typeTag) {
        var line := "Type: " + schema.typeTag.value;
        output := output + line + "\n";
      }
      UnlinesLabelLine(lines, "Type: ", schema.typeTag);
      lines := lines + LabelLine("Type: ", schema.typeTag);
      if Truthy(schema.description) {
        var line := "Description: " + schema.description.value;
        output := output + line + "\n";
      }
      UnlinesLabelLine(lines, "Description: ", schema.description);
      lines := lines + LabelLine("Description: ", schema.description);

      var section := FormatPropertiesSection(schema);
      UnlinesAppend(lines, SchemaPropertiesLines(options, schema));
      output := output + section;
      lines := lines + SchemaPropertiesLines(options, schema);

      if schema.enumValues.Some? {
        var line := "Possible Values: " + Join(schema.enumValues.value, ", ");
        output := output + "\n" + line + "\n";
        UnlinesBlankThen(lines, line);
      } else {
        assert lines + SchemaValuesLines(schema) == lines;
      }
      lines := lines + SchemaValuesLines(schema);

      UnlinesBlank(lines);
      output := output + "\n";
      lines := lines + [""];
      assert SchemaLines(options, schema, name) == lines;
    }

    // ----- formatParameters --------------------------------------------------

    /** The callback `formatParameters` runs for each parameter. */
    method FormatParameter(param: Parameter) returns (output: string)
      ensures output == Unlines(ParameterLines(options, param))
    {
      if options.requireDescription && !Truthy(param.description) {
        return "";
      }
      var head := "- " + Interpolated(param.name) + " (" + Interpolated(param.location) + "):";
      var description := "  Description: " + OrElse(param.description, "No description");
      var required := "  Required: " + (if param.required then "Yes" else "No");
      output := "";
      ghost var lines: seq<string> := [];
      UnlinesSnoc(lines, head);
      output, lines := output + head + "\n", lines + [head];
      UnlinesSnoc(lines, description);
      output, lines := output + description + "\n", lines + [description];
      UnlinesSnoc(lines, required);
      output, lines := output + required + "\n", lines + [required];
      assert lines == [head, description, required];
      if param.schema.Some? {
        var schema := param.schema.value;
        var typeLine := "  Type: " + Interpolated(schema.typeTag);
        UnlinesSnoc(lines, typeLine);
        output := output + typeLine + "\n";
        UnlinesExampleLine(lines + [typeLine], options, schema.example);
        if options.includeExamples && Truthy(schema.example) {
          var line := ExamplePrefix + schema.example.value;
          output := output + line + "\n";
        }
        Assoc(lines, [typeLine], ExampleLine(options, schema.example));
      } else {
        assert lines + ParameterSchemaLines(options, param.schema) == lines;
      }
      lines := lines + ParameterSchemaLines(options, param.schema);
    }

    /** Renders a parameter list; nothing at all when the list is absent or empty. */
    method FormatParameters(parameters: Option<seq<Parameter>>) returns (output: string)
      ensures output == Unlines(ParametersLines(options, parameters))
    {
      if parameters.None? || |parameters.value| == 0 {
        return "";
      }
      var params := parameters.value;
      output := "Parameters:" + "\n";
      UnlinesSnoc([], "Parameters:");
      assert ["Parameters:"] + ParameterListLines(options, params[..0]) == [] + ["Parameters:"];
      var i := 0;
      while i < |params|
        invariant 0 <= i <= |params|
        invariant output == Unlines(["Parameters:"] + ParameterListLines(options, params[..i]))
      {
        var text := FormatParameter(params[i]);
        ghost var before := ParameterListLines(options, params[..i]);
        ghost var next := ParameterLines(options, params[i]);
        assert params[..i + 1][..i] == params[..i];
        assert ParameterListLines(options, params[..i + 1]) == before + next;
        UnlinesAppend(["Parameters:"] + before, next);
        Assoc(["Parameters:"], before, next);
        output := output + text;
        i := i + 1;
      }
      assert params[..i] == params;
      UnlinesBlank(["Parameters:"] + ParameterListLines(options, params));
      output := output + "\n";
    }

    // ----- formatEndpoint ------------------------------------------------------

    /** The callback of the `forEach` over `details.responses`. */
    method FormatResponse(code: string, response: Option<Response>) returns (output: string)
      ensures output == Unlines(ResponseLines(options, code, response))
    {
      if response.None? {
        return "";
      }
      var r := response.value;
      if options.requireDescription && !Truthy(r.description) {
        return "";
      }
      var line := "- " + code + ": " + OrElse(r.description, "No description");
      output := line + "\n";
      assert output == Unlines([line]) by {
        UnlinesSnoc([], line);
        assert [] + [line] == [line];
      }
      var media := JsonMedia(r.content);
      if media.Some? && media.value.schema.Some? {
        var text := FormatSchema(media.value.schema.value, None);
        UnlinesAppend([line], SchemaLines(options, media.value.schema.value, None));
        output := output + text;
      } else {
        assert [line] + [] == [line];
      }
    }

    /** The `forEach` over `details.responses`, in input order. */
    method FormatResponses(responses: seq<(string, Option<Response>)>) returns (output: string)
      ensures output == Unlines(ResponsesLines(options, responses))
    {
      output := "";
      var i := 0;
      while i < |responses|
        invariant 0 <= i <= |responses|
        invariant output == Unlines(ResponsesLines(options, responses[..i]))
      {
        var (code, response) := responses[i];
        var text := FormatResponse(code, response);
        assert responses[..i + 1][..i] == responses[..i] && responses[..i + 1][i] == responses[i];
        UnlinesAppend(ResponsesLines(options, responses[..i]), ResponseLines(options, code, response));
        output := output + text;
        i := i + 1;
      }
      assert responses[..i] == responses;
    }

    /** The parameters section of `formatEndpoint`: a blank line and the parameter block, when the list is present. */
    method FormatParametersSection(op: Operation) returns (output: string)
      ensures output == Unlines(OperationParametersLines(options, op))
    {
      if op.parameters.None? {
        return "";
      }
      var text := FormatParameters(op.parameters);
      output := "\n" + text;
      UnlinesCons("", ParametersLines(options, op.parameters));
      assert "" + "\n" == "\n";
    }

    /** The request body section of `formatEndpoint`: a header when JSON content is declared, then its schema. */
    method FormatRequestBody(body: Option<RequestBody>) returns (output: string)
      ensures output == Unlines(RequestBodyLines(options, body))
    {
      if body.None? || JsonMedia(body.value.content).None? {
        return "";
      }
      output := "Request Body:" + "\n";
      assert output == Unlines(["Request Body:"]) by {
        UnlinesSnoc([], "Request Body:");
        assert [] + ["Request Body:"] == ["Request Body:"];
      }
      var content := JsonMedia(body.value.content).value;
      if content.schema.Some? {
        var text := FormatSchema(content.schema.value, None);
        UnlinesAppend(["Request Body:"], SchemaLines(options, content.schema.value, None));
        output := output + text;
      } else {
        assert ["Request Body:"] + [] == ["Request Body:"];
      }
    }

    /** The responses section of `formatEndpoint`: a header and one entry per response, when responses are present. */
    method FormatResponsesSection(op: Operation) returns (output: string)
      ensures output == Unlines(OperationResponsesLines(options, op))
    {
      if op.responses.None? {
        return "";
      }
      output := "Responses:" + "\n";
      var text := FormatResponses(op.responses.value);
      UnlinesSnoc([], "Responses:");
      UnlinesAppend3([], ["Responses:"], ResponsesLines(options, op.responses.value));
      assert [] + (["Responses:"] + ResponsesLines(options, op.responses.value)) == OperationResponsesLines(options, op);
      assert [] + ["Responses:"] == ["Responses:"];
      output := output + text;
    }

    /** The callback of the `forEach` over the entries of a path item: one method block, or nothing. */
    method FormatOperation(verb: string, details: Option<Operation>) returns (output: string)
      ensures output == Unlines(OperationLines(options, verb, details))
    {
      if details.None? {
        return "";
      }
      var op := details.value;
      if options.requireDescription && !Truthy(op.description) {
        return "";
      }
      if !options.includeDeprecated && op.deprecated {
        return "";
      }
      var methodLine := "Method: " + UpperAscii(verb);
      output := methodLine + "\n";
      ghost var lines := [methodLine];
      assert output == Unlines(lines) by {
        UnlinesSnoc([], methodLine);
        assert [] + [methodLine] == lines;
      }
      if Truthy(op.summary) {
        var line := "Summary: " + op.summary.value;
        output := output + line + "\n";
      }
      UnlinesLabelLine(lines, "Summary: ", op.summary);
      lines := lines + LabelLine("Summary: ", op.summary);
      if Truthy(op.description) {
        var line := "Description: " + op.description.value;
        output := output + line + "\n";
      }
      UnlinesLabelLine(lines, "Description: ", op.description);
      lines := lines + LabelLine("Description: ", op.description);

      var parameters := FormatParametersSection(op);
      UnlinesAppend(lines, OperationParametersLines(options, op));
      output := output + parameters;
      lines := lines + OperationParametersLines(options, op);

      var request := FormatRequestBody(op.requestBody);
      UnlinesAppend(lines, RequestBodyLines(options, op.requestBody));
      output := output + request;
      lines := lines + RequestBodyLines(options, op.requestBody);

      var responses := FormatResponsesSection(op);
      UnlinesAppend(lines, OperationResponsesLines(options, op));
      output := output + responses;
      lines := lines + OperationResponsesLines(options, op);

      output := output + "---" + "\n" + "\n";
      UnlinesThenBlank(lines, "---");
    }

    /** The `forEach` of `formatEndpoint` over the entries of a path item, in input order. */
    method FormatMethods(entries: Methods) returns (output: string)
      ensures output == Unlines(MethodsLines(options, entries))
    {
      output := "";
      var i := 0;
      while i < |entries|
        invariant 0 <= i <= |entries|
        invariant output == Unlines(MethodsLines(options, entries[..i]))
      {
        var (verb, details) := entries[i];
        var text := FormatOperation(verb, details);
        assert entries[..i + 1][..i] == entries[..i] && entries[..i + 1][i] == entries[i];
        UnlinesAppend(MethodsLines(options, entries[..i]), OperationLines(options, verb, details));
        output := output + text;
        i := i + 1;
      }
      assert entries[..i] == entries;
    }

    /** Renders one path and, when it has a path item, the method block of each of its entries. */
    method FormatEndpoint(path: string, methods: Option<Methods>) returns (output: string)
      ensures output == Unlines(EndpointLines(options, path, methods))
    {
      var line := "Endpoint: " + path;
      output := line + "\n" + "\n";
      ghost var head := [line, ""];
      assert output == Unlines(head) by {
        UnlinesThenBlank([], line);
        assert [] + [line, ""] == head;
      }
      if methods.None? {
        assert head + [] == head;
        return;
      }
      var text := FormatMethods(methods.value);
      UnlinesAppend(head, MethodsLines(options, methods.value));
      output := output + text;
    }

    // ----- format ------------------------------------------------------------

    /** The title block of `format`: title, version and, when truthy, the description. */
    method FormatHeader(info: Info) returns (output: string)
      ensures output == Unlines(HeaderLines(info))
    {
      output := "API Documentation" + "\n" + "\n";
      ghost var lines := ["API Documentation", ""];
      assert output == Unlines(lines) by {
        UnlinesThenBlank([], "API Documentation");
        assert [] + ["API Documentation", ""] == lines;
      }
      var line := "Title: " + info.title;
      UnlinesSnoc(lines, line);
      output, lines := output + line + "\n", lines + [line];
      line := "Version: " + info.version;
      UnlinesSnoc(lines, line);
      output, lines := output + line + "\n", lines + [line];
      assert lines == ["API Documentation", "", "Title: " + info.title, "Version: " + info.version];
      if Truthy(info.description) {
        line := "Description: " + info.description.value;
        UnlinesBlankThen(lines, line);
        output := output + "\n" + line + "\n";
      } else {
        assert lines + [] == lines;
      }
      lines := lines + (if Truthy(info.description) then ["", "Description: " + info.description.value] else []);
      UnlinesBlank(lines);
      output := output + "\n";
    }

    /** The `forEach` of `format` over `spec.paths`, in input order. */
    method FormatEndpoints(paths: seq<(string, Option<Methods>)>) returns (output: string)
      ensures output == Unlines(EndpointsLines(options, paths))
    {
      output := "";
      var i := 0;
      while i < |paths|
        invariant 0 <= i <= |paths|
        invariant output == Unlines(EndpointsLines(options, paths[..i]))
      {
        var (path, methods) := paths[i];
        var text := FormatEndpoint(path, methods);
        assert paths[..i + 1][..i] == paths[..i] && paths[..i + 1][i] == paths[i];
        UnlinesAppend(EndpointsLines(options, paths[..i]), EndpointLines(options, path, methods));
        output := output + text;
        i := i + 1;
      }
      assert paths[..i] == paths;
    }

    /** The `forEach` of `format` over `spec.components.schemas`, in input order, each under its name. */
    method FormatSchemas(schemas: seq<(string, Schema)>) returns (output: string)
      ensures output == Unlines(SchemasLines(options, schemas))
    {
      output := "";
      var i := 0;
      while i < |schemas|
        invariant 0 <= i <= |schemas|
        invariant output == Unlines(SchemasLines(options, schemas[..i]))
      {
        var (name, schema) := schemas[i];
        var text := FormatSchema(schema, Some(name));
        assert schemas[..i + 1][..i] == schemas[..i] && schemas[..i + 1][i] == schemas[i];
        UnlinesAppend(SchemasLines(options, schemas[..i]), SchemaLines(options, schema, Some(name)));
        output := output + text;
        i := i + 1;
      }
      assert schemas[..i] == schemas;
    }

    /** Renders a whole document: title block, every path in order, then every named schema in order. */
    method Format(doc: Document) returns (output: string)
      ensures output == Unlines(DocumentLines(options, doc))
    {
      output := FormatHeader(doc.info);
      ghost var lines := HeaderLines(doc.info);
      output := output + "=== Endpoints ===" + "\n" + "\n";
      UnlinesThenBlank(lines, "=== Endpoints ===");
      lines := lines + ["=== Endpoints ===", ""];
      var endpoints := FormatEndpoints(doc.paths);
      UnlinesAppend(lines, EndpointsLines(options, doc.paths));
      output := output + endpoints;
      lines := lines + EndpointsLines(options, doc.paths);
      if doc.components.Some? && doc.components.value.schemas.Some? {
        var schemas := doc.components.value.schemas.value;
        output := output + "=== Schemas ===" + "\n" + "\n";
        UnlinesThenBlank(lines, "=== Schemas ===");
        var text := FormatSchemas(schemas);
        UnlinesAppend3(lines, ["=== Schemas ===", ""], SchemasLines(options, schemas));
        output := output + text;
      } else {
        assert lines + SchemasSectionLines(options, doc) == lines;
      }
    }
  }
}
