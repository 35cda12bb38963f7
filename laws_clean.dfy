/**
 * What never appears inside an endpoint or schema block: a section banner
 * (a line starting with `===`), or, when examples are switched off, an
 * example line. From these follow the document-level facts that no
 * example line is ever written with `includeExamples` off, and that the
 * `=== Schemas ===` banner appears exactly when the document declares
 * component schemas.
 */
module CleanLaws {
  import opened Wrappers
  import opened OpenApi
  import opened Options
  import opened Text
  import opened Rendering
  import opened BlockLaws

  predicate IsBanner(line: string) {
    StartsWith(line, "===")
  }

  /** A line that may appear inside a block rendered with options `o`. */
  predicate CleanLine(o: Settings, line: string) {
    !IsBanner(line) && (o.includeExamples || !IsExampleLine(line))
  }

  predicate Clean(o: Settings, lines: seq<string>) {
    forall line | line in lines :: CleanLine(o, line)
  }

  /**
   * A line is clean when it is blank, or its first character is neither `=`
   * nor a space, or it is indented and its label does not start with `E`.
   */
  lemma CleanByLabel(o: Settings, line: string)
    requires line == "" || (line[0] != '=' && (line[0] != ' ' || (|line| > 2 && line[2] != 'E')))
    ensures CleanLine(o, line)
  {
    if line != "" {
      DiffersAt(line, "===", 0);
      if line[0] != ' ' {
        NotExample(line, 0);
      } else {
        NotExample(line, 2);
      }
    }
  }

  lemma LabelLineClean(o: Settings, tag: string, value: Option<string>)
    requires tag != "" && tag[0] != '=' && (tag[0] != ' ' || (|tag| > 2 && tag[2] != 'E'))
    ensures Clean(o, LabelLine(tag, value))
  {
    if Truthy(value) {
      CleanByLabel(o, tag + value.value);
    }
  }

  lemma ExampleLineClean(o: Settings, example: Option<string>)
    ensures Clean(o, ExampleLine(o, example))
  {
    if o.includeExamples && Truthy(example) {
      DiffersAt(ExamplePrefix + example.value, "===", 0);
    }
  }

  lemma PropertyClean(o: Settings, name: string, p: Property)
    ensures Clean(o, PropertyLines(o, name, p))
  {
    if !(o.requireDescription && !Truthy(p.description)) {
      CleanByLabel(o, "- " + name + ":");
      CleanByLabel(o, "  Type: " + OrElse(p.typeTag, "any"));
      LabelLineClean(o, "  Description: ", p.description);
      CleanByLabel(o, "  Required: Yes");
      ExampleLineClean(o, p.example);
    }
  }

  lemma {:induction false} PropertiesClean(o: Settings, props: seq<(string, Property)>)
    ensures Clean(o, PropertiesLines(o, props))
    decreases |props|
  {
    if props != [] {
      var last := props[|props| - 1];
      PropertiesClean(o, props[..|props| - 1]);
      PropertyClean(o, last.0, last.1);
    }
  }

  lemma SchemaPropertiesClean(o: Settings, s: Schema)
    ensures Clean(o, SchemaPropertiesLines(o, s))
  {
    if s.properties.Some? {
      CleanByLabel(o, "Properties:");
      PropertiesClean(o, s.properties.value);
    }
  }

  lemma SchemaValuesClean(o: Settings, s: Schema)
    ensures Clean(o, SchemaValuesLines(s))
  {
    if s.enumValues.Some? {
      CleanByLabel(o, "Possible Values: " + Join(s.enumValues.value, ", "));
    }
  }

  lemma SchemaClean(o: Settings, s: Schema, name: Option<string>)
    ensures Clean(o, SchemaLines(o, s, name))
  {
    if !(o.requireDescription && !Truthy(s.description)) {
      LabelLineClean(o, "Schema: ", name);
      LabelLineClean(o, "Type: ", s.typeTag);
      LabelLineClean(o, "Description: ", s.description);
      SchemaPropertiesClean(o, s);
      SchemaValuesClean(o, s);
    }
  }

  lemma ParameterClean(o: Settings, p: Parameter)
    ensures Clean(o, ParameterLines(o, p))
  {
    if !(o.requireDescription && !Truthy(p.description)) {
      CleanByLabel(o, "- " + Interpolated(p.name) + " (" + Interpolated(p.location) + "):");
      CleanByLabel(o, "  Description: " + OrElse(p.description, "No description"));
      CleanByLabel(o, "  Required: " + (if p.required then "Yes" else "No"));
      if p.schema.Some? {
        CleanByLabel(o, "  Type: " + Interpolated(p.schema.value.typeTag));
        ExampleLineClean(o, p.schema.value.example);
      }
    }
  }

  lemma {:induction false} ParameterListClean(o: Settings, params: seq<Parameter>)
    ensures Clean(o, ParameterListLines(o, params))
    decreases |params|
  {
    if params != [] {
      ParameterListClean(o, params[..|params| - 1]);
      ParameterClean(o, params[|params| - 1]);
    }
  }

  lemma ParametersClean(o: Settings, params: Option<seq<Parameter>>)
    ensures Clean(o, ParametersLines(o, params))
  {
    if !(params.None? || |params.value| == 0) {
      CleanByLabel(o, "Parameters:");
      ParameterListClean(o, params.value);
    }
  }

  lemma RequestBodyClean(o: Settings, body: Option<RequestBody>)
    ensures Clean(o, RequestBodyLines(o, body))
  {
    if body.Some? && JsonMedia(body.value.content).Some? {
      CleanByLabel(o, "Request Body:");
      var schema := JsonMedia(body.value.content).value.schema;
      if schema.Some? {
        SchemaClean(o, schema.value, None);
      }
    }
  }

  lemma ResponseClean(o: Settings, code: string, response: Option<Response>)
    ensures Clean(o, ResponseLines(o, code, response))
  {
    if response.Some? && !(o.requireDescription && !Truthy(response.value.description)) {
      var r := response.value;
      CleanByLabel(o, "- " + code + ": " + OrElse(r.description, "No description"));
      match JsonMedia(r.content)
      case Some(MediaType(Some(schema))) => SchemaClean(o, schema, None);
      case _ =>
    }
  }

  lemma {:induction false} ResponsesClean(o: Settings, responses: seq<(string, Option<Response>)>)
    ensures Clean(o, ResponsesLines(o, responses))
    decreases |responses|
  {
    if responses != [] {
      var last := responses[|responses| - 1];
      ResponsesClean(o, responses[..|responses| - 1]);
      ResponseClean(o, last.0, last.1);
    }
  }

  lemma OperationClean(o: Settings, verb: string, details: Option<Operation>)
    ensures Clean(o, OperationLines(o, verb, details))
  {
    if Shown(o, details) {
      var op := details.value;
      CleanByLabel(o, "Method: " + UpperAscii(verb));
      LabelLineClean(o, "Summary: ", op.summary);
      LabelLineClean(o, "Description: ", op.description);
      ParametersClean(o, op.parameters);
      RequestBodyClean(o, op.requestBody);
      if op.responses.Some? {
        CleanByLabel(o, "Responses:");
        ResponsesClean(o, op.responses.value);
      }
      CleanByLabel(o, "---");
    }
  }

  lemma {:induction false} MethodsClean(o: Settings, methods: Methods)
    ensures Clean(o, MethodsLines(o, methods))
    decreases |methods|
  {
    if methods != [] {
      var last := methods[|methods| - 1];
      MethodsClean(o, methods[..|methods| - 1]);
      OperationClean(o, last.0, last.1);
    }
  }

  lemma EndpointClean(o: Settings, path: string, methods: Option<Methods>)
    ensures Clean(o, EndpointLines(o, path, methods))
  {
    CleanByLabel(o, "Endpoint: " + path);
    if methods.Some? {
      MethodsClean(o, methods.value);
    }
  }

  lemma {:induction false} EndpointsClean(o: Settings, paths: seq<(string, Option<Methods>)>)
    ensures Clean(o, EndpointsLines(o, paths))
    decreases |paths|
  {
    if paths != [] {
      var last := paths[|paths| - 1];
      EndpointsClean(o, paths[..|paths| - 1]);
      EndpointClean(o, last.0, last.1);
    }
  }

  lemma {:induction false} SchemasClean(o: Settings, schemas: seq<(string, Schema)>)
    ensures Clean(o, SchemasLines(o, schemas))
    decreases |schemas|
  {
    if schemas != [] {
      var last := schemas[|schemas| - 1];
      SchemasClean(o, schemas[..|schemas| - 1]);
      SchemaClean(o, last.1, Some(last.0));
    }
  }

  lemma HeaderClean(o: Settings, info: Info)
    ensures Clean(o, HeaderLines(info))
  {
    CleanByLabel(o, "API Documentation");
    CleanByLabel(o, "Title: " + info.title);
    CleanByLabel(o, "Version: " + info.version);
    if Truthy(info.description) {
      CleanByLabel(o, "Description: " + info.description.value);
    }
  }

  /** With examples switched off, clean lines hold no example line. */
  lemma CleanHasNoExample(o: Settings, lines: seq<string>)
    requires !o.includeExamples && Clean(o, lines)
    ensures !HasExampleLine(lines)
  {
  }

  lemma NoExampleConcat(a: seq<string>, b: seq<string>)
    requires !HasExampleLine(a) && !HasExampleLine(b)
    ensures !HasExampleLine(a + b)
  {
  }

  /** With examples switched off, no line of the document is an example line. */
  lemma NoExamplesWhenExcluded(o: Settings, doc: Document)
    requires !o.includeExamples
    ensures !HasExampleLine(DocumentLines(o, doc))
  {
    HeaderClean(o, doc.info);
    CleanHasNoExample(o, HeaderLines(doc.info));
    NotExample("=== Endpoints ===", 0);
    NoExampleConcat(HeaderLines(doc.info), ["=== Endpoints ===", ""]);
    EndpointsClean(o, doc.paths);
    CleanHasNoExample(o, EndpointsLines(o, doc.paths));
    NoExampleConcat(HeaderLines(doc.info) + ["=== Endpoints ===", ""], EndpointsLines(o, doc.paths));
    var section := SchemasSectionLines(o, doc);
    if NamedSchemas(doc).Some? {
      SchemasClean(o, NamedSchemas(doc).value);
      CleanHasNoExample(o, SchemasLines(o, NamedSchemas(doc).value));
      NotExample("=== Schemas ===", 0);
      NoExampleConcat(["=== Schemas ===", ""], SchemasLines(o, NamedSchemas(doc).value));
    }
    NoExampleConcat(HeaderLines(doc.info) + ["=== Endpoints ===", ""] + EndpointsLines(o, doc.paths), section);
  }

  /** The document has the `=== Schemas ===` banner exactly when it declares component schemas. */
  lemma SchemasBanner(o: Settings, doc: Document)
    ensures "=== Schemas ===" in DocumentLines(o, doc) <==> NamedSchemas(doc).Some?
  {
    var banner := "=== Schemas ===";
    var lines := DocumentLines(o, doc);
    assert banner[..3] == "===";
    HeaderClean(o, doc.info);
    EndpointsClean(o, doc.paths);
    assert banner != "=== Endpoints ===" by {
      assert banner[4] != "=== Endpoints ==="[4];
    }
    if NamedSchemas(doc).None? {
      assert lines == HeaderLines(doc.info) + ["=== Endpoints ===", ""] + EndpointsLines(o, doc.paths) + [];
    }
  }

  /** The `=== Endpoints ===` banner is the only banner before the schemas section. */
  lemma EndpointsBanner(o: Settings, doc: Document)
    ensures
      var lines := DocumentLines(o, doc);
      var k := |HeaderLines(doc.info)|;
      && k < |lines| && lines[k] == "=== Endpoints ==="
      && (forall i :: 0 <= i < k + 2 + |EndpointsLines(o, doc.paths)| && i != k ==> !IsBanner(lines[i]))
  {
    var lines := DocumentLines(o, doc);
    var k := |HeaderLines(doc.info)|;
    var endpoints := EndpointsLines(o, doc.paths);
    HeaderClean(o, doc.info);
    EndpointsClean(o, doc.paths);
    forall i | 0 <= i < k + 2 + |endpoints| && i != k
      ensures !IsBanner(lines[i])
    {
      if i < k {
        assert lines[i] == HeaderLines(doc.info)[i];
        assert lines[i] in HeaderLines(doc.info);
      } else if i == k + 1 {
        assert lines[i] == "";
      } else {
        assert lines[i] == endpoints[i - k - 2];
        assert lines[i] in endpoints;
      }
    }
  }
}
