/**
 * Properties of the individual blocks the formatter writes: when a block
 * is left out, how it starts and ends, and which of its lines appear.
 * A line "is an example line" when it carries the `  Example: ` label.
 */
module BlockLaws {
  import opened Wrappers
  import opened OpenApi
  import opened Options
  import opened Text
  import opened Rendering

  predicate IsExampleLine(line: string) {
    StartsWith(line, ExamplePrefix)
  }

  /** Whether some line of `lines` is an example line. */
  predicate HasExampleLine(lines: seq<string>) {
    exists line | line in lines :: IsExampleLine(line)
  }

  /** A line whose label differs from `  Example: ` within the label is not an example line. */
  lemma NotExample(line: string, k: nat)
    requires k < |line| && k < |ExamplePrefix| && line[k] != ExamplePrefix[k]
    ensures !IsExampleLine(line)
  {
    DiffersAt(line, ExamplePrefix, k);
  }

  // ----- properties ----------------------------------------------------------

  /**
   * A property is left out exactly when a description is required and it has
   * none; otherwise its block opens with its name and its type, `any` when
   * the type is missing.
   */
  lemma PropertyShape(o: Settings, name: string, p: Property)
    ensures PropertyLines(o, name, p) == [] <==> o.requireDescription && !Truthy(p.description)
    ensures PropertyLines(o, name, p) != [] ==>
      && |PropertyLines(o, name, p)| >= 2
      && PropertyLines(o, name, p)[0] == "- " + name + ":"
      && PropertyLines(o, name, p)[1] == "  Type: " + (if Truthy(p.typeTag) then p.typeTag.value else "any")
  {
  }

  /** A shown property has the line `  Required: Yes` exactly when it is required. */
  lemma PropertyRequired(o: Settings, name: string, p: Property)
    requires !(o.requireDescription && !Truthy(p.description))
    ensures "  Required: Yes" in PropertyLines(o, name, p) <==> p.required
  {
    var lines := PropertyLines(o, name, p);
    var head := "- " + name + ":";
    var typeLine := "  Type: " + OrElse(p.typeTag, "any");
    assert lines == [head, typeLine] + LabelLine("  Description: ", p.description) + RequiredLine(p.required) + ExampleLine(o, p.example);
    assert head[0] == '-';
    assert typeLine[2] == 'T';
    if Truthy(p.description) {
      assert ("  Description: " + p.description.value)[2] == 'D';
    }
    if Truthy(p.example) {
      assert (ExamplePrefix + p.example.value)[2] == 'E';
    }
  }

  /** A shown property has an example line exactly when examples are included and it has a truthy example. */
  lemma PropertyExample(o: Settings, name: string, p: Property)
    requires !(o.requireDescription && !Truthy(p.description))
    ensures HasExampleLine(PropertyLines(o, name, p)) <==> o.includeExamples && Truthy(p.example)
  {
    var lines := PropertyLines(o, name, p);
    var head := "- " + name + ":";
    var typeLine := "  Type: " + OrElse(p.typeTag, "any");
    assert lines == [head, typeLine] + LabelLine("  Description: ", p.description) + RequiredLine(p.required) + ExampleLine(o, p.example);
    if o.includeExamples && Truthy(p.example) {
      var line := ExamplePrefix + p.example.value;
      assert line in lines;
      assert line[..|ExamplePrefix|] == ExamplePrefix;
    } else {
      assert ExampleLine(o, p.example) == [];
      NotExample(head, 0);
      NotExample(typeLine, 2);
      if Truthy(p.description) {
        NotExample("  Description: " + p.description.value, 2);
      }
      NotExample("  Required: Yes", 2);
    }
  }

  // ----- schemas ---------------------------------------------------------------

  /**
   * A schema block is empty exactly when a description is required and the
   * schema has none; otherwise it ends with a blank line, so that its text
   * ends in "\n".
   */
  lemma SchemaShape(o: Settings, s: Schema, name: Option<string>)
    ensures SchemaLines(o, s, name) == [] <==> o.requireDescription && !Truthy(s.description)
    ensures Unlines(SchemaLines(o, s, name)) == "" <==> o.requireDescription && !Truthy(s.description)
    ensures SchemaLines(o, s, name) != [] ==>
      && SchemaLines(o, s, name)[|SchemaLines(o, s, name)| - 1] == ""
      && EndsWith(Unlines(SchemaLines(o, s, name)), "\n")
  {
    var lines := SchemaLines(o, s, name);
    UnlinesShape(lines);
    if lines != [] {
      var text := Unlines(lines);
      assert text[|text| - 1..] == "\n";
    }
  }

  /** Naming a schema adds the line `Schema: <name>` in front of its block, when the name is truthy, and nothing else. */
  lemma SchemaNamed(o: Settings, s: Schema, name: Option<string>)
    requires !(o.requireDescription && !Truthy(s.description))
    ensures SchemaLines(o, s, name) == LabelLine("Schema: ", name) + SchemaLines(o, s, None)
  {
    var a := LabelLine("Type: ", s.typeTag);
    var b := LabelLine("Description: ", s.description);
    var c := SchemaPropertiesLines(o, s);
    var d := SchemaValuesLines(s);
    var rest := a + b + c + d + [""];
    AssocChain(LabelLine("Schema: ", name), a, b, c, d);
    Assoc(LabelLine("Schema: ", name), a + b + c + d, [""]);
    AssocChain(LabelLine("Schema: ", None), a, b, c, d);
    Assoc(LabelLine("Schema: ", None), a + b + c + d, [""]);
    assert LabelLine("Schema: ", None) + rest == rest;
  }

  /** The text of a shown schema block starts with `Schema: <name>` and a newline when the name is truthy. */
  lemma SchemaTextNamed(o: Settings, s: Schema, name: Option<string>)
    requires !(o.requireDescription && !Truthy(s.description)) && Truthy(name)
    ensures StartsWith(Unlines(SchemaLines(o, s, name)), "Schema: " + name.value + "\n")
  {
    var head := "Schema: " + name.value;
    SchemaNamed(o, s, name);
    UnlinesCons(head, SchemaLines(o, s, None));
    var text := Unlines(SchemaLines(o, s, name));
    assert text == head + "\n" + Unlines(SchemaLines(o, s, None));
    assert text[..|head + "\n"|] == head + "\n";
  }

  /** An unnamed schema block opens with its `Type:` line, else its `Description:` line, else a blank line. */
  lemma SchemaFirstLine(o: Settings, s: Schema)
    requires !(o.requireDescription && !Truthy(s.description))
    ensures SchemaLines(o, s, None) != []
    ensures SchemaLines(o, s, None)[0]
      == (if Truthy(s.typeTag) then "Type: " + s.typeTag.value
          else if Truthy(s.description) then "Description: " + s.description.value
          else "")
  {
    var lines := SchemaLines(o, s, None);
    if Truthy(s.typeTag) {
      assert lines[0] == "Type: " + s.typeTag.value;
    } else if Truthy(s.description) {
      assert lines[0] == "Description: " + s.description.value;
    } else {
      assert lines == [] + [] + [] + SchemaPropertiesLines(o, s) + SchemaValuesLines(s) + [""];
    }
  }

  /** Without a truthy name, the text of a schema block never starts with `Schema: `. */
  lemma SchemaTextUnnamed(o: Settings, s: Schema, name: Option<string>)
    requires !Truthy(name)
    ensures !StartsWith(Unlines(SchemaLines(o, s, name)), "Schema: ")
  {
    if !(o.requireDescription && !Truthy(s.description)) {
      SchemaNamed(o, s, name);
      var lines := SchemaLines(o, s, None);
      assert SchemaLines(o, s, name) == lines;
      SchemaFirstLine(o, s);
      if Truthy(s.typeTag) {
        assert lines[0][0] == 'T';
      } else if Truthy(s.description) {
        assert lines[0][0] == 'D';
      }
      UnlinesFirstChar(lines);
      DiffersAt(Unlines(lines), "Schema: ", 0);
    }
  }

  // ----- parameters --------------------------------------------------------------

  /**
   * A parameter is left out exactly when a description is required and it
   * has none; otherwise it shows its name and location, its description or
   * `No description`, and `Yes` or `No` for whether it is required.
   */
  lemma ParameterShape(o: Settings, p: Parameter)
    ensures ParameterLines(o, p) == [] <==> o.requireDescription && !Truthy(p.description)
    ensures ParameterLines(o, p) != [] ==>
      && |ParameterLines(o, p)| >= 3
      && ParameterLines(o, p)[0] == "- " + Interpolated(p.name) + " (" + Interpolated(p.location) + "):"
      && ParameterLines(o, p)[1] == "  Description: " + (if Truthy(p.description) then p.description.value else "No description")
      && ParameterLines(o, p)[2] == "  Required: " + (if p.required then "Yes" else "No")
  {
  }

  /**
   * A shown parameter has an example line exactly when examples are
   * included and it has a schema with a truthy example.
   */
  lemma ParameterExample(o: Settings, p: Parameter)
    requires !(o.requireDescription && !Truthy(p.description))
    ensures HasExampleLine(ParameterLines(o, p)) <==> o.includeExamples && p.schema.Some? && Truthy(p.schema.value.example)
  {
    var lines := ParameterLines(o, p);
    var head := "- " + Interpolated(p.name) + " (" + Interpolated(p.location) + "):";
    var description := "  Description: " + OrElse(p.description, "No description");
    var required := "  Required: " + (if p.required then "Yes" else "No");
    assert lines == [head, description, required] + ParameterSchemaLines(o, p.schema);
    if o.includeExamples && p.schema.Some? && Truthy(p.schema.value.example) {
      var line := ExamplePrefix + p.schema.value.example.value;
      assert line in lines;
      assert line[..|ExamplePrefix|] == ExamplePrefix;
    } else {
      NotExample(head, 0);
      NotExample(description, 2);
      NotExample(required, 2);
      if p.schema.Some? {
        assert ExampleLine(o, p.schema.value.example) == [];
        NotExample("  Type: " + Interpolated(p.schema.value.typeTag), 2);
      }
    }
  }

  /** The text of a non-empty parameter block starts with `Parameters:` and a newline. */
  lemma ParametersTextStart(o: Settings, params: seq<Parameter>)
    requires |params| > 0
    ensures StartsWith(Unlines(ParametersLines(o, Some(params))), "Parameters:" + "\n")
  {
    var body := ParameterListLines(o, params);
    Assoc(["Parameters:"], body, [""]);
    UnlinesCons("Parameters:", body + [""]);
    PrefixOf("Parameters:" + "\n", Unlines(body + [""]));
  }

  /** The text of a non-empty parameter block ends with a blank line. */
  lemma ParametersTextEnd(o: Settings, params: seq<Parameter>)
    requires |params| > 0
    ensures EndsWith(Unlines(ParametersLines(o, Some(params))), "\n" + "\n")
  {
    var init := ["Parameters:"] + ParameterListLines(o, params);
    UnlinesBlank(init);
    UnlinesShape(init);
    var s := Unlines(init);
    assert s[|s| - 1..] == "\n";
    SecondNewline(s);
  }

  /**
   * The parameter block is empty exactly when the list is absent or empty;
   * otherwise its text starts with `Parameters:` and a newline and ends
   * with a blank line.
   */
  lemma ParametersText(o: Settings, params: Option<seq<Parameter>>)
    ensures Unlines(ParametersLines(o, params)) == "" <==> params.None? || |params.value| == 0
    ensures !(params.None? || |params.value| == 0) ==>
      && StartsWith(Unlines(ParametersLines(o, params)), "Parameters:" + "\n")
      && EndsWith(Unlines(ParametersLines(o, params)), "\n" + "\n")
  {
    UnlinesShape(ParametersLines(o, params));
    if !(params.None? || |params.value| == 0) {
      ParametersTextStart(o, params.value);
      ParametersTextEnd(o, params.value);
    }
  }

  // ----- request bodies and responses ----------------------------------------------------

  /**
   * An operation shows `Request Body:` exactly when its request body has
   * JSON content, followed by the schema of that content when it has one.
   */
  lemma RequestBodyShape(o: Settings, body: Option<RequestBody>)
    ensures RequestBodyLines(o, body) != [] <==> body.Some? && JsonMedia(body.value.content).Some?
    ensures RequestBodyLines(o, body) != [] ==>
      && RequestBodyLines(o, body)[0] == "Request Body:"
      && RequestBodyLines(o, body)[1..] == (match JsonMedia(body.value.content).value.schema
                                           case None => []
                                           case Some(schema) => SchemaLines(o, schema, None))
  {
  }

  /**
   * A response entry is left out when it is null, or when a description is
   * required and it has none; otherwise it shows its code and its
   * description or `No description`, then the schema of its JSON content.
   */
  lemma ResponseShape(o: Settings, code: string, response: Option<Response>)
    ensures ResponseLines(o, code, response) == [] <==>
      response.None? || (o.requireDescription && !Truthy(response.value.description))
    ensures ResponseLines(o, code, response) != [] ==>
      ResponseLines(o, code, response)[0]
        == "- " + code + ": " + (if Truthy(response.value.description) then response.value.description.value else "No description")
  {
  }

  // ----- operations and endpoints ----------------------------------------------------------

  /**
   * An entry of a path item yields a method block exactly when it is an
   * operation that passes the description and deprecation filters; the
   * block opens with the upper-cased method and ends with `---` and a blank
   * line.
   */
  lemma OperationShape(o: Settings, verb: string, details: Option<Operation>)
    ensures OperationLines(o, verb, details) != [] <==> Shown(o, details)
    ensures Shown(o, details) ==>
      var lines := OperationLines(o, verb, details);
      && |lines| >= 3
      && lines[0] == "Method: " + UpperAscii(verb)
      && lines[|lines| - 2] == "---" && lines[|lines| - 1] == ""
  {
  }

  /** The text of a method block starts with its `Method:` line and ends with `---` and a blank line. */
  lemma OperationText(o: Settings, verb: string, details: Option<Operation>)
    requires Shown(o, details)
    ensures StartsWith(Unlines(OperationLines(o, verb, details)), "Method: " + UpperAscii(verb) + "\n")
    ensures EndsWith(Unlines(OperationLines(o, verb, details)), "---" + "\n" + "\n")
  {
    var lines := OperationLines(o, verb, details);
    var text := Unlines(lines);
    var head := "Method: " + UpperAscii(verb);
    OperationShape(o, verb, details);
    UnlinesCons(head, lines[1..]);
    assert [head] + lines[1..] == lines;
    assert text[..|head + "\n"|] == head + "\n";
    var init := lines[..|lines| - 2];
    assert init + ["---", ""] == lines;
    UnlinesThenBlank(init, "---");
    assert text[|text| - 5..] == "---" + "\n" + "\n";
  }

  /**
   * The text of an endpoint is `Endpoint: <path>`, a blank line, and then
   * the method blocks of its path item; a path without a path item is only
   * that heading.
   */
  lemma EndpointText(o: Settings, path: string, methods: Option<Methods>)
    ensures Unlines(EndpointLines(o, path, methods))
      == "Endpoint: " + path + "\n" + "\n" + (if methods.None? then "" else Unlines(MethodsLines(o, methods.value)))
  {
    var body := if methods.None? then [] else MethodsLines(o, methods.value);
    assert EndpointLines(o, path, methods) == ["Endpoint: " + path, ""] + body;
    UnlinesLineBlank("Endpoint: " + path, body);
  }
}
