/**
 * Properties of the whole document: its opening lines, the order of
 * endpoints and schemas, the options that do not change the output, and
 * the effect of `includeDeprecated`.
 */
module DocumentLaws {
  import opened Wrappers
  import opened OpenApi
  import opened Options
  import opened Text
  import opened Rendering

  // ----- the opening of the document ----------------------------------------------

  /** The four lines every document opens with. */
  function TitleLines(info: Info): seq<string> {
    ["API Documentation", "", "Title: " + info.title, "Version: " + info.version]
  }

  /** The text of the opening lines. */
  lemma TitleText(info: Info)
    ensures Unlines(TitleLines(info))
      == "API Documentation" + "\n" + "\n" + ("Title: " + info.title) + "\n" + ("Version: " + info.version) + "\n"
  {
    var heading := "API Documentation";
    var title := "Title: " + info.title;
    var version := "Version: " + info.version;
    UnlinesSnoc([], heading);
    assert [] + [heading] == [heading];
    UnlinesSnoc([heading], "");
    assert [heading] + [""] == [heading, ""];
    UnlinesSnoc([heading, ""], title);
    assert [heading, ""] + [title] == [heading, "", title];
    UnlinesSnoc([heading, "", title], version);
    assert [heading, "", title] + [version] == TitleLines(info);
    assert "" + heading == heading;
    assert heading + "\n" + "" == heading + "\n";
  }

  /** The header block is the opening lines, then the description (when truthy) and a blank line. */
  lemma HeaderSplit(info: Info)
    ensures HeaderLines(info) == TitleLines(info) + ((if Truthy(info.description) then ["", "Description: " + info.description.value] else []) + [""])
  {
    Assoc(TitleLines(info), if Truthy(info.description) then ["", "Description: " + info.description.value] else [], [""]);
  }

  /**
   * The document's text opens with the heading, a blank line, the title and
   * the version; the `=== Endpoints ===` banner follows the header block.
   */
  lemma DocumentOpening(o: Settings, doc: Document)
    ensures StartsWith(Unlines(DocumentLines(o, doc)),
                       "API Documentation" + "\n" + "\n" + ("Title: " + doc.info.title) + "\n" + ("Version: " + doc.info.version) + "\n")
    ensures DocumentLines(o, doc)[..4] == TitleLines(doc.info)
    ensures DocumentLines(o, doc)[|HeaderLines(doc.info)|] == "=== Endpoints ==="
  {
    var info := doc.info;
    var more := (if Truthy(info.description) then ["", "Description: " + info.description.value] else []) + [""];
    var banner := ["=== Endpoints ===", ""];
    var endpoints := EndpointsLines(o, doc.paths);
    var schemas := SchemasSectionLines(o, doc);
    HeaderSplit(info);
    AssocChain(TitleLines(info), more, banner, endpoints, schemas);
    var rest := more + banner + endpoints + schemas;
    assert DocumentLines(o, doc) == TitleLines(info) + rest;
    UnlinesPrefix(TitleLines(info), rest);
    TitleText(info);
    assert (TitleLines(info) + rest)[..4] == TitleLines(info);
  }

  // ----- endpoints in input order ----------------------------------------------------

  /**
   * A rendering of a list that renders each element after the elements
   * before it, as every `forEach` of the formatter does.
   */
  ghost predicate Snocs<T(!new)>(render: seq<T> -> seq<string>) {
    && render([]) == []
    && forall xs: seq<T>, x: T :: render(xs + [x]) == render(xs) + render([x])
  }

  /** Such a rendering of two runs one after the other is the two renderings one after the other. */
  lemma {:induction false} AppendBySnoc<T(!new)>(render: seq<T> -> seq<string>, a: seq<T>, b: seq<T>)
    requires Snocs(render)
    ensures render(a + b) == render(a) + render(b)
    decreases |b|
  {
    if b == [] {
      assert a + b == a;
    } else {
      var init := b[..|b| - 1];
      var last := b[|b| - 1];
      AppendBySnoc(render, a, init);
      assert a + b == (a + init) + [last];
      assert b == init + [last];
      Assoc(render(a), render(init), render([last]));
    }
  }

  /** One more path appends its block. */
  lemma EndpointsSnoc(o: Settings, paths: seq<(string, Option<Methods>)>, entry: (string, Option<Methods>))
    ensures EndpointsLines(o, paths + [entry]) == EndpointsLines(o, paths) + EndpointLines(o, entry.0, entry.1)
  {
    assert (paths + [entry])[..|paths|] == paths;
  }

  lemma EndpointsOne(o: Settings, entry: (string, Option<Methods>))
    ensures EndpointsLines(o, [entry]) == EndpointLines(o, entry.0, entry.1)
  {
    assert [entry][..0] == [];
  }

  /** Rendering two runs of paths one after the other renders them one after the other. */
  lemma EndpointsAppend(o: Settings, a: seq<(string, Option<Methods>)>, b: seq<(string, Option<Methods>)>)
    ensures EndpointsLines(o, a + b) == EndpointsLines(o, a) + EndpointsLines(o, b)
  {
    var render := (paths: seq<(string, Option<Methods>)>) => EndpointsLines(o, paths);
    forall xs: seq<(string, Option<Methods>)>, x: (string, Option<Methods>)
      ensures render(xs + [x]) == render(xs) + render([x])
    {
      EndpointsSnoc(o, xs, x);
      EndpointsOne(o, x);
    }
    AppendBySnoc(render, a, b);
  }

  /** Where the block of the `i`-th path starts among the endpoint lines. */
  function EndpointStart(o: Settings, paths: seq<(string, Option<Methods>)>, i: nat): nat
    requires i <= |paths|
  {
    |EndpointsLines(o, paths[..i])|
  }

  /** The endpoint lines are the blocks of the paths before `i`, the block of path `i`, and the blocks of the paths after it. */
  lemma EndpointAt(o: Settings, paths: seq<(string, Option<Methods>)>, i: nat)
    requires i < |paths|
    ensures EndpointsLines(o, paths)
      == EndpointsLines(o, paths[..i]) + EndpointLines(o, paths[i].0, paths[i].1) + EndpointsLines(o, paths[i + 1..])
  {
    assert paths == paths[..i] + [paths[i]] + paths[i + 1..];
    EndpointsAppend(o, paths[..i] + [paths[i]], paths[i + 1..]);
    EndpointsAppend(o, paths[..i], [paths[i]]);
    EndpointsOne(o, paths[i]);
  }

  /** An endpoint block has at least two lines and opens with `Endpoint: <path>`. */
  lemma EndpointHead(o: Settings, path: string, methods: Option<Methods>)
    ensures |EndpointLines(o, path, methods)| >= 2 && EndpointLines(o, path, methods)[0] == "Endpoint: " + path
  {
  }

  /** The block of path `i` opens with `Endpoint: <path i>`. */
  lemma EndpointStartsBlock(o: Settings, paths: seq<(string, Option<Methods>)>, i: nat)
    requires i < |paths|
    ensures EndpointStart(o, paths, i) < |EndpointsLines(o, paths)|
    ensures EndpointsLines(o, paths)[EndpointStart(o, paths, i)] == "Endpoint: " + paths[i].0
  {
    var before := EndpointsLines(o, paths[..i]);
    var block := EndpointLines(o, paths[i].0, paths[i].1);
    var after := EndpointsLines(o, paths[i + 1..]);
    EndpointAt(o, paths, i);
    EndpointHead(o, paths[i].0, paths[i].1);
    assert (before + block + after)[|before|] == block[0];
  }

  /** The next block starts at least two lines after the block of path `i`. */
  lemma EndpointNextStart(o: Settings, paths: seq<(string, Option<Methods>)>, i: nat)
    requires i < |paths|
    ensures EndpointStart(o, paths, i) + 2 <= EndpointStart(o, paths, i + 1)
  {
    assert paths[..i + 1] == paths[..i] + [paths[i]];
    EndpointsSnoc(o, paths[..i], paths[i]);
    EndpointHead(o, paths[i].0, paths[i].1);
  }

  /** Starts of blocks never decrease along the paths. */
  lemma EndpointStartMonotone(o: Settings, paths: seq<(string, Option<Methods>)>, i: nat, j: nat)
    requires i <= j <= |paths|
    ensures EndpointStart(o, paths, i) <= EndpointStart(o, paths, j)
  {
    assert paths[..j] == paths[..i] + paths[i..j];
    EndpointsAppend(o, paths[..i], paths[i..j]);
  }

  /**
   * Paths are rendered in input order: the block of path `i` opens with
   * `Endpoint: <path i>` and starts before the block of every later path.
   */
  lemma EndpointsInOrder(o: Settings, paths: seq<(string, Option<Methods>)>, i: nat, j: nat)
    requires i < j < |paths|
    ensures EndpointStart(o, paths, i) < EndpointStart(o, paths, j) < |EndpointsLines(o, paths)|
    ensures EndpointsLines(o, paths)[EndpointStart(o, paths, i)] == "Endpoint: " + paths[i].0
    ensures EndpointsLines(o, paths)[EndpointStart(o, paths, j)] == "Endpoint: " + paths[j].0
  {
    EndpointStartsBlock(o, paths, i);
    EndpointStartsBlock(o, paths, j);
    EndpointNextStart(o, paths, i);
    EndpointStartMonotone(o, paths, i + 1, j);
  }

  lemma IndexBefore<T>(head: seq<T>, mid: seq<T>, tail: seq<T>, k: nat)
    requires k < |head|
    ensures (head + mid + tail)[k] == head[k]
  {
  }

  lemma IndexWithin<T>(head: seq<T>, mid: seq<T>, tail: seq<T>, k: nat)
    requires k < |mid|
    ensures |head| + k < |head + mid + tail| && (head + mid + tail)[|head| + k] == mid[k]
  {
  }

  /** In the document, the block of every path comes after the `=== Endpoints ===` banner, in input order. */
  lemma DocumentEndpoint(o: Settings, doc: Document, i: nat)
    requires i < |doc.paths|
    ensures
      var k := |HeaderLines(doc.info)|;
      var at := k + 2 + EndpointStart(o, doc.paths, i);
      && DocumentLines(o, doc)[k] == "=== Endpoints ==="
      && k < at < |DocumentLines(o, doc)|
      && DocumentLines(o, doc)[at] == "Endpoint: " + doc.paths[i].0
  {
    var k := |HeaderLines(doc.info)|;
    var endpoints := EndpointsLines(o, doc.paths);
    var s := EndpointStart(o, doc.paths, i);
    EndpointStartsBlock(o, doc.paths, i);
    var head := HeaderLines(doc.info) + ["=== Endpoints ===", ""];
    var tail := SchemasSectionLines(o, doc);
    assert |head| == k + 2 && head[k] == "=== Endpoints ===";
    IndexBefore(head, endpoints, tail, k);
    IndexWithin(head, endpoints, tail, s);
  }

  // ----- schemas in input order ------------------------------------------------------

  /** One more named schema appends its block. */
  lemma SchemasSnoc(o: Settings, schemas: seq<(string, Schema)>, entry: (string, Schema))
    ensures SchemasLines(o, schemas + [entry]) == SchemasLines(o, schemas) + SchemaLines(o, entry.1, Some(entry.0))
  {
    assert (schemas + [entry])[..|schemas|] == schemas;
  }

  lemma SchemasOne(o: Settings, entry: (string, Schema))
    ensures SchemasLines(o, [entry]) == SchemaLines(o, entry.1, Some(entry.0))
  {
    assert [entry][..0] == [];
  }

  /** Rendering two runs of named schemas one after the other renders them one after the other. */
  lemma SchemasAppend(o: Settings, a: seq<(string, Schema)>, b: seq<(string, Schema)>)
    ensures SchemasLines(o, a + b) == SchemasLines(o, a) + SchemasLines(o, b)
  {
    var render := (schemas: seq<(string, Schema)>) => SchemasLines(o, schemas);
    forall xs: seq<(string, Schema)>, x: (string, Schema)
      ensures render(xs + [x]) == render(xs) + render([x])
    {
      SchemasSnoc(o, xs, x);
      SchemasOne(o, x);
    }
    AppendBySnoc(render, a, b);
  }

  /**
   * Schemas are rendered in input order, each one by `formatSchema` under
   * its own name: the schema lines are the blocks of the schemas before
   * `i`, the block of schema `i` named by its key, and the blocks after it.
   */
  lemma SchemaAt(o: Settings, schemas: seq<(string, Schema)>, i: nat)
    requires i < |schemas|
    ensures SchemasLines(o, schemas)
      == SchemasLines(o, schemas[..i]) + SchemaLines(o, schemas[i].1, Some(schemas[i].0)) + SchemasLines(o, schemas[i + 1..])
  {
    assert schemas == schemas[..i] + [schemas[i]] + schemas[i + 1..];
    SchemasAppend(o, schemas[..i] + [schemas[i]], schemas[i + 1..]);
    SchemasAppend(o, schemas[..i], [schemas[i]]);
    SchemasOne(o, schemas[i]);
  }

  // ----- the format option -------------------------------------------------------------

  /** The `format` option is carried but never read: changing it changes no block. */
  lemma {:induction false} PropertiesIgnoreFormat(o: Settings, f: OutputFormat, props: seq<(string, Property)>)
    ensures PropertiesLines(o.(format := f), props) == PropertiesLines(o, props)
    decreases |props|
  {
    if props != [] {
      PropertiesIgnoreFormat(o, f, props[..|props| - 1]);
    }
  }

  lemma SchemaIgnoresFormat(o: Settings, f: OutputFormat, s: Schema, name: Option<string>)
    ensures SchemaLines(o.(format := f), s, name) == SchemaLines(o, s, name)
  {
    if s.properties.Some? {
      PropertiesIgnoreFormat(o, f, s.properties.value);
    }
  }

  lemma {:induction false} ParameterListIgnoresFormat(o: Settings, f: OutputFormat, params: seq<Parameter>)
    ensures ParameterListLines(o.(format := f), params) == ParameterListLines(o, params)
    decreases |params|
  {
    if params != [] {
      ParameterListIgnoresFormat(o, f, params[..|params| - 1]);
    }
  }

  lemma ResponseIgnoresFormat(o: Settings, f: OutputFormat, code: string, response: Option<Response>)
    ensures ResponseLines(o.(format := f), code, response) == ResponseLines(o, code, response)
  {
    if response.Some? {
      var media := JsonMedia(response.value.content);
      if media.Some? && media.value.schema.Some? {
        SchemaIgnoresFormat(o, f, media.value.schema.value, None);
      }
    }
  }

  lemma {:induction false} ResponsesIgnoreFormat(o: Settings, f: OutputFormat, responses: seq<(string, Option<Response>)>)
    ensures ResponsesLines(o.(format := f), responses) == ResponsesLines(o, responses)
    decreases |responses|
  {
    if responses != [] {
      var last := responses[|responses| - 1];
      ResponsesIgnoreFormat(o, f, responses[..|responses| - 1]);
      ResponseIgnoresFormat(o, f, last.0, last.1);
    }
  }

  lemma OperationIgnoresFormat(o: Settings, f: OutputFormat, verb: string, details: Option<Operation>)
    ensures OperationLines(o.(format := f), verb, details) == OperationLines(o, verb, details)
  {
    if Shown(o, details) {
      var op := details.value;
      if op.parameters.Some? {
        ParameterListIgnoresFormat(o, f, op.parameters.value);
      }
      if op.requestBody.Some? {
        var media := JsonMedia(op.requestBody.value.content);
        if media.Some? && media.value.schema.Some? {
          SchemaIgnoresFormat(o, f, media.value.schema.value, None);
        }
      }
      if op.responses.Some? {
        ResponsesIgnoreFormat(o, f, op.responses.value);
      }
    }
  }

  lemma {:induction false} MethodsIgnoreFormat(o: Settings, f: OutputFormat, methods: Methods)
    ensures MethodsLines(o.(format := f), methods) == MethodsLines(o, methods)
    decreases |methods|
  {
    if methods != [] {
      var last := methods[|methods| - 1];
      MethodsIgnoreFormat(o, f, methods[..|methods| - 1]);
      OperationIgnoresFormat(o, f, last.0, last.1);
    }
  }

  lemma {:induction false} EndpointsIgnoreFormat(o: Settings, f: OutputFormat, paths: seq<(string, Option<Methods>)>)
    ensures EndpointsLines(o.(format := f), paths) == EndpointsLines(o, paths)
    decreases |paths|
  {
    if paths != [] {
      var last := paths[|paths| - 1];
      EndpointsIgnoreFormat(o, f, paths[..|paths| - 1]);
      if last.1.Some? {
        MethodsIgnoreFormat(o, f, last.1.value);
      }
    }
  }

  lemma {:induction false} SchemasIgnoreFormat(o: Settings, f: OutputFormat, schemas: seq<(string, Schema)>)
    ensures SchemasLines(o.(format := f), schemas) == SchemasLines(o, schemas)
    decreases |schemas|
  {
    if schemas != [] {
      var last := schemas[|schemas| - 1];
      SchemasIgnoreFormat(o, f, schemas[..|schemas| - 1]);
      SchemaIgnoresFormat(o, f, last.1, Some(last.0));
    }
  }

  /** `format: "markdown"` and `format: "plain"` produce the same document. */
  lemma DocumentIgnoresFormat(o: Settings, f: OutputFormat, doc: Document)
    ensures DocumentLines(o.(format := f), doc) == DocumentLines(o, doc)
  {
    EndpointsIgnoreFormat(o, f, doc.paths);
    if NamedSchemas(doc).Some? {
      SchemasIgnoreFormat(o, f, NamedSchemas(doc).value);
    }
  }

  // ----- deprecated operations ---------------------------------------------------------

  /** The entries of a path item that are not deprecated operations. */
  function Current(methods: Methods): (r: Methods)
    decreases |methods|
  {
    if methods == [] then []
    else
      var last := methods[|methods| - 1];
      Current(methods[..|methods| - 1]) + (if last.1.Some? && last.1.value.deprecated then [] else [last])
  }

  /** With `includeDeprecated` off, a path item renders exactly as it would without its deprecated operations. */
  lemma {:induction false} DeprecatedOmitted(o: Settings, methods: Methods)
    requires !o.includeDeprecated
    ensures MethodsLines(o, methods) == MethodsLines(o, Current(methods))
    decreases |methods|
  {
    if methods != [] {
      var init := methods[..|methods| - 1];
      var last := methods[|methods| - 1];
      DeprecatedOmitted(o, init);
      if last.1.Some? && last.1.value.deprecated {
        assert Current(methods) == Current(init) + [] == Current(init);
        assert OperationLines(o, last.0, last.1) == [];
        assert MethodsLines(o, methods) == MethodsLines(o, init) + [] == MethodsLines(o, init);
      } else {
        var kept := Current(init) + [last];
        assert Current(methods) == kept;
        assert kept[..|kept| - 1] == Current(init);
      }
    }
  }

  /** With `includeDeprecated` on, a deprecated operation renders as if it were not deprecated. */
  lemma DeprecatedShown(o: Settings, verb: string, op: Operation)
    requires o.includeDeprecated
    ensures OperationLines(o, verb, Some(op)) == OperationLines(o, verb, Some(op.(deprecated := false)))
  {
  }
}
