/**
 * The part of an OpenAPI 3 document that the formatter reads.
 *
 * Every JavaScript object used as a map (paths, the operations of a path,
 * responses, properties, named schemas) is a sequence of (key, value)
 * pairs in the order `Object.entries` lists them: integer-like keys first,
 * in ascending numeric order, then the other keys in insertion order. The
 * formatter renders the entries in exactly the order of the sequence.
 * A field the source tests for presence is an `Option`; a value that may
 * be `null` or `undefined` inside such a map is an `Option` too.
 */
module OpenApi {
  import opened Wrappers

  /** JavaScript truthiness of an optional string: present and not empty. */
  predicate Truthy(o: Option<string>) {
    o.Some? && o.value != ""
  }

  /** The JavaScript expression `o || fallback` for an optional string. */
  function OrElse(o: Option<string>, fallback: string): string {
    if Truthy(o) then o.value else fallback
  }

  /** A template-literal interpolation `${o}` of a possibly undefined string. */
  function Interpolated(o: Option<string>): string {
    match o
    case Some(v) => v
    case None => "undefined"
  }

  /** A property of an object schema, read one level deep only. */
  datatype Property = Property(
    typeTag: Option<string>,
    description: Option<string>,
    required: bool,
    example: Option<string>)

  /** A schema object; its properties are not expanded recursively. */
  datatype Schema = Schema(
    typeTag: Option<string>,
    description: Option<string>,
    properties: Option<seq<(string, Property)>>,
    enumValues: Option<seq<string>>,
    example: Option<string>)

  datatype MediaType = MediaType(schema: Option<Schema>)

  /** The `content` object of a request body or response, keyed by media type. */
  type Content = map<string, MediaType>

  /** The one media type the formatter looks at. */
  const JsonMediaType: string := "application/json"

  /** `content?.["application/json"]` */
  function JsonMedia(content: Option<Content>): Option<MediaType> {
    if content.Some? && JsonMediaType in content.value then Some(content.value[JsonMediaType]) else None
  }

  datatype RequestBody = RequestBody(content: Option<Content>)

  datatype Response = Response(description: Option<string>, content: Option<Content>)

  /**
   * A parameter; `location` is the OpenAPI `in` field (query, path, header,
   * cookie). Name and location are optional because a `$ref` parameter has
   * neither, and the source interpolates them unguarded.
   */
  datatype Parameter = Parameter(
    name: Option<string>,
    location: Option<string>,
    description: Option<string>,
    required: bool,
    schema: Option<Schema>)

  datatype Operation = Operation(
    summary: Option<string>,
    description: Option<string>,
    deprecated: bool,
    parameters: Option<seq<Parameter>>,
    requestBody: Option<RequestBody>,
    responses: Option<seq<(string, Option<Response>)>>)

  /** The entries of a path item: method token to operation, which may be null. */
  type Methods = seq<(string, Option<Operation>)>

  datatype Info = Info(title: string, version: string, description: Option<string>)

  datatype Components = Components(schemas: Option<seq<(string, Schema)>>)

  datatype Document = Document(
    info: Info,
    paths: seq<(string, Option<Methods>)>,
    components: Option<Components>)

  /** `spec.components?.schemas` */
  function NamedSchemas(doc: Document): Option<seq<(string, Schema)>> {
    match doc.components
    case None => None
    case Some(c) => c.schemas
  }
}
