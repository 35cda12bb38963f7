# OpenAPI LLM formatter — a Dafny model

This project models `OpenAPILLMFormatter`, the class in `src/formatter.ts` of
OpenAPI-LLM-Docs. The class turns an OpenAPI 3 document into plain text meant
for a language model:

- a title block;
- an `=== Endpoints ===` section with one block per path and one method block
  per operation;
- an `=== Schemas ===` section with one block per named component schema.

Its options filter what is written:

- `includeExamples` controls whether `Example:` lines appear;
- `includeDeprecated` controls whether deprecated operations appear;
- `requireDescription` drops schemas, properties, parameters, responses and
  operations that have no description;
- `format` is accepted but never read.

## How the model is built

- **Options** (`options.dfy`). The options a caller supplies, the defaults,
  and the merge the constructor performs (`Resolve`).
- **Documents** (`openapi.dfy`). The part of an OpenAPI document the formatter
  reads, as datatypes.
  - Every JavaScript object that the source walks with `Object.entries` is a
    sequence of key/value pairs in the order `Object.entries` lists them.
    Integer-like keys, such as the status codes of `responses`, come first in
    ascending numeric order. The other keys follow in insertion order.
  - A field the source tests for presence is an `Option`.
  - JavaScript truthiness of a string is "present and non-empty" (`Truthy`).
  - `a || b` is `OrElse`.
  - An unguarded `${x}` of a possibly missing value, such as a schema's
    `type` or a parameter's `name` and `in`, is `Interpolated`, which gives
    `undefined` for a missing value.
- **Specification** (`rendering.dfy`). What each renderer writes, as the
  sequence of lines it emits. Every `output +=` of the source appends zero
  or more whole lines, each ending in `"\n"`. A call of `formatSchema` that
  returns `""` appends none. So the text of a block is `Text.Unlines(lines)`,
  with each line followed by `"\n"`.
  - A blank line is `""`. A literal such as `"\nProperties:\n"` is the two
    lines `""` and `"Properties:"`.
  - A user value that itself contains a newline still counts as part of one
    emitted line.
  - Each `forEach` of the source has its own function, which concatenates the
    blocks of its elements in input order.
- **Renderers** (`formatter.dfy`). The class, as `Formatter.OpenApiLlmFormatter`
  with its options in a `const` field set once by the constructor.
  - Each renderer is a method that builds `output` step by step, as the source
    does. The source's multi-line literals are appended piece by piece.
  - Each `forEach` is a loop over the sequence, and each callback or
    conditional section is a method of its own.
  - Every method is proved to return exactly the text of its specification
    function.
- **Laws** (`laws_blocks.dfy`, `laws_clean.dfy`, `laws_document.dfy`). What
  those functions, and therefore the methods, promise. Some laws are stated on
  the text: how a block starts and ends, and that it is empty. The others are
  stated on the emitted lines: which lines appear, and in which order.

## Model

| member | source | states |
|---|---|---|
| Options.Resolve | src/formatter.ts:14-21 | A supplied option wins. A missing one takes its default: examples on, deprecated off, format `plain`, descriptions not required. |
| Options.ResolveNothing | src/formatter.ts:14-21 | Constructing with no options gives exactly the defaults true, false, plain, false. |
| Options.ResolveEverything | src/formatter.ts:14-21 | Supplying every option gives exactly the supplied values. |
| Formatter.OpenApiLlmFormatter.constructor | src/formatter.ts:14-21 | The formatter's options are the supplied options merged with the defaults. |
| Formatter.OpenApiLlmFormatter.FormatProperty | src/formatter.ts:46-58 | The callback over `schema.properties` returns the text of that property's block, which is empty when the property is filtered out. |
| Formatter.OpenApiLlmFormatter.FormatProperties | src/formatter.ts:46-58 | The loop over the properties returns the text of every property block, in input order. |
| Formatter.OpenApiLlmFormatter.FormatPropertiesSection | src/formatter.ts:44-59 | Returns a blank line, `Properties:` and the property blocks when properties are declared, and nothing otherwise. |
| Formatter.OpenApiLlmFormatter.FormatSchema | src/formatter.ts:24-66 | `formatSchema` returns the text of the schema block. |
| Formatter.OpenApiLlmFormatter.FormatParameter | src/formatter.ts:72-86 | The callback over the parameters returns the text of one parameter's block, which is empty when the parameter is filtered out. |
| Formatter.OpenApiLlmFormatter.FormatParameters | src/formatter.ts:68-88 | `formatParameters` returns the text of the parameter block. |
| Formatter.OpenApiLlmFormatter.FormatResponse | src/formatter.ts:133-144 | The callback over `responses` returns the text of one response entry. |
| Formatter.OpenApiLlmFormatter.FormatResponses | src/formatter.ts:133-144 | The loop over the responses returns every response entry, in input order. |
| Formatter.OpenApiLlmFormatter.FormatParametersSection | src/formatter.ts:117-119 | Returns a newline followed by the parameter block when `parameters` is present, and nothing otherwise. |
| Formatter.OpenApiLlmFormatter.FormatRequestBody | src/formatter.ts:122-128 | Returns `Request Body:` and the schema block when JSON content is declared, and nothing otherwise. |
| Formatter.OpenApiLlmFormatter.FormatResponsesSection | src/formatter.ts:131-145 | Returns `Responses:` and the response entries when `responses` is present, and nothing otherwise. |
| Formatter.OpenApiLlmFormatter.FormatOperation | src/formatter.ts:97-148 | The callback over a path item returns the method block of one entry, or nothing. |
| Formatter.OpenApiLlmFormatter.FormatMethods | src/formatter.ts:97-148 | The loop over a path item returns the method blocks of its entries, in input order. |
| Formatter.OpenApiLlmFormatter.FormatEndpoint | src/formatter.ts:90-151 | `formatEndpoint` returns the text of the endpoint block. |
| Formatter.OpenApiLlmFormatter.FormatHeader | src/formatter.ts:154-162 | Returns the title block: heading, title, version, the description when it is truthy, and a blank line. |
| Formatter.OpenApiLlmFormatter.FormatEndpoints | src/formatter.ts:166-168 | The loop over `spec.paths` returns every endpoint block, in input order. |
| Formatter.OpenApiLlmFormatter.FormatSchemas | src/formatter.ts:173-175 | The loop over the component schemas returns every schema block, each under its own name, in input order. |
| Formatter.OpenApiLlmFormatter.Format | src/formatter.ts:153-179 | `format` returns the text of the whole document. |
| Text.UpperAsciiChars | src/formatter.ts:112 | Upper-casing the method keeps its length. It maps every ASCII lower-case letter to its capital, keeps every other character, and leaves no lower-case letter. |
| BlockLaws.PropertyShape | src/formatter.ts:47-52 | A property block is empty if and only if descriptions are required and the property has none. Otherwise the block opens with `- <name>:`, then `  Type: <type>`, with `any` when the type is missing. |
| BlockLaws.PropertyRequired | src/formatter.ts:54 | A property that is shown has the line `  Required: Yes` if and only if it is required. |
| BlockLaws.PropertyExample | src/formatter.ts:55-57 | A property that is shown has an example line if and only if examples are included and its example is truthy. |
| BlockLaws.SchemaShape | src/formatter.ts:24-66 | A schema block is empty, and its text is `""`, if and only if descriptions are required and the schema has none. Otherwise the block ends with a blank line and its text ends in a newline. |
| BlockLaws.SchemaNamed | src/formatter.ts:32-34 | The name only adds the line `Schema: <name>` in front of the block, and only when the name is truthy. |
| BlockLaws.SchemaFirstLine | src/formatter.ts:36-45 | An unnamed schema block that is shown opens with `Type: <type>` when the type is truthy. Otherwise it opens with `Description: <description>` when that is truthy, and otherwise with a blank line. |
| BlockLaws.SchemaTextNamed | src/formatter.ts:32-34 | When a shown schema has a truthy name, its text starts with `Schema: <name>` and a newline. |
| BlockLaws.SchemaTextUnnamed | src/formatter.ts:32-45 | Without a truthy name, the text of a schema block never starts with `Schema: `. |
| BlockLaws.ParameterShape | src/formatter.ts:74-79 | A parameter block is empty if and only if descriptions are required and the parameter has none. Otherwise it shows the name and location (`undefined` when missing), the description or `No description`, and `Required: Yes` or `No` according to `required`. |
| BlockLaws.ParameterExample | src/formatter.ts:80-85 | A parameter that is shown has an example line if and only if examples are included and its schema has a truthy example. |
| BlockLaws.ParametersTextStart | src/formatter.ts:71 | The text of a non-empty parameter list starts with `Parameters:` and a newline. |
| BlockLaws.ParametersTextEnd | src/formatter.ts:87 | The text of a non-empty parameter list ends with a blank line. |
| BlockLaws.ParametersText | src/formatter.ts:69-87 | The parameter text is `""` if and only if the list is absent or empty. Otherwise it starts with `Parameters:` and a newline and ends with two newlines. |
| BlockLaws.RequestBodyShape | src/formatter.ts:122-128 | `Request Body:` is written if and only if the request body has JSON content. The schema block of that content follows when it has a schema. |
| BlockLaws.ResponseShape | src/formatter.ts:133-141 | A response entry is empty if and only if the response is null, or descriptions are required and it has none. Otherwise it opens with `- <code>: <description>`, with `No description` when the description is missing. |
| BlockLaws.OperationShape | src/formatter.ts:97-148 | An entry yields a method block if and only if it is an operation that passes the description filter and is not a deprecated operation being skipped. The block opens with `Method: <METHOD>` and ends with `---` and a blank line. |
| BlockLaws.OperationText | src/formatter.ts:112-147 | The text of a method block starts with `Method: <METHOD>` and a newline, and ends with `---` and two newlines. |
| BlockLaws.EndpointText | src/formatter.ts:91-95 | An endpoint's text is `Endpoint: <path>`, two newlines, then the method blocks. Without a path item it is only that heading. |
| CleanLaws.NoExamplesWhenExcluded | src/formatter.ts:55-57 | With `includeExamples` off, no line of the document is an example line, whether it comes from a property or from a parameter. |
| CleanLaws.SchemasBanner | src/formatter.ts:171-172 | The document contains `=== Schemas ===` if and only if it declares `components.schemas`. |
| CleanLaws.EndpointsBanner | src/formatter.ts:165-168 | `=== Endpoints ===` follows the header block. No other line before the schemas section is a banner. |
| DocumentLaws.TitleText | src/formatter.ts:154-158 | The opening lines have the text `API Documentation`, a newline, a blank line, `Title: <title>` and `Version: <version>`. |
| DocumentLaws.DocumentOpening | src/formatter.ts:154-165 | Every document's text starts with the heading, title and version lines. `=== Endpoints ===` comes right after the header block. |
| DocumentLaws.EndpointsAppend | src/formatter.ts:166-168 | Rendering two runs of paths gives the rendering of the first followed by the rendering of the second. |
| DocumentLaws.EndpointAt | src/formatter.ts:166-168 | The endpoint lines are the blocks of the earlier paths, then the block of path i, then the blocks of the later paths. |
| DocumentLaws.EndpointStartsBlock | src/formatter.ts:91 | The block of path i starts with `Endpoint: <path i>`. |
| DocumentLaws.EndpointNextStart | src/formatter.ts:91 | Every endpoint block is at least two lines long. |
| DocumentLaws.EndpointStartMonotone | src/formatter.ts:166-168 | Endpoint blocks never start earlier for a later path. |
| DocumentLaws.EndpointsInOrder | src/formatter.ts:166-168 | Paths appear in input order: for i < j, the block of path i starts strictly before the block of path j. |
| DocumentLaws.DocumentEndpoint | src/formatter.ts:165-168 | In the document, the block of every path comes after `=== Endpoints ===`, at its position in input order. |
| DocumentLaws.SchemasAppend | src/formatter.ts:173-175 | Rendering two runs of named schemas gives the rendering of the first followed by the rendering of the second. |
| DocumentLaws.SchemaAt | src/formatter.ts:173-175 | The schema lines are the earlier blocks, then the block of schema i rendered under its own key, then the later blocks. |
| DocumentLaws.DocumentIgnoresFormat | src/formatter.ts:7-18 | Changing the `format` option changes nothing in the document. |
| DocumentLaws.DeprecatedOmitted | src/formatter.ts:107-110 | With `includeDeprecated` off, a path item renders exactly as it would with its deprecated operations removed. |
| DocumentLaws.DeprecatedShown | src/formatter.ts:107-110 | With `includeDeprecated` on, a deprecated operation renders as if it were not deprecated. |

## Left out

- `src/middleware.ts` (the Express middleware) is not part of this model. It handles request paths, headers, `res.send` and error forwarding.
- The `format: "markdown"` option. It is accepted and carried in `Settings` but never read. `DocumentLaws.DocumentIgnoresFormat` proves it has no effect.
- Examples, types and enumeration values that are not strings. Every such value is a string here, so how JavaScript turns numbers or objects into text is not modelled. This includes `enum.join(", ")`.
- JavaScript truthiness beyond "present and non-empty". An example of `0` or `false`, or a `required` that is a non-boolean value, is not modelled. A missing boolean is `false`.
- An option passed explicitly as `undefined`. In JavaScript the spread lets it override the default. Here, an option that was not supplied always takes its default.
- `$ref` references. The source never resolves them. A schema reached through `$ref` appears here with its fields absent. A `$ref` parameter has no name and no location, so its block begins `- undefined (undefined):`. Nested schemas are not expanded, because the source reads properties one level deep only.
- Text.UpperAscii: `toUpperCase` is modelled for ASCII only. Locale rules and non-ASCII letters are not modelled.
- Duplicate keys in a JavaScript object cannot occur, but the key/value sequences of the model can hold them. The model renders them as given.
- Path-item entries that are not operations are not modelled as their own kind of value. A truthy entry that is not an operation, such as a string or a path-level `parameters` array, is given as `Some` of an `Operation` whose fields are all absent. A falsy entry is `None`, which the source skips. An object is read through the operation fields it has.
- A `null` property, parameter or named component schema is not modelled. The source would throw on it. For a `null` schema in `components.schemas`, it throws when `formatSchema` reads `schema.description` or `schema.type`.
- The reordering done by `Object.entries`, which puts integer-like keys first, is not computed. Every key/value sequence is taken to be in that order already. A `responses` object written as `default`, `404`, `200` must be given as `200`, `404`, `default`.
- A document without `info` or `paths` is not modelled. The source would throw on it.
- Strings are sequences of characters. JavaScript's UTF-16 code units are not modelled.
