/** The formatter's options, as supplied by a caller and as resolved against the defaults. */
module Options {
  import opened Wrappers

  /** The two values of the `format` option; neither changes the output. */
  datatype OutputFormat = Plain | Markdown

  /** The options object a caller passes; an absent key is `None`. */
  datatype FormatterOptions = FormatterOptions(
    includeExamples: Option<bool>,
    includeDeprecated: Option<bool>,
    format: Option<OutputFormat>,
    requireDescription: Option<bool>)

  /** Options after merging with the defaults. */
  datatype Settings = Settings(
    includeExamples: bool,
    includeDeprecated: bool,
    format: OutputFormat,
    requireDescription: bool)

  /** A caller that passes nothing. */
  const NoOptions: FormatterOptions := FormatterOptions(None, None, None, None)

  const Defaults: Settings := Settings(true, false, Plain, false)

  /**
   * The object spread `{ ...defaults, ...supplied }`: an option the caller
   * supplied wins, every other option takes its default (examples on,
   * deprecated operations off, plain format, descriptions not required).
   */
  function Resolve(supplied: FormatterOptions): (s: Settings)
    ensures s.includeExamples == (if supplied.includeExamples.Some? then supplied.includeExamples.value else true)
    ensures s.includeDeprecated == (if supplied.includeDeprecated.Some? then supplied.includeDeprecated.value else false)
    ensures s.format == (if supplied.format.Some? then supplied.format.value else Plain)
    ensures s.requireDescription == (if supplied.requireDescription.Some? then supplied.requireDescription.value else false)
  {
    Settings(
      supplied.includeExamples.GetOr(Defaults.includeExamples),
      supplied.includeDeprecated.GetOr(Defaults.includeDeprecated),
      supplied.format.GetOr(Defaults.format),
      supplied.requireDescription.GetOr(Defaults.requireDescription))
  }

  /** A caller that passes nothing gets exactly the defaults. */
  lemma ResolveNothing()
    ensures Resolve(NoOptions) == Defaults
    ensures Defaults == Settings(true, false, Plain, false)
  {
  }

  /** A caller that supplies every option gets exactly what it supplied. */
  lemma ResolveEverything(includeExamples: bool, includeDeprecated: bool, format: OutputFormat, requireDescription: bool)
    ensures Resolve(FormatterOptions(Some(includeExamples), Some(includeDeprecated), Some(format), Some(requireDescription)))
      == Settings(includeExamples, includeDeprecated, format, requireDescription)
  {
  }
}
