/** Shared datatypes used by the other modules. */
module Wrappers {

  datatype Option<+T> = None | Some(value: T)

  /** The outcome of running a parser: a value or an error, plus the input left over. */
  datatype Parsed<+T, +E> = Parsed(outcome: Outcome<T, E>, rest: seq<Token>)

  datatype Outcome<+T, +E> = Success(value: T) | Failure(error: E)

  /**
   * A token of the stylesheet's modifier syntax, as the dispatcher sees it:
   * the braces and commas of the `{:name, metadata, args}` tuple form,
   * whitespace, an atom `:name`, the metadata term and anything else.
   */
  datatype Token =
    | OpenBrace
    | CloseBrace
    | Comma
    | Space
    | AtomToken(name: string)
    | MetadataToken(metadata: Metadata)
    | OtherToken(text: string)

  /** Source location attached to every modifier expression. */
  datatype Metadata = Metadata(file: string, line: nat, moduleName: string)
}
