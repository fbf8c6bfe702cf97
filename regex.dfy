/**
 * The `regexp` package, whose engine is not part of this model: an `Engine`
 * gives the error `regexp.Compile` reports for an expression (`None` when it
 * compiles) and says which compiled expressions match which bytes.
 */
module Regex {
  import opened Wrappers
  import opened Bytes

  /** A compiled `*regexp.Regexp`, identified by its source expression. */
  datatype Matcher = Matcher(expr: string)

  datatype Engine = Engine(compileError: string -> Option<string>, matches: (string, Bytes) -> bool)

  /** `regexp.Compile(expr)`: a matcher, or the compile error's text. */
  function Compile(engine: Engine, expr: string): Result<Matcher, string> {
    match engine.compileError(expr)
    case None => Success(Matcher(expr))
    case Some(text) => Failure(text)
  }

  /** `re.Match(data)`. */
  predicate Matches(engine: Engine, m: Matcher, data: Bytes) {
    engine.matches(m.expr, data)
  }
}
