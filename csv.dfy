/**
 * The risk table as both server actions read it: the file text split on newlines, each line
 * trimmed and split on commas, with no quoting. A value past the end of a line is JavaScript's
 * `undefined`, and `parseFloat` is a parameter.
 */
module Csv {
  import opened Wrappers
  import opened Text

  /** `parseFloat`: `None` stands for `NaN`. */
  type Parser = string -> Option<real>

  /** The comma-separated values of one accepted line, in column order. */
  type Row = seq<string>

  /** The lines of the file: `content.split("\n")`. */
  function Lines(content: string): (lines: seq<string>)
    ensures |lines| >= 1
  {
    Split(content, '\n')
  }

  /** The values of a line: `line.trim().split(",")`. */
  function Values(line: string): Row {
    Split(Trim(line), ',')
  }

  /** `values[k]`: `undefined` past the end of the row. */
  function Field(r: Row, k: nat): Option<string> {
    if k < |r| then Some(r[k]) else None
  }

  /** JavaScript truthiness of a field: present and not the empty string. */
  predicate Truthy(f: Option<string>) {
    f.Some? && f.value != []
  }

  /** `parseFloat(field)`; `parseFloat(undefined)` is `NaN`. */
  function ParseField(parse: Parser, f: Option<string>): Option<real> {
    match f
    case None => None
    case Some(v) => parse(v)
  }
}
