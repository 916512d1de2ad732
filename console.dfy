/**
 Interactive input. Each call to Python's `input()` consumes one typed line; the
 model carries, with the text of the line, what `float()` makes of that text:
 `Some(v)` when it parses to the number `v`, `None` when `float()` raises
 `ValueError`. A script's whole session is the sequence of lines it is given.
 */
module Console {
  import opened Wrappers

  datatype Line = Line(text: string, asFloat: Option<real>)
}
