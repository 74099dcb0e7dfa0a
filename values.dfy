/** The JavaScript values the core hands on: booleans, numbers, strings and `Date` instants. */
module Values {

  /**
   * A primitive after conversion. Numbers are exact reals (the model does not
   * round to double precision); a `Date` is its time value in milliseconds.
   */
  datatype Value = Bool(b: bool) | Num(r: real) | Str(s: string) | Time(ms: int)
}
