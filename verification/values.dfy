/** The runtime value model: the interpreter's `Literal` holds a `std::any` that is
    discriminated by `typeid` checks; here the tag is explicit. */
module Values {

  /** Exactly one of Nil, a Boolean, a Number or a String. Numbers are exact reals:
      IEEE rounding, infinities and NaN are not modelled. */
  datatype Literal = Nil | Bool(b: bool) | Num(n: real) | Str(s: string)
}
