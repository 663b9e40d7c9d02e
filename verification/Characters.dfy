/**
 The bytes and the white space of all the parts.
 */
module Characters {

  type byte = b: int | 0 <= b < 256

  predicate IsWhiteSpace(ch: char)
  {
    ch == ' ' || ch == '\t'
  }
}
