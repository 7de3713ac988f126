/** The optional value used wherever the page's code may produce nothing. */
module Wrappers {

  datatype Option<+T> = None | Some(value: T)

  function Min(a: int, b: int): (m: int)
    ensures m <= a && m <= b && (m == a || m == b)
  {
    if a <= b then a else b
  }
}
