/** Small helper types shared by the dashboard modules. */
module Common {

  /** A value that may be absent: JavaScript's `null` for the state fields of the dashboard. */
  datatype Option<+T> = None | Some(value: T)

  /** The smaller of two integers. */
  function Min(a: int, b: int): (m: int)
    ensures m <= a && m <= b
    ensures m == a || m == b
  {
    if a <= b then a else b
  }
}
