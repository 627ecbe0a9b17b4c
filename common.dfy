/** Types shared by the viewer's components. */
module Common {
  /** Python's `Optional[...]`: best prices, the last fetch error. */
  datatype Option<+T> = None | Some(value: T)

  /** The market side an order is composed for (`"YES"` or `"NO"`). */
  datatype Side = Yes | No
}
