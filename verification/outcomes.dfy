/** The two failure kinds a matrix operation can report in place of a value.

    `DimensionMismatch` stands for the `std::invalid_argument` throws (shape checks of
    the nested-literal constructor, `multiply`, `add` and `mDot`); `IndexOutOfRange`
    stands for the `std::out_of_range` throw of the bounds-checked element accessor.
 */
module Outcomes {

  datatype Error = DimensionMismatch | IndexOutOfRange

  /** Either the value an operation computed or the error it raised instead. */
  datatype Result<+T> = Ok(value: T) | Err(error: Error)
}
