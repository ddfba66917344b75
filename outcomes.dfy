/** Option and result types for the error paths of the collage scripts. */
module Outcomes {

  datatype Option<T> = None | Some(value: T)

  /** The exceptions the scripts raise while validating a request, computing a scale
      or choosing a layout. */
  datatype Failure =
    | WrongImageCount       // ValueError: not exactly 4 (or 5) image paths
    | LargeIndexOutOfRange  // IndexError: large_index outside 0..3
    | UnknownOrientation    // ValueError: neither 'landscape' nor 'portrait'
    | NoLayoutFits          // ValueError: no sample of any emphasis multiplier yields a layout
    | SelectionOutOfRange   // IndexError: the chosen option number is not in the option list
    | ZeroScaleDivisor      // ZeroDivisionError: the large-plus-three scale divides by a zero extent

  datatype Result<T> = Ok(value: T) | Err(error: Failure)
}
