/** Failure values shared by the pipeline's modules. */
module Common {

  datatype Option<+T> = None | Some(value: T)

  /** Why a call raises instead of returning; each case names the Python failure it stands for. */
  datatype Error =
    | DecodeFailed        // the TIFF reader raised (for instance on an empty file list)
    | MaskRequired        // raw branch: `np.invert(None)` raises a TypeError
    | MaskLengthMismatch  // raw branch: a boolean index whose length differs from the frame count
    | MissingFile         // `np.load` of a path that does not exist
    | ZeroDivision        // integer or float division by zero in the budget arithmetic
    | EmptyColumn         // `cumEn[-1]` on a spatial weight column with no pixels
    | ReshapeMismatch     // `np.reshape(Bvec, (d1, d2))` when d != d1 * d2

  datatype Result<+T> = Ok(value: T) | Err(error: Error)
}
