/** Option and Result, the two failure-carrying shapes used throughout the model.
    A Result's error is the text Python would give as str(e) for the exception. */
module Results {

  datatype Option<+T> = None | Some(value: T)

  datatype Result<+T> = Ok(value: T) | Err(error: string)
}
