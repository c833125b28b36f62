/** Failure-carrying values shared by the back ends: the exceptions the
    activation code raises become `Err` values instead of control flow. */
module Results {

  /** The Python exceptions raised by the modelled code. */
  datatype Error =
    | ValueError(message: string)       // unknown version tag at construction
    | AssertionError                    // `assert` on the tag in change_version
    | NotImplementedError               // the Keras version-d stub
    | AttributeError(attribute: string) // reading an attribute never assigned
    | RuntimeError(message: string)     // moving a tensor to a CUDA device that is absent

  datatype Result<+T> = Ok(value: T) | Err(error: Error)

  /** An attribute that is either assigned or missing. */
  datatype Option<+T> = None | Some(value: T)
}
