/** Option and Result types shared by the random anonymizer model, and the
    exceptions the anonymizer lets escape to its caller. */
module Wrappers {

  datatype Option<+T> = None | Some(value: T)

  /** The exceptions raised (and never caught) by the random anonymizer. */
  datatype Error =
    /** `_scaling_ranges` is read before it was ever assigned. */
    | AttributeError
    /** `open(path)` on a file that does not exist. */
    | FileNotFound(path: string)
    /** `int(key)` on a statistics key that is not a base-10 integer. */
    | NonIntegerKey(key: string)
    /** `v["min"]` or `v["max"]` on a statistics entry without that field. */
    | MissingField(key: string, field: string)
    /** `torch.stack` on an empty list of vectors. */
    | EmptyStack

  datatype Result<+T> = Ok(value: T) | Err(error: Error)
}
