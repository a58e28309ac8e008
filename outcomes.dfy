/** Result and option values for the operations of the batch distance tool.
    Every exception the tool raises and catches is one `Failure` here. */
module Outcomes {

  datatype Option<+T> = None | Some(value: T)

  /** Why loading or normalising a latent vector failed. */
  datatype Failure =
    | UnsupportedFormat(path: string)  // extension is neither .pt nor .npy
    | FileNotFound(path: string)       // the file does not exist
    | Undecodable(path: string)        // the decoder raised on the file's contents
    | EmptyDict(path: string)          // a .pt payload that is a dictionary without keys
    | EmptyList(path: string)          // a .pt payload that is a list without elements
    | ShapeError(shape: seq<nat>)      // the array cannot be brought to shape (18, 512)

  datatype Result<+T> = Ok(value: T) | Err(failure: Failure)
}
