/** Small shared datatypes: optional values and error-carrying results. */
module Base {

  datatype Option<+T> = None | Some(value: T) {
    function GetOr(default: T): T {
      match this
      case Some(v) => v
      case None => default
    }
  }

  /** Why an operation raised instead of returning normally. */
  datatype Error =
    | BackendFailed        // the cloud backend raised; nothing catches it
    | MissingKey(key: string)  // a dictionary lookup with [] on an absent key
    | HandOffFailed        // the output collaborator raised
    | Unloadable           // a skill file that could not be read or is not a mapping

  datatype Result<+T> = Ok(value: T) | Err(error: Error)
}
