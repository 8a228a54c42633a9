/** Shared result types: the exceptions the library throws become values. */
module Results {

  datatype Option<+T> = None | Some(value: T)

  /** The exceptions thrown by the configuration layer. */
  datatype Error =
    | NotInitialized            // "Initialize Configuration first!"
    | NoAdapter                 // "No configuration adapter found!"
    | InvalidPath               // "Empty value not allowed on path!"
    | UnknownOption(name: string)  // option missing from the library (name after normalisation)
    | MissingMetadata           // enum member without a ConfigurationOptionAttribute
    | ValueNotFound(name: string)  // the registry refuses to delete a value that does not exist

  datatype Result<+T> = Ok(value: T) | Err(error: Error)

  /** The outcome of an operation that returns nothing: it completed, or it threw. */
  datatype Outcome = Pass | Fail(error: Error)
}
