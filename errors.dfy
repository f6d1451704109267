/** Failure values shared by every part of the model.
    Go's `(value, error)` pairs become `Result<T>`; a Go `error` that is only
    checked against nil becomes `Option<Error>`. */
module Errors {

  datatype Option<+T> = None | Some(value: T) {
    function GetOr(default: T): T {
      match this
      case Some(v) => v
      case None => default
    }
  }

  datatype Result<+T> = Ok(value: T) | Err(error: Error)

  /** A Go call that may panic (an index out of range, a nil pointer
      dereference) either returns normally or panics. */
  datatype Run<+T> = Returns(value: T) | Panics(reason: string)

  /** The errors the modelled code produces or passes through.
      `Failed` stands for an error produced by code outside the model
      (the OpenPGP engine, the terminal, the operating system). */
  datatype Error =
    | UnableToFindKey                 // no candidate key was handed to a prompt function
    | WrongPassphrase(keyId: string)  // the engine refused to unlock the key with this short ID
    | AgentClosed                     // a request on a gpg-agent connection that was already closed
    | SignerCount(count: nat)         // EntitySigner: the signer filter did not leave exactly one entity
    | SignatureInvalid                // a signed message whose signature did not verify
    | ScanFailed                      // fmt.Sscanf could not read three tokens
    | ConfigExists(path: string)      // initProfileStore: the configuration file is already there
    | NotADirectory(path: string)     // MkdirAll over an existing regular file
    | NotFound(path: string)          // reading a file that does not exist
    | Refused(path: string)           // the operating system refused an operation on this path
    | Failed(reason: string)
}
