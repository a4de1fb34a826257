/** The failures the core can raise. The C# code raises .NET exceptions; here each one is a value. */
module Errors {

  /** A correlation token: the string form of the GUID a performance counter draws when it is created. */
  type Token = string

  datatype Error =
    | DuplicateToken(token: Token)      // Dictionary.Add on a key that is already present
    | MissingCorrelation(token: Token)  // the Dictionary indexer on a key that is absent
    | ArgumentOutOfRange(index: int)    // the List indexer or RemoveAt outside [0, Count)

  /** The outcome of an operation that either returns a value or throws. */
  datatype Result<T> = Ok(value: T) | Err(error: Error)
}
