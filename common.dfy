/** Values shared by every part of the model: optional values, the errors the
    server code raises, and results that carry either a value or such an error. */
module Common {

  datatype Option<+T> = None | Some(value: T)

  /** The errors the resolvers and helpers raise.
      - AuthenticationError: an instance of the AuthenticationError class of
        app/dist/utils/auth.js (a GraphQLError named 'AuthenticationError').
      - AuthenticationErrorClass: the class object itself, thrown without `new`.
      - PlainError: `new Error(message)`.
      - DuplicateKey: a write refused by a unique index (email, vin).
      - ValidationFailed: a create refused because a required path was empty.
      - ValueError: Python's `ValueError(message)`. */
  datatype Failure =
    | AuthenticationError(message: string)
    | AuthenticationErrorClass
    | PlainError(message: string)
    | DuplicateKey(field: string)
    | ValidationFailed(field: string)
    | ValueError(message: string)

  datatype Result<+T> = Ok(value: T) | Err(error: Failure)
}
