/** The JSON answers of the handlers, reduced to what the model distinguishes. */
module Http {

  /** An error status with the response's message, or a success status with its payload. */
  datatype Reply<T> = Fail(status: nat, message: string) | Ok(status: nat, body: T)
}
