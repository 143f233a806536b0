/**
 * What crosses the HTTP boundary (package org.example.dto): the error body and
 * the (status, body) pairs the controller and the exception handler produce.
 */
module Dto {
  import opened Model

  /** `ErrorResponse(message, errors)`. */
  datatype ErrorResponse = ErrorResponse(message: string, errors: seq<string>)

  /** The bodies a response can carry. */
  datatype Body =
    | MensagemBody(mensagem: Mensagem)
    | PageBody(page: Page)
    | ErrorBody(error: ErrorResponse)
    | TextBody(text: string)

  /** A ResponseEntity reduced to its status code and body. */
  datatype ResponseEntity = ResponseEntity(status: int, body: Body)

  const OK: int := 200
  const CREATED: int := 201
  const BAD_REQUEST: int := 400

  /** The body both the controller and ConverterId build for an unparsable id. */
  function UuidInvalido(): ErrorResponse {
    ErrorResponse("validation error", ["UUID inválido"])
  }
}

/**
 * The exceptions that leave the core (package org.example.exception and the two
 * framework exceptions the core raises or receives), and the outcome of a call
 * that may throw one.
 */
module Exceptions {
  import opened Model

  datatype Exception =
    /** MensagemNotFoundException(message). */
    | MensagemNotFound(message: string)
    /** MethodArgumentNotValidException: the binding result's field errors. */
    | MethodArgumentNotValid(fieldErrors: seq<FieldError>)
    /** IllegalArgumentException, as PageRequest.of throws it. */
    | IllegalArgument(message: string)

  /** A Java call either returns a value or throws. */
  datatype Outcome<+T> = Ok(value: T) | Thrown(exception: Exception)
}
