/**
 * GlobalExceptionHandler: the translation of the exceptions that leave a
 * controller method into (status, ErrorResponse) answers.
 */
module Handler {
  import opened Wrappers
  import opened Model
  import opened Dto
  import opened Exceptions

  const VALIDATION_ERROR: string := "Validation error"
  const REQUISICAO_ERRO: string := "requição apresenta erro"

  /** The default message of each field error, one per error, in the binding result's order. */
  function FieldMessages(fieldErrors: seq<FieldError>): (msgs: seq<string>)
    ensures |msgs| == |fieldErrors|
    ensures forall i :: 0 <= i < |fieldErrors| ==> msgs[i] == fieldErrors[i].defaultMessage
  {
    if fieldErrors == [] then [] else [fieldErrors[0].defaultMessage] + FieldMessages(fieldErrors[1..])
  }

  /** The answer to a validation failure: 400, "Validation error" and the field messages. */
  function ValidationAnswer(fieldErrors: seq<FieldError>): ResponseEntity {
    ResponseEntity(BAD_REQUEST, ErrorBody(ErrorResponse(VALIDATION_ERROR, FieldMessages(fieldErrors))))
  }

  /** handleMethodArgumentNotValidException: collect the messages in a loop, answer 400. */
  method HandleMethodArgumentNotValidException(ex: Exception) returns (r: ResponseEntity)
    requires ex.MethodArgumentNotValid?
    ensures r == ValidationAnswer(ex.fieldErrors)
  {
    var fieldErrors := ex.fieldErrors;
    var errors: seq<string> := [];
    for i := 0 to |fieldErrors|
      invariant |errors| == i
      invariant forall j :: 0 <= j < i ==> errors[j] == fieldErrors[j].defaultMessage
    {
      errors := errors + [fieldErrors[i].defaultMessage];
    }
    assert errors == FieldMessages(fieldErrors);
    r := ResponseEntity(BAD_REQUEST, ErrorBody(ErrorResponse(VALIDATION_ERROR, errors)));
  }

  /** handleMensagemExistenteException: the exception's message as the only error, answer 400. */
  function HandleMensagemExistenteException(ex: Exception): ResponseEntity
    requires ex.MensagemNotFound?
  {
    ResponseEntity(BAD_REQUEST, ErrorBody(ErrorResponse(REQUISICAO_ERRO, [ex.message])))
  }

  /**
   * Which handler of the advice answers an exception; None when none is
   * declared for it and the framework's default answer applies.
   */
  function Handle(ex: Exception): Option<ResponseEntity> {
    match ex
    case MethodArgumentNotValid(fieldErrors) => Some(ValidationAnswer(fieldErrors))
    case MensagemNotFound(_) => Some(HandleMensagemExistenteException(ex))
    case IllegalArgument(_) => None
  }

  /**
   * Both handlers answer 400, never 404: a validation failure carries one entry
   * per field error, a not-found carries exactly its own message.
   */
  lemma HandledAsBadRequest(ex: Exception)
    ensures Handle(ex).Some? <==> !ex.IllegalArgument?
    ensures Handle(ex).Some? ==> Handle(ex).value.status == BAD_REQUEST && Handle(ex).value.body.ErrorBody?
    ensures ex.MensagemNotFound? ==>
      Handle(ex).value.body.error == ErrorResponse(REQUISICAO_ERRO, [ex.message])
    ensures ex.MethodArgumentNotValid? ==>
      && Handle(ex).value.body.error.message == VALIDATION_ERROR
      && |Handle(ex).value.body.error.errors| == |ex.fieldErrors|
      && (forall i :: 0 <= i < |ex.fieldErrors| ==>
            Handle(ex).value.body.error.errors[i] == ex.fieldErrors[i].defaultMessage)
  {
  }

  /**
   * A message posted with an empty usuario and a non-empty conteudo is answered
   * 400 with the usuario message as the only error.
   */
  lemma EmptyUsuarioAnswer(conteudo: string)
    requires |conteudo| > 0
    ensures var m := Build(Builder().(usuario := Some(""), conteudo := Some(conteudo)));
      Handle(MethodArgumentNotValid(ValidationErrors(m)))
        == Some(ResponseEntity(BAD_REQUEST, ErrorBody(ErrorResponse(VALIDATION_ERROR, [USUARIO_VAZIO]))))
  {
    var m := Build(Builder().(usuario := Some(""), conteudo := Some(conteudo)));
    assert ValidationErrors(m) == [FieldError("usuario", USUARIO_VAZIO)];
    assert FieldMessages(ValidationErrors(m)) == [USUARIO_VAZIO];
  }
}
