/**
 * MensagemController: each endpoint parses its path id, lets field validation
 * refuse a bad body, and calls the service, answering with a (status, body)
 * pair or passing the service's exception on to GlobalExceptionHandler.
 */
module Controller {
  import opened Wrappers
  import opened Model
  import opened Dto
  import opened Exceptions
  import opened Service
  import opened Utils
  import Handler

  const REMOVIDA: string := "mensagem removida"
  const DEFAULT_PAGE: int32 := 0
  const DEFAULT_SIZE: int32 := 10

  /** The texts PageRequest.of throws with. */
  const PAGE_INDEX_NEGATIVE: string := "Page index must not be less than zero"
  const PAGE_SIZE_TOO_SMALL: string := "Page size must not be less than one"

  /** A service outcome as the endpoint's answer: the message with `status`, or the same exception. */
  function Respond(o: Outcome<Mensagem>, status: int): Outcome<ResponseEntity> {
    match o
    case Ok(m) => Ok(ResponseEntity(status, MensagemBody(m)))
    case Thrown(e) => Thrown(e)
  }

  class MensagemController {
    const mensagemService: MensagemServiceImpl
    const fromString: UuidParser

    constructor (mensagemService: MensagemServiceImpl, fromString: UuidParser)
      ensures this.mensagemService == mensagemService && this.fromString == fromString
    {
      this.mensagemService := mensagemService;
      this.fromString := fromString;
    }

    /**
     * POST /mensagens. An invalid body is refused before the service is reached;
     * a valid one is created once and answered 201.
     */
    method RegistrarMensagem(mensagem: Mensagem, randomId: Uuid) returns (r: Outcome<ResponseEntity>)
      requires mensagemService.mensagemRepository.Valid()
      modifies mensagemService.mensagemRepository
      ensures mensagemService.mensagemRepository.Valid()
      ensures !IsValid(mensagem) ==>
        && r == Thrown(MethodArgumentNotValid(ValidationErrors(mensagem)))
        && mensagemService.mensagemRepository.rows == old(mensagemService.mensagemRepository.rows)
      ensures IsValid(mensagem) ==>
        var s := Criar(old(mensagemService.mensagemRepository.rows), mensagem, randomId);
        && r == Respond(s.result, CREATED)
        && mensagemService.mensagemRepository.rows == s.rows
    {
      if !IsValid(mensagem) {
        return Thrown(MethodArgumentNotValid(ValidationErrors(mensagem)));
      }
      var criada := mensagemService.CriarMensagem(mensagem, randomId);
      r := Ok(ResponseEntity(CREATED, MensagemBody(criada)));
    }

    /**
     * GET /mensagens/{id}. An unparsable id is answered 400 without calling the
     * service; otherwise the stored message is answered 200, or not-found is
     * passed on unchanged.
     */
    method BuscarMensagem(id: string) returns (r: Outcome<ResponseEntity>)
      ensures fromString(id) == None ==> r == Ok(ResponseEntity(BAD_REQUEST, ErrorBody(UuidInvalido())))
      ensures fromString(id).Some? ==>
        var u := fromString(id).value;
        && (u in mensagemService.mensagemRepository.rows ==>
              r == Ok(ResponseEntity(OK, MensagemBody(mensagemService.mensagemRepository.rows[u]))))
        && (u !in mensagemService.mensagemRepository.rows ==>
              r == Thrown(MensagemNotFound(NAO_ENCONTRADA)))
    {
      var parsed := fromString(id);
      if parsed == None {
        return Ok(ResponseEntity(BAD_REQUEST, ErrorBody(ErrorResponse("validation error", ["UUID inválido"]))));
      }
      var encontrada := mensagemService.BuscarMensagem(parsed.value);
      r := Respond(encontrada, OK);
    }

    /**
     * GET /mensagens?page=&size=. Absent parameters default to 0 and 10 and are
     * passed unchanged to the service; PageRequest.of refuses a negative page or
     * a size below one.
     */
    method ListarMensagens(page: Option<int32>, size: Option<int32>) returns (r: Outcome<ResponseEntity>)
      ensures var p := page.GetOr(DEFAULT_PAGE); var s := size.GetOr(DEFAULT_SIZE);
        && (p < 0 ==> r == Thrown(IllegalArgument(PAGE_INDEX_NEGATIVE)))
        && (p >= 0 && s < 1 ==> r == Thrown(IllegalArgument(PAGE_SIZE_TOO_SMALL)))
        && (p >= 0 && s >= 1 ==>
              var repo := mensagemService.mensagemRepository;
              r == Ok(ResponseEntity(OK, PageBody(repo.listQuery(repo.rows, PageRequest(p as nat, s as nat))))))
    {
      var p := page.GetOr(DEFAULT_PAGE);
      var s := size.GetOr(DEFAULT_SIZE);
      if p < 0 {
        return Thrown(IllegalArgument(PAGE_INDEX_NEGATIVE));
      }
      if s < 1 {
        return Thrown(IllegalArgument(PAGE_SIZE_TOO_SMALL));
      }
      var pageable := PageRequest(p as nat, s as nat);
      var mensagens := mensagemService.ListarMensagens(pageable);
      r := Ok(ResponseEntity(OK, PageBody(mensagens)));
    }

    /**
     * PUT /mensagens/{id}. Body validation first, then the id parse, then the
     * lookup, so a missing message surfaces as not-found before any update; the
     * outcome and the new table are those of the service's update by id.
     */
    method AtualizarMensagem(id: string, mensagem: Mensagem) returns (r: Outcome<ResponseEntity>)
      requires mensagemService.mensagemRepository.Valid()
      modifies mensagemService.mensagemRepository
      ensures mensagemService.mensagemRepository.Valid()
      ensures !IsValid(mensagem) ==>
        && r == Thrown(MethodArgumentNotValid(ValidationErrors(mensagem)))
        && mensagemService.mensagemRepository.rows == old(mensagemService.mensagemRepository.rows)
      ensures IsValid(mensagem) && fromString(id) == None ==>
        && r == Ok(ResponseEntity(BAD_REQUEST, ErrorBody(UuidInvalido())))
        && mensagemService.mensagemRepository.rows == old(mensagemService.mensagemRepository.rows)
      ensures IsValid(mensagem) && fromString(id).Some? ==>
        var s := Alterar(old(mensagemService.mensagemRepository.rows), fromString(id).value, mensagem);
        && r == Respond(s.result, OK)
        && mensagemService.mensagemRepository.rows == s.rows
    {
      if !IsValid(mensagem) {
        return Thrown(MethodArgumentNotValid(ValidationErrors(mensagem)));
      }
      var parsed := fromString(id);
      if parsed == None {
        return Ok(ResponseEntity(BAD_REQUEST, ErrorBody(ErrorResponse("validation error", ["UUID inválido"]))));
      }
      var antiga := mensagemService.BuscarMensagem(parsed.value);
      if antiga.Thrown? {
        return Thrown(antiga.exception);
      }
      VariantsAgree(mensagemService.mensagemRepository.rows, parsed.value, mensagem);
      var atualizada := mensagemService.AlterarMensagemDe(antiga.value, mensagem);
      r := Respond(atualizada, OK);
    }

    /**
     * PUT /mensagens/{id}/gostei. Lookup, then like; answered 200 with the liked
     * message, or not-found with nothing saved.
     */
    method IncrementarGostei(id: Uuid) returns (r: Outcome<ResponseEntity>)
      requires mensagemService.mensagemRepository.Valid()
      modifies mensagemService.mensagemRepository
      ensures mensagemService.mensagemRepository.Valid()
      ensures var s := Incrementar(old(mensagemService.mensagemRepository.rows), id);
        && r == Respond(s.result, OK)
        && mensagemService.mensagemRepository.rows == s.rows
    {
      var mensagem := mensagemService.BuscarMensagem(id);
      if mensagem.Thrown? {
        return Thrown(mensagem.exception);
      }
      VariantsAgree(mensagemService.mensagemRepository.rows, id, mensagem.value);
      var atualizada := mensagemService.IncrementarGosteiDe(mensagem.value);
      r := Respond(atualizada, OK);
    }

    /**
     * DELETE /mensagens/{id}. Existence is checked first, so a missing id is
     * answered not-found and nothing is deleted; otherwise the row goes and the
     * answer is 200 "mensagem removida".
     */
    method ApagarMensagem(id: Uuid) returns (r: Outcome<ResponseEntity>)
      requires mensagemService.mensagemRepository.Valid()
      modifies mensagemService.mensagemRepository
      ensures mensagemService.mensagemRepository.Valid()
      ensures id !in old(mensagemService.mensagemRepository.rows) ==>
        && r == Thrown(MensagemNotFound(NAO_ENCONTRADA))
        && mensagemService.mensagemRepository.rows == old(mensagemService.mensagemRepository.rows)
      ensures id in old(mensagemService.mensagemRepository.rows) ==>
        && r == Ok(ResponseEntity(OK, TextBody(REMOVIDA)))
        && mensagemService.mensagemRepository.rows == old(mensagemService.mensagemRepository.rows) - {id}
    {
      var encontrada := mensagemService.BuscarMensagem(id);
      if encontrada.Thrown? {
        return Thrown(encontrada.exception);
      }
      var apagada := mensagemService.ApagarMensagem(id);
      assert apagada == Ok(());
      r := Ok(ResponseEntity(OK, TextBody(REMOVIDA)));
    }
  }

  /**
   * Looking up, updating, liking or deleting an absent id ends, once the
   * handler has answered, in 400 ("requição apresenta erro", ["Mensagem não encontrada"]).
   */
  lemma AbsentIdAnswer(rows: Table, id: Uuid, mensagem: Mensagem)
    requires KeyedById(rows) && id !in rows
    ensures var answer := Some(ResponseEntity(BAD_REQUEST,
                                ErrorBody(ErrorResponse(Handler.REQUISICAO_ERRO, [NAO_ENCONTRADA]))));
      && Handler.Handle(Buscar(rows, id).exception) == answer
      && Handler.Handle(Alterar(rows, id, mensagem).result.exception) == answer
      && Handler.Handle(Incrementar(rows, id).result.exception) == answer
      && Handler.Handle(Apagar(rows, id).result.exception) == answer
  {
  }
}
