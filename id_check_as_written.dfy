/**
 * The id check in MensagemServiceImpl.alterarMensagem compares two UUID
 * references with `!=`, so it asks whether they are the same object, not
 * whether they hold the same value. The message loaded from the store and the
 * message read from a request body never share their UUID object, so the check
 * as written refuses every update. Here the check is modelled on UUID objects
 * as written; the rest of the model uses Service.IdsDiffer, which compares
 * values.
 */
module IdCheckAsWritten {
  import opened Wrappers
  import opened Model
  import opened Exceptions
  import opened Service

  /** A java.util.UUID object: its identity on the heap and the value it holds. */
  datatype UuidObject = UuidObject(identity: nat, value: Uuid)

  function ValueOf(o: Option<UuidObject>): Option<Uuid> {
    if o.Some? then Some(o.value.value) else None
  }

  function IdentityOf(o: Option<UuidObject>): Option<nat> {
    if o.Some? then Some(o.value.identity) else None
  }

  /** `found.getId() != mensagem.getId()` on references: different objects, or one null. */
  predicate IdsDifferAsWritten(found: Option<UuidObject>, incoming: Option<UuidObject>) {
    IdentityOf(found) != IdentityOf(incoming)
  }

  /**
   * alterarMensagem(UUID, Mensagem) as written. `foundId` is the UUID object the
   * loaded entity holds and `incomingId` the one the request's message holds.
   */
  function AlterarAsWritten(rows: Table, id: Uuid, mensagem: Mensagem,
                            foundId: Option<UuidObject>, incomingId: Option<UuidObject>): Step<Mensagem>
    requires KeyedById(rows)
  {
    if id !in rows then Step(Thrown(MensagemNotFound(NAO_ENCONTRADA)), rows)
    else if IdsDifferAsWritten(foundId, incomingId) then Step(Thrown(MensagemNotFound(ID_INCORRETO)), rows)
    else
      var m := rows[id].(conteudo := mensagem.conteudo);
      Step(Ok(m), Saved(rows, m))
  }

  /**
   * An update that names the stored id, held in a UUID object other than the
   * stored one, is refused as written with "Mensagem não apresenta o ID
   * correto", while the value comparison accepts it and saves the new conteudo.
   */
  lemma AsWrittenRefusesMatchingId(rows: Table, id: Uuid, mensagem: Mensagem,
                                   foundId: UuidObject, incomingId: UuidObject)
    requires KeyedById(rows) && id in rows
    requires foundId.value == id && incomingId.value == id && mensagem.id == Some(id)
    requires foundId.identity != incomingId.identity
    ensures AlterarAsWritten(rows, id, mensagem, Some(foundId), Some(incomingId))
      == Step(Thrown(MensagemNotFound(ID_INCORRETO)), rows)
    ensures Alterar(rows, id, mensagem).result == Ok(rows[id].(conteudo := mensagem.conteudo))
  {
  }

  /**
   * The two checks agree whenever both messages share one UUID object, the only
   * case the code as written handles as intended.
   */
  lemma AgreeOnSharedObject(rows: Table, id: Uuid, mensagem: Mensagem,
                            foundId: Option<UuidObject>, incomingId: Option<UuidObject>)
    requires KeyedById(rows) && id in rows
    requires ValueOf(foundId) == rows[id].id && ValueOf(incomingId) == mensagem.id
    requires IdentityOf(foundId) == IdentityOf(incomingId)
    requires foundId.Some? && incomingId.Some? ==> foundId.value == incomingId.value
    ensures AlterarAsWritten(rows, id, mensagem, foundId, incomingId) == Alterar(rows, id, mensagem)
  {
  }
}
