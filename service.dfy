/**
 * The message service (MensagemServiceImpl) over the store gateway
 * (MensagemRepository).
 *
 * The store is a table from id to message. Each service operation is first
 * given as a function from the table before the call to its outcome and the
 * table after it (a Step); the methods of MensagemServiceImpl are proved equal to
 * these functions, and the lemmas at the end state what the source promises
 * about them: the not-found error on an absent key, that nothing else changes,
 * and that a like moves the counter by exactly one.
 */
module Service {
  import opened Wrappers
  import opened Model
  import opened Exceptions

  type Table = map<Uuid, Mensagem>

  /** The store's paginated query; its ordering and SQL are not part of the model. */
  type PageQuery = (Table, Pageable) -> Page

  const NAO_ENCONTRADA: string := "Mensagem não encontrada"
  const ID_INCORRETO: string := "Mensagem não apresenta o ID correto"

  /** The primary-key invariant of the store: every row sits under its own id. */
  predicate KeyedById(rows: Table) {
    forall k :: k in rows ==> rows[k].id == Some(k)
  }

  /** `save(m)`: inserts, or overwrites, the row under `m`'s id. */
  function Saved(rows: Table, m: Mensagem): (r: Table)
    requires m.id.Some?
    ensures r.Keys == rows.Keys + {m.id.value}
    ensures r[m.id.value] == m
    ensures forall k :: k in rows && k != m.id.value ==> r[k] == rows[k]
    ensures KeyedById(rows) ==> KeyedById(r)
  {
    rows[m.id.value := m]
  }

  /** The outcome of one service call and the table it leaves behind. */
  datatype Step<+T> = Step(result: Outcome<T>, rows: Table)

  // ---------------------------------------------------------------------------
  // The operations as functions of the table
  // ---------------------------------------------------------------------------

  /** criarMensagem: overwrite the id with a freshly generated one, then save. */
  function Criar(rows: Table, mensagem: Mensagem, randomId: Uuid): Step<Mensagem> {
    var m := mensagem.(id := Some(randomId));
    Step(Ok(m), Saved(rows, m))
  }

  /** buscarMensagem: the stored message, or not-found. */
  function Buscar(rows: Table, id: Uuid): Outcome<Mensagem> {
    if id in rows then Ok(rows[id]) else Thrown(MensagemNotFound(NAO_ENCONTRADA))
  }

  /**
   * The id check before an update, comparing the two ids as values (a null id
   * equals only a null id).
   */
  predicate IdsDiffer(found: Option<Uuid>, incoming: Option<Uuid>) {
    found != incoming
  }

  /** alterarMensagem(UUID, Mensagem): lookup, id check, copy conteudo only, save. */
  function Alterar(rows: Table, id: Uuid, mensagem: Mensagem): Step<Mensagem>
    requires KeyedById(rows)
  {
    if id !in rows then Step(Thrown(MensagemNotFound(NAO_ENCONTRADA)), rows)
    else
      var encontrada := rows[id];
      if IdsDiffer(encontrada.id, mensagem.id) then Step(Thrown(MensagemNotFound(ID_INCORRETO)), rows)
      else
        var m := encontrada.(conteudo := mensagem.conteudo);
        Step(Ok(m), Saved(rows, m))
  }

  /** apagarMensagem: lookup, then delete by id. */
  function Apagar(rows: Table, id: Uuid): Step<()> {
    if id !in rows then Step(Thrown(MensagemNotFound(NAO_ENCONTRADA)), rows)
    else Step(Ok(()), rows - {id})
  }

  /** incrementarGostei(UUID): lookup, `gostei + 1` on a Java int, save. */
  function Incrementar(rows: Table, id: Uuid): Step<Mensagem>
    requires KeyedById(rows)
  {
    if id !in rows then Step(Thrown(MensagemNotFound(NAO_ENCONTRADA)), rows)
    else
      var m := rows[id].(gostei := Int32Succ(rows[id].gostei));
      Step(Ok(m), Saved(rows, m))
  }

  /**
   * alterarMensagem(Mensagem, Mensagem), the signature the controller calls:
   * the id check against an already-found message, then copy conteudo and save.
   */
  function AlterarDe(rows: Table, antiga: Mensagem, nova: Mensagem): Step<Mensagem>
    requires antiga.id.Some?
  {
    if IdsDiffer(antiga.id, nova.id) then Step(Thrown(MensagemNotFound(ID_INCORRETO)), rows)
    else
      var m := antiga.(conteudo := nova.conteudo);
      Step(Ok(m), Saved(rows, m))
  }

  /** incrementarGostei(Mensagem), the signature the controller calls. */
  function IncrementarDe(rows: Table, mensagem: Mensagem): Step<Mensagem>
    requires mensagem.id.Some?
  {
    var m := mensagem.(gostei := Int32Succ(mensagem.gostei));
    Step(Ok(m), Saved(rows, m))
  }

  // ---------------------------------------------------------------------------
  // The store gateway and the service
  // ---------------------------------------------------------------------------

  /** MensagemRepository: the table and the paginated query over it. */
  class MensagemRepository {
    var rows: Table
    const listQuery: PageQuery

    ghost predicate Valid()
      reads this
    {
      KeyedById(rows)
    }

    constructor (listQuery: PageQuery)
      ensures rows == map[] && this.listQuery == listQuery
      ensures Valid()
    {
      rows := map[];
      this.listQuery := listQuery;
    }

    method FindById(id: Uuid) returns (r: Option<Mensagem>)
      ensures r.Some? <==> id in rows
      ensures r.Some? ==> r.value == rows[id]
    {
      r := if id in rows then Some(rows[id]) else None;
    }

    method Save(m: Mensagem) returns (saved: Mensagem)
      requires m.id.Some?
      modifies this
      ensures rows == Saved(old(rows), m) && saved == m
    {
      rows := rows[m.id.value := m];
      saved := m;
    }

    method DeleteById(id: Uuid)
      modifies this
      ensures rows == old(rows) - {id}
    {
      rows := rows - {id};
    }

    method ListarMensagens(pageable: Pageable) returns (page: Page)
      ensures page == listQuery(rows, pageable)
    {
      page := listQuery(rows, pageable);
    }
  }

  /** MensagemServiceImpl over an injected repository. */
  class MensagemServiceImpl {
    const mensagemRepository: MensagemRepository

    constructor (mensagemRepository: MensagemRepository)
      ensures this.mensagemRepository == mensagemRepository
    {
      this.mensagemRepository := mensagemRepository;
    }

    /** `randomId` stands for the value UUID.randomUUID() returns. */
    method CriarMensagem(mensagem: Mensagem, randomId: Uuid) returns (r: Mensagem)
      requires mensagemRepository.Valid()
      modifies mensagemRepository
      ensures mensagemRepository.Valid()
      ensures Step(Ok(r), mensagemRepository.rows) == Criar(old(mensagemRepository.rows), mensagem, randomId)
    {
      var m := mensagem.(id := Some(randomId));
      r := mensagemRepository.Save(m);
    }

    method BuscarMensagem(id: Uuid) returns (r: Outcome<Mensagem>)
      ensures r.Ok? <==> id in mensagemRepository.rows
      ensures r.Ok? ==> r.value == mensagemRepository.rows[id]
      ensures r.Thrown? ==> r.exception == MensagemNotFound(NAO_ENCONTRADA)
    {
      var found := mensagemRepository.FindById(id);
      if found.None? {
        return Thrown(MensagemNotFound(NAO_ENCONTRADA));
      }
      r := Ok(found.value);
    }

    method AlterarMensagem(id: Uuid, mensagem: Mensagem) returns (r: Outcome<Mensagem>)
      requires mensagemRepository.Valid()
      modifies mensagemRepository
      ensures mensagemRepository.Valid()
      ensures Step(r, mensagemRepository.rows) == Alterar(old(mensagemRepository.rows), id, mensagem)
    {
      var found := mensagemRepository.FindById(id);
      if found.None? {
        return Thrown(MensagemNotFound(NAO_ENCONTRADA));
      }
      var encontrada := found.value;
      if IdsDiffer(encontrada.id, mensagem.id) {
        return Thrown(MensagemNotFound(ID_INCORRETO));
      }
      encontrada := encontrada.(conteudo := mensagem.conteudo);
      var saved := mensagemRepository.Save(encontrada);
      r := Ok(saved);
    }

    method ApagarMensagem(id: Uuid) returns (r: Outcome<()>)
      requires mensagemRepository.Valid()
      modifies mensagemRepository
      ensures mensagemRepository.Valid()
      ensures Step(r, mensagemRepository.rows) == Apagar(old(mensagemRepository.rows), id)
    {
      var found := mensagemRepository.FindById(id);
      if found.None? {
        return Thrown(MensagemNotFound(NAO_ENCONTRADA));
      }
      mensagemRepository.DeleteById(id);
      r := Ok(());
    }

    method IncrementarGostei(id: Uuid) returns (r: Outcome<Mensagem>)
      requires mensagemRepository.Valid()
      modifies mensagemRepository
      ensures mensagemRepository.Valid()
      ensures Step(r, mensagemRepository.rows) == Incrementar(old(mensagemRepository.rows), id)
    {
      var found := mensagemRepository.FindById(id);
      if found.None? {
        return Thrown(MensagemNotFound(NAO_ENCONTRADA));
      }
      var encontrada := found.value;
      encontrada := encontrada.(gostei := Int32Succ(encontrada.gostei));
      var saved := mensagemRepository.Save(encontrada);
      r := Ok(saved);
    }

    /** Pure delegation to the store's page query: no filtering, no reordering, no write. */
    method ListarMensagens(pageable: Pageable) returns (page: Page)
      ensures page == mensagemRepository.listQuery(mensagemRepository.rows, pageable)
    {
      page := mensagemRepository.ListarMensagens(pageable);
    }

    /** The update the controller calls, on a message it has already looked up. */
    method AlterarMensagemDe(antiga: Mensagem, nova: Mensagem) returns (r: Outcome<Mensagem>)
      requires mensagemRepository.Valid() && antiga.id.Some?
      modifies mensagemRepository
      ensures mensagemRepository.Valid()
      ensures Step(r, mensagemRepository.rows) == AlterarDe(old(mensagemRepository.rows), antiga, nova)
    {
      if IdsDiffer(antiga.id, nova.id) {
        return Thrown(MensagemNotFound(ID_INCORRETO));
      }
      var m := antiga.(conteudo := nova.conteudo);
      var saved := mensagemRepository.Save(m);
      r := Ok(saved);
    }

    /** The like the controller calls, on a message it has already looked up. */
    method IncrementarGosteiDe(mensagem: Mensagem) returns (r: Outcome<Mensagem>)
      requires mensagemRepository.Valid() && mensagem.id.Some?
      modifies mensagemRepository
      ensures mensagemRepository.Valid()
      ensures Step(r, mensagemRepository.rows) == IncrementarDe(old(mensagemRepository.rows), mensagem)
    {
      var m := mensagem.(gostei := Int32Succ(mensagem.gostei));
      var saved := mensagemRepository.Save(m);
      r := Ok(saved);
    }
  }

  // ---------------------------------------------------------------------------
  // What the operations promise
  // ---------------------------------------------------------------------------

  /**
   * criarMensagem ignores any incoming id, keeps usuario and conteudo, and
   * stores the result under the new id; on a fresh id the store grows by one.
   */
  lemma CriarStampsNewId(rows: Table, mensagem: Mensagem, randomId: Uuid)
    requires KeyedById(rows)
    ensures var s := Criar(rows, mensagem, randomId);
      && s.result.Ok?
      && s.result.value.id == Some(randomId)
      && s.result.value.usuario == mensagem.usuario
      && s.result.value.conteudo == mensagem.conteudo
      && s.result.value.gostei == mensagem.gostei
      && randomId in s.rows && s.rows[randomId] == s.result.value
      && (forall k :: k in rows && k != randomId ==> k in s.rows && s.rows[k] == rows[k])
      && KeyedById(s.rows)
      && (randomId !in rows ==> |s.rows| == |rows| + 1)
  {
  }

  /** buscarMensagem succeeds exactly on a stored id, and returns that row. */
  lemma BuscarFindsStored(rows: Table, id: Uuid)
    requires KeyedById(rows)
    ensures Buscar(rows, id).Ok? <==> id in rows
    ensures Buscar(rows, id).Ok? ==> Buscar(rows, id).value == rows[id] && Buscar(rows, id).value.id == Some(id)
    ensures Buscar(rows, id).Thrown? ==> Buscar(rows, id).exception == MensagemNotFound(NAO_ENCONTRADA)
  {
  }

  /**
   * alterarMensagem succeeds exactly when the id is stored and the incoming
   * message carries that same id; each failure names its cause and writes nothing.
   */
  lemma AlterarSucceedsIff(rows: Table, id: Uuid, mensagem: Mensagem)
    requires KeyedById(rows)
    ensures Alterar(rows, id, mensagem).result.Ok? <==> id in rows && mensagem.id == Some(id)
    ensures id !in rows ==> Alterar(rows, id, mensagem) == Step(Thrown(MensagemNotFound(NAO_ENCONTRADA)), rows)
    ensures id in rows && mensagem.id != Some(id) ==>
      Alterar(rows, id, mensagem) == Step(Thrown(MensagemNotFound(ID_INCORRETO)), rows)
  {
  }

  /**
   * A successful alterarMensagem changes only conteudo, of only the target row,
   * which stays under the same key.
   */
  lemma AlterarChangesOnlyConteudo(rows: Table, id: Uuid, mensagem: Mensagem)
    requires KeyedById(rows)
    requires Alterar(rows, id, mensagem).result.Ok?
    ensures var s := Alterar(rows, id, mensagem); var old_ := rows[id]; var new_ := s.result.value;
      && id in rows
      && new_.conteudo == mensagem.conteudo
      && new_.id == old_.id && new_.usuario == old_.usuario
      && new_.dataCriacao == old_.dataCriacao && new_.gostei == old_.gostei
      && s.rows == rows[id := new_]
      && KeyedById(s.rows)
  {
  }

  /**
   * apagarMensagem on a stored id removes exactly that key; on an absent id it
   * fails with not-found and deletes nothing.
   */
  lemma ApagarRemovesOnlyThatKey(rows: Table, id: Uuid)
    requires KeyedById(rows)
    ensures var s := Apagar(rows, id);
      && (s.result.Ok? <==> id in rows)
      && (id in rows ==> s.rows.Keys == rows.Keys - {id} && |s.rows| == |rows| - 1)
      && (forall k :: k in rows && k != id ==> k in s.rows && s.rows[k] == rows[k])
      && (id !in rows ==> s == Step(Thrown(MensagemNotFound(NAO_ENCONTRADA)), rows))
      && KeyedById(s.rows)
  {
  }

  /** After a delete, looking the id up fails with not-found. */
  lemma BuscarAfterApagar(rows: Table, id: Uuid)
    ensures Buscar(Apagar(rows, id).rows, id) == Thrown(MensagemNotFound(NAO_ENCONTRADA))
  {
  }

  /**
   * incrementarGostei raises gostei of the target by exactly one (below the int
   * maximum) and changes no other field and no other row; on an absent id it
   * fails with not-found and saves nothing.
   */
  lemma IncrementarAddsOne(rows: Table, id: Uuid)
    requires KeyedById(rows)
    ensures var s := Incrementar(rows, id);
      && (s.result.Ok? <==> id in rows)
      && (id !in rows ==> s == Step(Thrown(MensagemNotFound(NAO_ENCONTRADA)), rows))
      && (id in rows ==>
            && s.rows == rows[id := s.result.value]
            && s.result.value == rows[id].(gostei := s.result.value.gostei)
            && (rows[id].gostei < INT32_MAX ==> s.result.value.gostei as int == rows[id].gostei as int + 1))
      && KeyedById(s.rows)
  {
  }

  /** `n` successive likes, none interleaved with another write. */
  function LikedTimes(rows: Table, id: Uuid, n: nat): Table
    requires KeyedById(rows)
    decreases n
  {
    if n == 0 then rows
    else
      IncrementarAddsOne(rows, id);
      LikedTimes(Incrementar(rows, id).rows, id, n - 1)
  }

  /**
   * `n` sequential likes on a stored message raise its gostei by exactly `n`
   * (short of the int maximum) and leave every other field and row as it was.
   */
  lemma {:induction false} LikesAccumulate(rows: Table, id: Uuid, n: nat)
    requires KeyedById(rows) && id in rows
    requires rows[id].gostei as int + n <= INT32_MAX as int
    ensures var after := LikedTimes(rows, id, n);
      && after.Keys == rows.Keys
      && after[id] == rows[id].(gostei := after[id].gostei)
      && after[id].gostei as int == rows[id].gostei as int + n
      && (forall k :: k in rows && k != id ==> after[k] == rows[k])
  {
    if n > 0 {
      IncrementarAddsOne(rows, id);
      var next := Incrementar(rows, id).rows;
      LikesAccumulate(next, id, n - 1);
    }
  }

  /**
   * The variant signatures the controller calls agree with the UUID-based ones
   * whenever their message argument was just looked up in the store.
   */
  lemma VariantsAgree(rows: Table, id: Uuid, nova: Mensagem)
    requires KeyedById(rows) && id in rows
    ensures AlterarDe(rows, rows[id], nova) == Alterar(rows, id, nova)
    ensures IncrementarDe(rows, rows[id]) == Incrementar(rows, id)
  {
  }
}
