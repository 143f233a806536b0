# Message board core, modelled in Dafny

This project models the domain core of a small message-board backend. Messages (`Mensagem`) carry an id, an author (`usuario`), a text (`conteudo`), a creation time (`dataCriacao`) and a like counter (`gostei`). The model covers:

- the entity, its `@NotEmpty` validation and its Lombok builder (`model.dfy`, module `Model`);
- the error body and response pairs (`responses.dfy`, modules `Dto` and `Exceptions`);
- `MensagemServiceImpl` over a store that is a table from id to message (`service.dfy`, module `Service`);
- `MensagemController`, whose endpoints answer with a (status, body) pair or pass on the exception they raise (`controller.dfy`);
- `GlobalExceptionHandler`, which turns those exceptions into 400 answers (`handler.dfy`);
- `ConverterId`, the parse of a path id (`converter_id.dfy`, module `Utils`);
- the `LogParser` test utility's lookups over parsed log entries (`log_parser.dfy`, module `LogParsing`);
- one defect in the id check of `alterarMensagem` (`id_check_as_written.dfy`, module `IdCheckAsWritten`).

The service and the store are classes. The repository's table is a `map<Uuid, Mensagem>` field that `save` and `deleteById` reassign. Each service operation is also given as a function from the table before the call to the outcome and the table after it (`Service.Step`). Every service method is proved equal to its function. The lemmas state, about those functions, what the source promises:

- an absent key gives the not-found error and no write;
- nothing else in the table changes;
- a like moves the counter by exactly one;
- an update changes only `conteudo`.

A Java exception is a value here: `Exceptions.Outcome` is either `Ok(value)` or `Thrown(exception)`. `Handler.Handle` picks the advice's handler for an exception.

Three behaviours of the code are worth naming:

- Error texts are Portuguese and follow the implementation's capitalisation: "Mensagem não encontrada", although some tests expect the lower-case text.
- Not-found is answered 400.
- `criarMensagem` keeps the incoming `gostei`. A request body without `gostei` builds a message with 0 likes, because of the builder default.

The controller calls `alterarMensagem(Mensagem, Mensagem)` and `incrementarGostei(Mensagem)`. `MensagemServiceImpl` has only UUID-taking versions, and no implementation of these two signatures is part of this model. Their bodies here are therefore reconstructed, from the controller's calls and the integration test that exercises them:

- `AlterarMensagemDe` compares the ids by value, copies `conteudo` onto the looked-up message and saves it. If the real implementation used `!=` like MensagemServiceImpl.java:35, every PUT with a JSON body would be refused, as the finding below shows for the UUID-taking version.
- `IncrementarGosteiDe` adds one to `gostei` on the looked-up message and saves it.
- `Service.VariantsAgree` proves that these agree with the UUID-taking versions whenever their argument was just read from the store.

## Model

| member | source | states |
|---|---|---|
| `Model.ValidationErrors` | src/main/java/org/example/model/Mensagem.java:32-36 | no field error exactly when usuario and conteudo are both non-null and non-empty; a null or empty usuario yields "usuário não pode estar vazio" (listed first), a null or empty conteudo yields "conteúdo não pode estar vazio"; no other error is ever reported, and there is exactly one entry per failing field |
| `Model.GosteiDefaultsToZero` | src/main/java/org/example/model/Mensagem.java:42-43 | a message built without setting gostei has gostei 0 and the id, usuario and conteudo that were set |
| `Model.ToBuilderBuildCopies` | src/main/java/org/example/model/Mensagem.java:22 | toBuilder().build() returns a message equal to the original in all five fields |
| `Model.Int32Succ` | src/main/java/org/example/service/MensagemServiceImpl.java:53 | Java's int `+ 1`: the result is the int32 congruent to x + 1 modulo 2^32 |
| `Model.Int32SuccAddsOne` | src/main/java/org/example/service/MensagemServiceImpl.java:53 | one more below the int maximum; the int minimum at it |
| `Service.MensagemServiceImpl.CriarMensagem` | src/main/java/org/example/service/MensagemServiceImpl.java:20-23 | the result and the new table are those of `Criar`: the message with its id replaced by the generated one, saved under that id; the primary-key invariant is kept |
| `Service.CriarStampsNewId` | src/main/java/org/example/service/MensagemServiceImpl.java:20-23 | the created message has the generated id, the incoming usuario, conteudo and gostei, is stored under that id, every other row is unchanged, and on an id not yet stored the table grows by exactly one |
| `Service.MensagemServiceImpl.BuscarMensagem` | src/main/java/org/example/service/MensagemServiceImpl.java:26-29 | succeeds exactly when the id is stored, returning that row; otherwise throws not-found "Mensagem não encontrada"; writes nothing |
| `Service.BuscarFindsStored` | src/main/java/org/example/service/MensagemServiceImpl.java:26-29 | the lookup succeeds iff the id is stored, returns the row whose own id is the one asked for, and otherwise fails with "Mensagem não encontrada" |
| `Service.MensagemServiceImpl.AlterarMensagem` | src/main/java/org/example/service/MensagemServiceImpl.java:32-40 | the result and the new table are those of `Alterar` (lookup, id check, copy conteudo, save); the primary-key invariant is kept |
| `Service.AlterarSucceedsIff` | src/main/java/org/example/service/MensagemServiceImpl.java:32-37 | the update succeeds iff the id is stored and the incoming message carries that id; an absent id fails with "Mensagem não encontrada", a different incoming id with "Mensagem não apresenta o ID correto", and neither failure changes the table |
| `Service.AlterarChangesOnlyConteudo` | src/main/java/org/example/service/MensagemServiceImpl.java:38-39 | a successful update changes only conteudo: id, usuario, dataCriacao and gostei are kept, the row stays under its key and no other row changes |
| `Service.MensagemServiceImpl.ApagarMensagem` | src/main/java/org/example/service/MensagemServiceImpl.java:43-47 | the result and the new table are those of `Apagar` (lookup, then delete by id) |
| `Service.ApagarRemovesOnlyThatKey` | src/main/java/org/example/service/MensagemServiceImpl.java:43-47 | deleting a stored id removes exactly that key (the table shrinks by one) and keeps every other row; an absent id fails with "Mensagem não encontrada" and deletes nothing |
| `Service.BuscarAfterApagar` | src/main/java/org/example/service/MensagemServiceImpl.java:43-47 | after a delete, looking the same id up fails with "Mensagem não encontrada" |
| `Service.MensagemServiceImpl.IncrementarGostei` | src/main/java/org/example/service/MensagemServiceImpl.java:50-55 | the result and the new table are those of `Incrementar` (lookup, gostei + 1, save) |
| `Service.IncrementarAddsOne` | src/main/java/org/example/service/MensagemServiceImpl.java:50-55 | a like on a stored id succeeds, changes only the target's gostei, by exactly one below the int maximum, and no other row; an absent id fails with "Mensagem não encontrada" and saves nothing |
| `Service.LikesAccumulate` | src/main/java/org/example/service/MensagemServiceImpl.java:50-55 | n sequential likes on a stored message raise its gostei by exactly n (while that stays within int), keep the set of keys, its other fields and every other row |
| `Service.MensagemServiceImpl.ListarMensagens` | src/main/java/org/example/service/MensagemServiceImpl.java:58-60 | returns exactly the store's page for the given pageable and writes nothing |
| `Service.MensagemServiceImpl.AlterarMensagemDe` | src/main/java/org/example/controller/MensagemController.java:91 | the update on an already-found message: fails with "Mensagem não apresenta o ID correto" and no write when the ids differ, otherwise saves the found message with the new conteudo |
| `Service.MensagemServiceImpl.IncrementarGosteiDe` | src/main/java/org/example/controller/MensagemController.java:99 | the like on an already-found message: saves and returns it with gostei + 1 |
| `Service.VariantsAgree` | src/main/java/org/example/controller/MensagemController.java:90-91 | on a message just read from the store, the Mensagem-taking update and like give the same outcome and table as the UUID-taking ones |
| `Handler.FieldMessages` | src/main/java/org/example/handler/GlobalExceptionHandler.java:23-26 | one entry per field error, each that error's default message, in the binding result's order |
| `Handler.HandleMethodArgumentNotValidException` | src/main/java/org/example/handler/GlobalExceptionHandler.java:20-33 | answers 400 with message "Validation error" and the field errors' default messages, one per error in order |
| `Handler.HandledAsBadRequest` | src/main/java/org/example/handler/GlobalExceptionHandler.java:20-42 | both handlers answer 400, never 404; a not-found is answered "requição apresenta erro" with exactly its own message as the one error; a validation failure with "Validation error" and one message per field error; an IllegalArgumentException is not handled by the advice |
| `Handler.EmptyUsuarioAnswer` | src/test/java/org/example/controller/MensagemControllerTest.java:97-112 | a body with empty usuario and non-empty conteudo is answered 400 ("Validation error", ["usuário não pode estar vazio"]) |
| `Utils.ConverterId.constructor` | src/main/java/org/example/utils/ConverterId.java:17-32 | on a successful parse id is the parsed UUID and error is null; on a failed parse id is null and error is ("validation error", ["UUID inválido"]); nothing else is set |
| `Utils.ConverterId.Converter` | src/main/java/org/example/utils/ConverterId.java:25-32 | sets exactly one of id (the parse result) and error (the fixed body) |
| `Utils.ConverterId.HasError` | src/main/java/org/example/utils/ConverterId.java:21-23 | true exactly when no id was parsed, and then the error is the fixed "UUID inválido" body |
| `Controller.MensagemController.RegistrarMensagem` | src/main/java/org/example/controller/MensagemController.java:37-44 | an invalid body throws the validation exception with the message's field errors and never reaches the service; a valid one is created once and answered 201 with the created message |
| `Controller.MensagemController.BuscarMensagem` | src/main/java/org/example/controller/MensagemController.java:46-61 | an unparsable id is answered 400 ("validation error", ["UUID inválido"]) without a service call; a parsed stored id is answered 200 with exactly the stored message; a parsed absent id passes on not-found "Mensagem não encontrada" |
| `Controller.MensagemController.ListarMensagens` | src/main/java/org/example/controller/MensagemController.java:63-73 | page and size default to 0 and 10 and reach the store's query unchanged, answered 200 with its page; a negative page or a size below one throws IllegalArgumentException before the service is called |
| `Controller.MensagemController.AtualizarMensagem` | src/main/java/org/example/controller/MensagemController.java:75-93 | body validation first, then the id parse (400 "UUID inválido", no service call), then the lookup; the outcome and table are those of the update by id, so an absent id surfaces as not-found before any update is attempted |
| `Controller.MensagemController.IncrementarGostei` | src/main/java/org/example/controller/MensagemController.java:95-101 | looks the message up, then likes it; answered 200 with the liked message, or not-found with nothing saved |
| `Controller.MensagemController.ApagarMensagem` | src/main/java/org/example/controller/MensagemController.java:103-109 | an absent id passes on "Mensagem não encontrada" and deletes nothing; a stored id is removed and answered 200 "mensagem removida" |
| `Controller.AbsentIdAnswer` | src/main/java/org/example/handler/GlobalExceptionHandler.java:35-42 | lookup, update, like and delete of an absent id all end, once handled, in 400 ("requição apresenta erro", ["Mensagem não encontrada"]) |
| `LogParsing.LogParser.constructor` | src/test/java/org/example/utils/LogParser.java:15-40 | the entries are exactly the matches in match order, and size() is their number |
| `LogParsing.LogParser.ParseLogString` | src/test/java/org/example/utils/LogParser.java:20-36 | starts empty and appends every match, in order |
| `LogParsing.LogParser.FindMessage` | src/test/java/org/example/utils/LogParser.java:42-50 | returns a value in [-1, size()); a non-negative result is the smallest index whose entry has the message; -1 exactly when no entry has it |
| `LogParsing.LogParser.Contains` | src/test/java/org/example/utils/LogParser.java:52-54 | true exactly when some entry carries the message |
| `IdCheckAsWritten.AsWrittenRefusesMatchingId` | src/main/java/org/example/service/MensagemServiceImpl.java:35-37 | with the check as written, an update naming the stored id through a different UUID object fails with "Mensagem não apresenta o ID correto", while the value comparison accepts it and saves the new conteudo |
| `IdCheckAsWritten.AgreeOnSharedObject` | src/main/java/org/example/service/MensagemServiceImpl.java:35-37 | when both messages hold the same UUID object, the check as written and the value comparison give the same outcome and table |

## Findings

| source | as written | input that shows it | evidently intended | confidence | as-written member | corrected member |
|---|---|---|---|---|---|---|
| src/main/java/org/example/service/MensagemServiceImpl.java:35 | `mensageEncontrada.getId() != mensagem.getId()` compares two `UUID` references | a stored message with id u, loaded by the repository into its own UUID object, and a request message whose id is the same value u in another object: the update throws "Mensagem não apresenta o ID correto" | compare the id values (`equals`), so that an update naming the stored id succeeds | not executed; the unit test at src/test/java/org/example/service/MensagemServiceTest.java:116-142 passes only because both messages share one UUID object | `IdCheckAsWritten.AsWrittenRefusesMatchingId` | `Service.AlterarSucceedsIff` |

## Left out

- Spring routing, content types and headers are not modelled. Neither is the JSON (de)serialization, including the `dataCriacao` pattern. Answers are (status, body) values.
- `UUID.fromString` is an injected partial function (`Utils.UuidParser`). Its grammar belongs to the library.
- `UUID.randomUUID()` becomes the `randomId` parameter of `CriarMensagem`. The source does not check that it is fresh, so the model states only that a fresh id grows the table by one.
- `@CreationTimestamp` is not modelled: `dataCriacao` is opaque and saved as given.
- The store's paginated query is an injected function (`MensagemRepository.listQuery`), because its query and ordering are not shown. The `Page` envelope keeps only content, number, size and total.
- `Model.ValidationErrors` lists failing fields in declaration order. The bean validator does not guarantee an order when both fields fail.
- The entity is a value. The in-place setters (`setId`, `setConteudo`, `setGostei`) therefore do not alias: in Java, `criarMensagem` also overwrites the id of the caller's object.
- The UUID-typed path variables of `incrementarGostei` and `apagarMensagem`, and the int query parameters of `listarMensagens`, arrive already converted. A conversion failure is answered by the framework, not by this core.
- `MensagemRepository.Save` requires a non-null id. Hibernate refuses to save an entity with a null, unassigned id, and every caller in the model passes one.
- The lost-update race of read-then-write in update and like is not modelled. The model is sequential.
- Logging (`log.info`) and the captured-output assertions of the tests are not modelled.
- The regular-expression matching in `LogParser.parseLogString` is not modelled. The matched entries are an input.
- `Handler.ValidationAnswer`, `Handler.HandleMensagemExistenteException`, `Handler.Handle`, `Controller.Respond` and `LogParsing.LogParser.Size` have no contract of their own. What they compute is stated by `Handler.HandledAsBadRequest`, `Controller.AbsentIdAnswer` and the controller and `LogParser` method contracts.
- The following are not part of this model:
  - the `MensagemService` interface and the repository interface;
  - `MensagemRequest`, `ValidationException`, `PerformanceMetrics` and `MensagemHelper`;
  - the mocks and HTTP test harnesses.
