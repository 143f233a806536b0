/** Option, the stock stand-in for a Java reference that may be null. */
module Wrappers {

  datatype Option<+T> = None | Some(value: T) {

    /** The value, or `default` when absent. */
    function GetOr(default: T): T {
      match this
      case Some(v) => v
      case None => default
    }
  }
}

/**
 * The entity of the message board (package org.example.model): the Mensagem record,
 * its declarative field validation, its Lombok builder with the `gostei` default,
 * and the paging types of the store.
 */
module Model {
  import opened Wrappers

  /** java.util.UUID as a value: its two 64-bit halves. */
  datatype Uuid = Uuid(mostSigBits: bv64, leastSigBits: bv64)

  /** LocalDateTime, kept opaque: the model never computes with it. */
  datatype Timestamp = Timestamp(epochNanos: int)

  /** Java's 32-bit `int`. */
  newtype int32 = x: int | -0x8000_0000 <= x < 0x8000_0000

  const INT32_MAX: int32 := 0x7fff_ffff
  const INT32_MIN: int32 := -0x8000_0000

  /**
   * Java's `x + 1` on an `int`: the one int32 congruent to x + 1 modulo 2^32,
   * so it wraps from the largest value to the smallest.
   */
  function Int32Succ(x: int32): (r: int32)
    ensures (r as int - (x as int + 1)) % 0x1_0000_0000 == 0
  {
    if x == INT32_MAX then INT32_MIN else x + 1
  }

  /** Below the int maximum the successor is one more; at it, the int minimum. */
  lemma Int32SuccAddsOne(x: int32)
    ensures x < INT32_MAX ==> Int32Succ(x) as int == x as int + 1
    ensures x == INT32_MAX ==> Int32Succ(x) == INT32_MIN
  {
  }

  /**
   * A message. Every reference-typed field may be null in Java, hence the Options;
   * `gostei` is a primitive int. Equality is structural, as Lombok's @Data
   * equals compares all five fields.
   */
  datatype Mensagem = Mensagem(
    id: Option<Uuid>,
    usuario: Option<string>,
    conteudo: Option<string>,
    dataCriacao: Option<Timestamp>,
    gostei: int32)

  // ---------------------------------------------------------------------------
  // Lombok @Builder(toBuilder = true) with @Builder.Default on gostei
  // ---------------------------------------------------------------------------

  /** A builder: each field remembers whether it was set. */
  datatype MensagemBuilder = MensagemBuilder(
    id: Option<Uuid>,
    usuario: Option<string>,
    conteudo: Option<string>,
    dataCriacao: Option<Timestamp>,
    gostei: Option<int32>)

  /** `Mensagem.builder()`: nothing set yet. */
  function Builder(): MensagemBuilder {
    MensagemBuilder(None, None, None, None, None)
  }

  /** `build()`: unset reference fields stay null; an unset `gostei` takes its default. */
  function Build(b: MensagemBuilder): Mensagem {
    Mensagem(b.id, b.usuario, b.conteudo, b.dataCriacao, b.gostei.GetOr(GOSTEI_DEFAULT))
  }

  const GOSTEI_DEFAULT: int32 := 0

  /** `toBuilder()`: a builder with every field set from `m`. */
  function ToBuilder(m: Mensagem): MensagemBuilder {
    MensagemBuilder(m.id, m.usuario, m.conteudo, m.dataCriacao, Some(m.gostei))
  }

  /** A message built without `gostei` starts at zero likes. */
  lemma GosteiDefaultsToZero(b: MensagemBuilder)
    requires b.gostei == None
    ensures Build(b).gostei == 0
    ensures Build(b).id == b.id && Build(b).usuario == b.usuario && Build(b).conteudo == b.conteudo
  {
  }

  /** `m.toBuilder().build()` is a field-for-field copy of `m`. */
  lemma ToBuilderBuildCopies(m: Mensagem)
    ensures Build(ToBuilder(m)) == m
  {
  }

  // ---------------------------------------------------------------------------
  // Bean validation (@NotEmpty on usuario and conteudo)
  // ---------------------------------------------------------------------------

  /** One failed constraint: the field and the constraint's message. */
  datatype FieldError = FieldError(field: string, defaultMessage: string)

  const USUARIO_VAZIO: string := "usuário não pode estar vazio"
  const CONTEUDO_VAZIO: string := "conteúdo não pode estar vazio"

  /** @NotEmpty on a String: neither null nor of length zero. */
  predicate NotEmpty(s: Option<string>) {
    s.Some? && |s.value| > 0
  }

  /**
   * The field errors validation reports for `m`, in declaration order
   * (usuario before conteudo).
   */
  function ValidationErrors(m: Mensagem): (errs: seq<FieldError>)
    ensures errs == [] <==> NotEmpty(m.usuario) && NotEmpty(m.conteudo)
    ensures FieldError("usuario", USUARIO_VAZIO) in errs <==> !NotEmpty(m.usuario)
    ensures FieldError("conteudo", CONTEUDO_VAZIO) in errs <==> !NotEmpty(m.conteudo)
    ensures forall e :: e in errs ==> e == FieldError("usuario", USUARIO_VAZIO) || e == FieldError("conteudo", CONTEUDO_VAZIO)
    ensures !NotEmpty(m.usuario) ==> errs[0] == FieldError("usuario", USUARIO_VAZIO)
    ensures |errs| == (if NotEmpty(m.usuario) then 0 else 1) + (if NotEmpty(m.conteudo) then 0 else 1)
  {
    (if NotEmpty(m.usuario) then [] else [FieldError("usuario", USUARIO_VAZIO)])
    + (if NotEmpty(m.conteudo) then [] else [FieldError("conteudo", CONTEUDO_VAZIO)])
  }

  /** A message passes @Valid exactly when validation reports no field error. */
  predicate IsValid(m: Mensagem) {
    ValidationErrors(m) == []
  }

  // ---------------------------------------------------------------------------
  // Paging (Spring Data's Pageable / Page, as values)
  // ---------------------------------------------------------------------------

  /** `PageRequest.of(page, size)`: a zero-based page number and a positive size. */
  datatype Pageable = PageRequest(pageNumber: nat, pageSize: nat)

  /** The page envelope: the slice of messages plus its metadata. */
  datatype Page = Page(content: seq<Mensagem>, number: nat, size: nat, totalElements: nat)
}
