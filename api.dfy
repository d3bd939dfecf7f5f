/**
 * The client's reading of a failed request: which text the page shows for an
 * error, by a fixed priority over the shape of the error. A body given as a
 * non-empty string wins, then a `message` field, then a non-empty `errors`
 * list; failing those, the status picks a fixed text, and failing that the
 * transport's own message.
 *
 * The back end answers a refused transaction with the body
 * `{ "mensagem": ... }`, a field this chain never reads. `GetErrorMessage`
 * is the chain as written, the one the pages use; `GetErrorMessageCorrigida`
 * also reads `mensagem`, as that body evidently calls for.
 */
module Api {
  import opened Wrappers
  import opened Text
  import TransacaoService

  /** A response body as the client sees it after JSON decoding. */
  datatype Corpo =
    | SemCorpo
    | Texto(texto: string)
    | Objeto(message: Option<string>, errors: Option<seq<string>>, mensagem: Option<string>)

  datatype Resposta = Resposta(status: int, data: Corpo)

  /** What a failed call throws: something other than an HTTP-client error, or one, with or without a response. */
  datatype Erro =
    | NaoAxios
    | Axios(message: string, response: Option<Resposta>)

  const DadosInvalidos: string := "Dados inválidos. Verifique os campos e tente novamente."
  const RegistroNaoEncontrado: string := "Registro não encontrado."
  const ErroInterno: string := "Erro interno do servidor. Tente novamente mais tarde."
  const ErroComunicacao: string := "Erro ao comunicar com o servidor."
  const ErroInesperado: string := "Ocorreu um erro inesperado."

  /** JavaScript truthiness of an optional string field: present and not empty. */
  predicate Preenchido(s: Option<string>) {
    s.Some? && s.value != ""
  }

  predicate TemErros(data: Corpo) {
    data.Objeto? && data.errors.Some? && |data.errors.value| > 0
  }

  /** The body step of the chain as written: a non-empty string, else `message`, else the joined `errors`. */
  function MensagemDoCorpo(data: Corpo): (r: Option<string>)
    ensures data.SemCorpo? ==> r.None?
    ensures data.Texto? ==> (r.Some? <==> data.texto != "") && (r.Some? ==> r.value == data.texto)
    ensures data.Objeto? && Preenchido(data.message) ==> r == data.message
    ensures data.Objeto? && !Preenchido(data.message) ==>
              (r.Some? <==> TemErros(data)) && (r.Some? ==> r.value == JoinWith(data.errors.value, ", "))
  {
    match data
    case SemCorpo => None
    case Texto(s) => if s != "" then Some(s) else None
    case Objeto(message, errors, _) =>
      if Preenchido(message) then message
      else if errors.Some? && |errors.value| > 0 then Some(JoinWith(errors.value, ", "))
      else None
  }

  /** The status step: fixed texts for 400, 404 and 500, otherwise the transport message or a fallback. */
  function MensagemDoStatus(response: Option<Resposta>, message: string): (r: string)
    ensures response.Some? && response.value.status == 400 ==> r == DadosInvalidos
    ensures response.Some? && response.value.status == 404 ==> r == RegistroNaoEncontrado
    ensures response.Some? && response.value.status == 500 ==> r == ErroInterno
    ensures (response.None? || response.value.status !in {400, 404, 500}) ==>
              r == if message != "" then message else ErroComunicacao
  {
    if response.Some? && response.value.status == 400 then DadosInvalidos
    else if response.Some? && response.value.status == 404 then RegistroNaoEncontrado
    else if response.Some? && response.value.status == 500 then ErroInterno
    else if message != "" then message
    else ErroComunicacao
  }

  /** `getErrorMessage` as written. */
  function GetErrorMessage(e: Erro): (r: string)
    ensures e.NaoAxios? ==> r == ErroInesperado
    ensures e.Axios? && e.response.Some? && MensagemDoCorpo(e.response.value.data).Some? ==>
              r == MensagemDoCorpo(e.response.value.data).value
    ensures e.Axios? && (e.response.None? || MensagemDoCorpo(e.response.value.data).None?) ==>
              r == MensagemDoStatus(e.response, e.message)
  {
    match e
    case NaoAxios => ErroInesperado
    case Axios(message, response) =>
      if response.Some? && MensagemDoCorpo(response.value.data).Some? then MensagemDoCorpo(response.value.data).value
      else MensagemDoStatus(response, message)
  }

  /** The `mensagem` field is never consulted: removing it changes nothing. */
  lemma IgnoraMensagem(message: string, status: int, m: Option<string>, erros: Option<seq<string>>, mensagem: Option<string>)
    ensures GetErrorMessage(Axios(message, Some(Resposta(status, Objeto(m, erros, mensagem)))))
            == GetErrorMessage(Axios(message, Some(Resposta(status, Objeto(m, erros, None)))))
  {
  }

  /** The body of `BadRequest(new { mensagem = ... })` once decoded. */
  function CorpoBadRequest(mensagem: string): (c: Corpo)
    ensures c.Objeto? && c.mensagem == Some(mensagem) && !Preenchido(c.message) && !TemErros(c)
  {
    Objeto(None, None, Some(mensagem))
  }

  /** The error a refused creation raises on the client: a 400 carrying the rule's message. */
  function ErroDaRejeicao(transporte: string, e: TransacaoService.Rejeicao): Erro {
    Axios(transporte, Some(Resposta(400, CorpoBadRequest(TransacaoService.Mensagem(e)))))
  }

  /**
   * As written, every business-rule refusal is shown as the generic 400 text,
   * which is none of the rule messages.
   */
  lemma RegraNuncaExibida(transporte: string, e: TransacaoService.Rejeicao)
    ensures GetErrorMessage(ErroDaRejeicao(transporte, e)) == DadosInvalidos
    ensures GetErrorMessage(ErroDaRejeicao(transporte, e)) != TransacaoService.Mensagem(e)
    ensures TransacaoService.RejeicaoDaMensagem(GetErrorMessage(ErroDaRejeicao(transporte, e))).None?
  {
    assert |DadosInvalidos| == 55;
    TransacaoService.MensagemIdentificaRegra(e);
    assert |TransacaoService.Mensagem(e)| <= 45;
  }

  /** The body step with `mensagem` read after `message`, as the API's error body requires. */
  function MensagemDoCorpoCorrigida(data: Corpo): (r: Option<string>)
    ensures data.Objeto? && !Preenchido(data.message) && Preenchido(data.mensagem) ==> r == data.mensagem
    ensures !(data.Objeto? && !Preenchido(data.message) && Preenchido(data.mensagem)) ==> r == MensagemDoCorpo(data)
  {
    match data
    case Objeto(message, _, mensagem) =>
      if !Preenchido(message) && Preenchido(mensagem) then mensagem else MensagemDoCorpo(data)
    case _ => MensagemDoCorpo(data)
  }

  /** `getErrorMessage` with the `mensagem` field read. */
  function GetErrorMessageCorrigida(e: Erro): (r: string)
    ensures e.NaoAxios? ==> r == ErroInesperado
    ensures e.Axios? && e.response.Some? && MensagemDoCorpoCorrigida(e.response.value.data).Some? ==>
              r == MensagemDoCorpoCorrigida(e.response.value.data).value
    ensures e.Axios? && (e.response.None? || MensagemDoCorpoCorrigida(e.response.value.data).None?) ==>
              r == MensagemDoStatus(e.response, e.message)
  {
    match e
    case NaoAxios => ErroInesperado
    case Axios(message, response) =>
      if response.Some? && MensagemDoCorpoCorrigida(response.value.data).Some? then
        MensagemDoCorpoCorrigida(response.value.data).value
      else MensagemDoStatus(response, message)
  }

  /** With the correction, each refusal shows its own rule message, and the rule can be read back from it. */
  lemma CorrigidaExibeRegra(transporte: string, e: TransacaoService.Rejeicao)
    ensures GetErrorMessageCorrigida(ErroDaRejeicao(transporte, e)) == TransacaoService.Mensagem(e)
    ensures TransacaoService.RejeicaoDaMensagem(GetErrorMessageCorrigida(ErroDaRejeicao(transporte, e))) == Some(e)
  {
    TransacaoService.MensagemIdentificaRegra(e);
    assert TransacaoService.Mensagem(e) != "";
  }

  /** The correction changes nothing for an error whose body has no filled `mensagem`. */
  lemma CorrigidaConservaOResto(e: Erro)
    requires e.Axios? && e.response.Some? && e.response.value.data.Objeto? ==> !Preenchido(e.response.value.data.mensagem)
    ensures GetErrorMessageCorrigida(e) == GetErrorMessage(e)
  {
  }
}
