/**
 * The transaction form in the browser: the categories offered for the chosen
 * kind, the minor warning, the ordered guards run before anything is sent,
 * the category reset on a change of kind, and the form state after a send.
 */
module TransacoesPage {
  import opened Wrappers
  import opened Domain
  import opened Text
  import opened TransacaoService
  import Api

  /** The filter predicate of getCategoriasCompatíveis, in its own three cases. */
  predicate Compativel(c: Categoria, tipo: Tipo) {
    || c.finalidade == Finalidade.Ambas
    || (tipo == Tipo.Despesa && c.finalidade == Finalidade.Despesa)
    || (tipo == Tipo.Receita && c.finalidade == Finalidade.Receita)
  }

  /** The client's filter and the server's purpose rules agree on every category and kind. */
  lemma CompativelSseServidorAceita(c: Categoria, tipo: Tipo)
    ensures Compativel(c, tipo) <==> RegraCategoria(c.finalidade, tipo).None?
  {
  }

  /**
   * getCategoriasCompatíveis: the categories, in order, that accept the kind;
   * exactly the ones the server would not refuse for it.
   */
  function CategoriasCompativeis(categorias: seq<Categoria>, tipo: Tipo): (r: seq<Categoria>)
    ensures forall c :: c in r <==> c in categorias && RegraCategoria(c.finalidade, tipo).None?
    ensures forall c :: c in categorias && c.finalidade == Finalidade.Ambas ==> c in r
    ensures Subsequencia(r, categorias)
  {
    if categorias == [] then []
    else
      var rest := CategoriasCompativeis(categorias[1..], tipo);
      assert forall c :: c in categorias <==> c == categorias[0] || c in categorias[1..];
      if Compativel(categorias[0], tipo) then [categorias[0]] + rest
      else
        assert rest != [] ==> rest[0] != categorias[0] by {
          if rest != [] {
            assert rest[0] in rest;
          }
        }
        rest
  }

  /**
   * isPessoaMenorDeIdade: the first person with the selected id is under 18;
   * false when no person has that id.
   */
  function IsPessoaMenorDeIdade(pessoas: seq<Pessoa>, pessoaId: int): (r: bool)
    ensures r ==> exists p :: p in pessoas && p.id == pessoaId && p.idade < 18
    ensures pessoaId !in IdsPessoas(pessoas) ==> !r
  {
    var pessoa := FindPessoa(pessoas, pessoaId);
    assert pessoa.Some? ==> pessoa.value in pessoas;
    pessoa.Some? && pessoa.value.idade < 18
  }

  /** With unique ids the warning is shown exactly when the selected person exists and is under 18. */
  lemma MenorSseExistePessoaMenor(pessoas: seq<Pessoa>, pessoaId: int)
    requires PessoasOrdenadas(pessoas)
    ensures IsPessoaMenorDeIdade(pessoas, pessoaId) <==> exists p :: p in pessoas && p.id == pessoaId && p.idade < 18
  {
    if p :| p in pessoas && p.id == pessoaId && p.idade < 18 {
      FindPessoaUnica(pessoas, p);
    }
  }

  /**
   * The warning foretells the server's age rule: for income with an existing
   * category, the server refuses with the minor message exactly when the
   * warning is shown.
   */
  lemma AlertaPreveRecusa(pessoas: seq<Pessoa>, categorias: seq<Categoria>, t: Transacao)
    requires t.tipo == Tipo.Receita
    requires t.pessoaId in IdsPessoas(pessoas) && t.categoriaId in IdsCategorias(categorias)
    ensures IsPessoaMenorDeIdade(pessoas, t.pessoaId) <==> Verificar(pessoas, categorias, t) == Some(MenorRegistrandoReceita)
  {
  }

  const DescricaoObrigatoria: string := "A descrição é obrigatória"
  const ValorPositivo: string := "O valor deve ser maior que zero"
  const SelecionePessoa: string := "Selecione uma pessoa"
  const SelecioneCategoria: string := "Selecione uma categoria"
  const Sucesso: string := "Transação cadastrada com sucesso!"

  /** The form's initial and post-send contents: empty description, 0, Despesa, no person, no category. */
  const FormPadrao: TransacaoInput := TransacaoInput("", 0.0, Tipo.Despesa, 0, 0)

  predicate SoEspacos(s: string) {
    forall k :: 0 <= k < |s| ==> IsJsWhitespace(s[k])
  }

  /**
   * The guards of handleSubmit, in order; the first that fails gives its
   * message, and `None` means the form is sent.
   */
  function ValidarFormulario(f: TransacaoInput): Option<string> {
    if Trim(f.descricao) == [] then Some(DescricaoObrigatoria)
    else if f.valor <= 0.0 then Some(ValorPositivo)
    else if f.pessoaId == 0 then Some(SelecionePessoa)
    else if f.categoriaId == 0 then Some(SelecioneCategoria)
    else None
  }

  /**
   * The form is sent exactly when the description is not all white space,
   * the amount is positive and a person and a category are selected;
   * otherwise the first guard that fails, in that order, names the problem.
   */
  lemma GuardasDoFormulario(f: TransacaoInput)
    ensures ValidarFormulario(f).None? <==> !SoEspacos(f.descricao) && f.valor > 0.0 && f.pessoaId != 0 && f.categoriaId != 0
    ensures SoEspacos(f.descricao) ==> ValidarFormulario(f) == Some(DescricaoObrigatoria)
    ensures !SoEspacos(f.descricao) && f.valor <= 0.0 ==> ValidarFormulario(f) == Some(ValorPositivo)
    ensures !SoEspacos(f.descricao) && f.valor > 0.0 && f.pessoaId == 0 ==> ValidarFormulario(f) == Some(SelecionePessoa)
    ensures !SoEspacos(f.descricao) && f.valor > 0.0 && f.pessoaId != 0 && f.categoriaId == 0 ==>
              ValidarFormulario(f) == Some(SelecioneCategoria)
  {
  }

  /** The initial form is never sent as it stands. */
  lemma FormPadraoRecusado()
    ensures ValidarFormulario(FormPadrao) == Some(DescricaoObrigatoria)
  {
  }

  /** After a change of kind the form cannot be sent until a category is chosen again. */
  lemma TrocaDeTipoExigeCategoria(f: TransacaoInput, novo: Tipo)
    ensures ValidarFormulario(f.(tipo := novo, categoriaId := 0)).Some?
  {
    var g := f.(tipo := novo, categoriaId := 0);
    if Trim(g.descricao) != [] && g.valor > 0.0 && g.pessoaId != 0 {
      assert ValidarFormulario(g) == Some(SelecioneCategoria);
    }
  }

  /** The form's state: its contents and the error and success banners (`null` is `None`). */
  class TransacaoForm {
    var formData: TransacaoInput
    var error: Option<string>
    var success: Option<string>

    constructor ()
      ensures formData == FormPadrao && error.None? && success.None?
    {
      formData := FormPadrao;
      error := None;
      success := None;
    }

    /** handleTipoChange: set the kind and clear the category; nothing else changes. */
    method HandleTipoChange(novo: Tipo)
      modifies this
      ensures formData.tipo == novo && formData.categoriaId == 0
      ensures formData.descricao == old(formData.descricao) && formData.valor == old(formData.valor)
      ensures formData.pessoaId == old(formData.pessoaId)
      ensures error == old(error) && success == old(success)
    {
      formData := formData.(tipo := novo, categoriaId := 0);
    }

    /**
     * handleSubmit. A failing guard sets its message and sends nothing.
     * Otherwise the contents are sent as they are; `resultado` is what the
     * request came to (`None` when the transaction was created). On success
     * the banner is set, the form goes back to its defaults and the lists are
     * reloaded; `recarga` is what that reload came to, and a failed reload
     * shows its error while the banner stays. On a failed send the error text
     * read from the response by `getErrorMessage` is shown and the contents
     * stay.
     */
    method HandleSubmit(resultado: Option<Api.Erro>, recarga: Option<Api.Erro>) returns (enviado: Option<TransacaoInput>)
      modifies this
      ensures ValidarFormulario(old(formData)).Some? ==>
                && enviado.None?
                && error == ValidarFormulario(old(formData))
                && formData == old(formData) && success == old(success)
      ensures ValidarFormulario(old(formData)).None? ==> enviado == Some(old(formData))
      ensures ValidarFormulario(old(formData)).None? && resultado.None? ==>
                && formData == FormPadrao && success == Some(Sucesso)
                && (recarga.None? ==> error.None?)
                && (recarga.Some? ==> error == Some(Api.GetErrorMessage(recarga.value)))
      ensures ValidarFormulario(old(formData)).None? && resultado.Some? ==>
                && formData == old(formData) && success == old(success)
                && error == Some(Api.GetErrorMessage(resultado.value))
    {
      var guarda := ValidarFormulario(formData);
      if guarda.Some? {
        error := guarda;
        return None;
      }
      enviado := Some(formData);
      Concluir(resultado, recarga);
    }

    /** The part of handleSubmit after the guards: the send's outcome and, on success, the reload's. */
    method Concluir(resultado: Option<Api.Erro>, recarga: Option<Api.Erro>)
      modifies this
      ensures resultado.None? ==>
                && formData == FormPadrao && success == Some(Sucesso)
                && (recarga.None? ==> error.None?)
                && (recarga.Some? ==> error == Some(Api.GetErrorMessage(recarga.value)))
      ensures resultado.Some? ==>
                && formData == old(formData) && success == old(success)
                && error == Some(Api.GetErrorMessage(resultado.value))
    {
      error := None;
      match resultado
      case None =>
        success := Some(Sucesso);
        formData := FormPadrao;
        CarregarDados(recarga);
      case Some(falha) =>
        error := Some(Api.GetErrorMessage(falha));
    }

    /**
     * loadData as far as the form's banners go: the error is cleared, and a
     * failed load shows the text `getErrorMessage` reads from it.
     */
    method CarregarDados(falha: Option<Api.Erro>)
      modifies this
      ensures falha.None? ==> error.None?
      ensures falha.Some? ==> error == Some(Api.GetErrorMessage(falha.value))
      ensures formData == old(formData) && success == old(success)
    {
      error := None;
      if falha.Some? {
        error := Some(Api.GetErrorMessage(falha.value));
      }
    }
  }

  /**
   * The minor warning and the server agree, but the message does not reach
   * the form: for income by a person under 18 (with an existing category)
   * the server refuses with the minor rule, and the form shows the generic
   * 400 text instead of that rule's message.
   */
  lemma RecusaDoMenorSemRegra(pessoas: seq<Pessoa>, categorias: seq<Categoria>, t: Transacao, transporte: string)
    requires t.tipo == Tipo.Receita
    requires t.pessoaId in IdsPessoas(pessoas) && t.categoriaId in IdsCategorias(categorias)
    requires IsPessoaMenorDeIdade(pessoas, t.pessoaId)
    ensures Verificar(pessoas, categorias, t) == Some(MenorRegistrandoReceita)
    ensures Api.GetErrorMessage(Api.ErroDaRejeicao(transporte, MenorRegistrandoReceita)) == Api.DadosInvalidos
    ensures Api.GetErrorMessage(Api.ErroDaRejeicao(transporte, MenorRegistrandoReceita)) != Mensagem(MenorRegistrandoReceita)
  {
    AlertaPreveRecusa(pessoas, categorias, t);
    Api.RegraNuncaExibida(transporte, MenorRegistrandoReceita);
  }
}
