/**
 * Transaction creation: two reference lookups and three business rules,
 * checked in a fixed order, and the insert that happens only when all pass.
 * A rejection is the exception the service throws, carried here as a value.
 */
module TransacaoService {
  import opened Wrappers
  import opened Domain
  import opened AppDb

  datatype Rejeicao =
    | PessoaNaoEncontrada
    | CategoriaNaoEncontrada
    | MenorRegistrandoReceita
    | CategoriaNaoAceitaReceitas
    | CategoriaNaoAceitaDespesas

  /** The exception message of each rejection. */
  function Mensagem(e: Rejeicao): string {
    match e
    case PessoaNaoEncontrada => "Pessoa não encontrada"
    case CategoriaNaoEncontrada => "Categoria não encontrada"
    case MenorRegistrandoReceita => "Menores de idade não podem registrar receitas"
    case CategoriaNaoAceitaReceitas => "Categoria não aceita receitas"
    case CategoriaNaoAceitaDespesas => "Categoria não aceita despesas"
  }

  /** The rejection a message names, read back the way a client comparing messages would. */
  function RejeicaoDaMensagem(m: string): Option<Rejeicao> {
    if m == "Pessoa não encontrada" then Some(PessoaNaoEncontrada)
    else if m == "Categoria não encontrada" then Some(CategoriaNaoEncontrada)
    else if m == "Menores de idade não podem registrar receitas" then Some(MenorRegistrandoReceita)
    else if m == "Categoria não aceita receitas" then Some(CategoriaNaoAceitaReceitas)
    else if m == "Categoria não aceita despesas" then Some(CategoriaNaoAceitaDespesas)
    else None
  }

  /** Each message identifies its rule: distinct rejections carry distinct messages. */
  lemma MensagemIdentificaRegra(e: Rejeicao)
    ensures RejeicaoDaMensagem(Mensagem(e)) == Some(e)
  {
    // The five messages have lengths 21, 24, 45, 29 and 29; the last two differ at index 21.
    assert |Mensagem(PessoaNaoEncontrada)| == 21;
    assert |Mensagem(CategoriaNaoEncontrada)| == 24;
    assert |Mensagem(MenorRegistrandoReceita)| == 45;
    assert |Mensagem(CategoriaNaoAceitaReceitas)| == 29;
    assert |Mensagem(CategoriaNaoAceitaDespesas)| == 29;
    assert Mensagem(CategoriaNaoAceitaReceitas)[21] == 'r';
    assert Mensagem(CategoriaNaoAceitaDespesas)[21] == 'd';
  }

  /** The compatibility rule between a category's purpose and a kind: Ambas accepts both, otherwise the names match. */
  predicate AceitaTipo(f: Finalidade, t: Tipo) {
    match f
    case Ambas => true
    case Despesa => t == Tipo.Despesa
    case Receita => t == Tipo.Receita
  }

  /** The age rule: income needs an age of 18 or more. */
  predicate PodeRegistrar(idade: int, t: Tipo) {
    t == Tipo.Receita ==> idade >= 18
  }

  /** The purpose checks alone, in their order (income refused first, then expense). */
  function RegraCategoria(f: Finalidade, t: Tipo): (r: Option<Rejeicao>)
    ensures r.None? <==> AceitaTipo(f, t)
    ensures r.Some? ==> r.value == (if t == Tipo.Receita then CategoriaNaoAceitaReceitas else CategoriaNaoAceitaDespesas)
  {
    if f == Finalidade.Despesa && t == Tipo.Receita then Some(CategoriaNaoAceitaReceitas)
    else if f == Finalidade.Receita && t == Tipo.Despesa then Some(CategoriaNaoAceitaDespesas)
    else None
  }

  /**
   * The checks of `Criar` before the insert, returning the first rejection.
   * A transaction passes exactly when its person and category exist and the
   * age and purpose rules admit its kind.
   */
  function Verificar(pessoas: seq<Pessoa>, categorias: seq<Categoria>, t: Transacao): (r: Option<Rejeicao>)
    ensures r.None? <==>
              && FindPessoa(pessoas, t.pessoaId).Some?
              && FindCategoria(categorias, t.categoriaId).Some?
              && PodeRegistrar(FindPessoa(pessoas, t.pessoaId).value.idade, t.tipo)
              && AceitaTipo(FindCategoria(categorias, t.categoriaId).value.finalidade, t.tipo)
    ensures r.None? ==> t.pessoaId in IdsPessoas(pessoas) && t.categoriaId in IdsCategorias(categorias)
  {
    match FindPessoa(pessoas, t.pessoaId)
    case None => Some(PessoaNaoEncontrada)
    case Some(p) =>
      match FindCategoria(categorias, t.categoriaId)
      case None => Some(CategoriaNaoEncontrada)
      case Some(c) =>
        if p.idade < 18 && t.tipo == Tipo.Receita then Some(MenorRegistrandoReceita)
        else RegraCategoria(c.finalidade, t.tipo)
  }

  /** A missing person is reported first, whatever the category. */
  lemma PessoaAusenteVence(pessoas: seq<Pessoa>, categorias: seq<Categoria>, t: Transacao)
    requires t.pessoaId !in IdsPessoas(pessoas)
    ensures Verificar(pessoas, categorias, t) == Some(PessoaNaoEncontrada)
  {
  }

  /** With the person present, a missing category is reported next. */
  lemma CategoriaAusente(pessoas: seq<Pessoa>, categorias: seq<Categoria>, t: Transacao)
    requires t.pessoaId in IdsPessoas(pessoas)
    requires t.categoriaId !in IdsCategorias(categorias)
    ensures Verificar(pessoas, categorias, t) == Some(CategoriaNaoEncontrada)
  {
  }

  /**
   * A minor recording income is refused with the age message, whatever the
   * category's purpose: the age rule runs before the purpose rules.
   */
  lemma MenorAntesDaCategoria(pessoas: seq<Pessoa>, categorias: seq<Categoria>, t: Transacao)
    requires FindPessoa(pessoas, t.pessoaId).Some? && FindPessoa(pessoas, t.pessoaId).value.idade < 18
    requires t.categoriaId in IdsCategorias(categorias)
    requires t.tipo == Tipo.Receita
    ensures Verificar(pessoas, categorias, t) == Some(MenorRegistrandoReceita)
  {
  }

  /** The age rule never refuses someone of 18 or more, nor an expense. */
  lemma IdadeSoRecusaMenorComReceita(pessoas: seq<Pessoa>, categorias: seq<Categoria>, t: Transacao)
    requires Verificar(pessoas, categorias, t) == Some(MenorRegistrandoReceita)
    ensures FindPessoa(pessoas, t.pessoaId).value.idade < 18 && t.tipo == Tipo.Receita
  {
  }

  /** With both references present and the age rule met, the purpose rules decide. */
  lemma CategoriaDecide(pessoas: seq<Pessoa>, categorias: seq<Categoria>, t: Transacao)
    requires FindPessoa(pessoas, t.pessoaId).Some?
    requires FindCategoria(categorias, t.categoriaId).Some?
    requires PodeRegistrar(FindPessoa(pessoas, t.pessoaId).value.idade, t.tipo)
    ensures Verificar(pessoas, categorias, t) == RegraCategoria(FindCategoria(categorias, t.categoriaId).value.finalidade, t.tipo)
  {
  }

  /** Only the references and the kind matter: description and amount are never checked. */
  lemma ValorNaoVerificado(pessoas: seq<Pessoa>, categorias: seq<Categoria>, t: Transacao, descricao: string, valor: real)
    ensures Verificar(pessoas, categorias, t.(descricao := descricao, valor := valor)) == Verificar(pessoas, categorias, t)
  {
  }

  /**
   * Every stored transaction would pass the checks again against the current
   * tables: its person and category exist and admit its kind.
   */
  ghost predicate RegrasRespeitadas(pessoas: seq<Pessoa>, categorias: seq<Categoria>, transacoes: seq<Transacao>) {
    forall t :: t in transacoes ==> Verificar(pessoas, categorias, t).None?
  }

  /** A transaction that passes the checks keeps the invariant when appended. */
  lemma RegrasAposAdicionar(pessoas: seq<Pessoa>, categorias: seq<Categoria>, transacoes: seq<Transacao>, t: Transacao)
    requires RegrasRespeitadas(pessoas, categorias, transacoes)
    requires Verificar(pessoas, categorias, t).None?
    ensures RegrasRespeitadas(pessoas, categorias, transacoes + [t])
  {
  }

  /** The row just appended under a fresh id is the one a lookup of that id finds. */
  lemma FindTransacaoNova(transacoes: seq<Transacao>, salva: Transacao)
    requires salva.id !in IdsTransacoes(transacoes)
    ensures FindTransacao(transacoes + [salva], salva.id) == Some(salva)
  {
    var encontrada := FindTransacao(transacoes + [salva], salva.id);
    assert encontrada.value in transacoes + [salva];
    assert forall x :: x in transacoes ==> x.id in IdsTransacoes(transacoes);
  }

  /**
   * `Criar`: reject with the first failing check and leave the store as it
   * was, or insert the transaction under a fresh id and return the stored row
   * joined with its person and category.
   */
  method Criar(db: AppDbContext, t: Transacao) returns (r: Result<TransacaoDetalhada, Rejeicao>)
    requires db.Valid()
    modifies db
    ensures db.Valid()
    ensures RegrasRespeitadas(old(db.pessoas), old(db.categorias), old(db.transacoes)) ==>
              RegrasRespeitadas(db.pessoas, db.categorias, db.transacoes)
    ensures db.pessoas == old(db.pessoas) && db.categorias == old(db.categorias)
    ensures db.proximoPessoaId == old(db.proximoPessoaId) && db.proximoCategoriaId == old(db.proximoCategoriaId)
    ensures r.Failure? ==> db.proximoTransacaoId == old(db.proximoTransacaoId)
    ensures r.Success? ==> db.proximoTransacaoId == old(db.proximoTransacaoId) + 1
    ensures r.Failure? <==> Verificar(old(db.pessoas), old(db.categorias), t).Some?
    ensures r.Failure? ==> r.error == Verificar(old(db.pessoas), old(db.categorias), t).value
                           && db.transacoes == old(db.transacoes)
    ensures r.Success? ==>
              && r.value.transacao == t.(id := old(db.proximoTransacaoId))
              && r.value.transacao.id !in IdsTransacoes(old(db.transacoes))
              && db.transacoes == old(db.transacoes) + [r.value.transacao]
              && r.value.pessoa in db.pessoas && r.value.pessoa.id == t.pessoaId
              && r.value.categoria in db.categorias && r.value.categoria.id == t.categoriaId
              && r.value == Detalhar(db.pessoas, db.categorias, r.value.transacao)
  {
    var rejeicao := Verificar(db.pessoas, db.categorias, t);
    if rejeicao.Some? {
      return Failure(rejeicao.value);
    }
    ghost var antes := db.transacoes;
    var salva := db.AdicionarTransacao(t);
    FindTransacaoNova(antes, salva);
    var encontrada := FindTransacao(db.transacoes, salva.id);
    if RegrasRespeitadas(db.pessoas, db.categorias, antes) {
      RegrasAposAdicionar(db.pessoas, db.categorias, antes, salva);
    }
    r := Success(Detalhar(db.pessoas, db.categorias, encontrada.value));
  }
}
