/**
 * The transaction endpoints: POST maps the body onto a new entity, hands it to
 * the service and answers 201 with the stored record or 400 with the
 * rejection's message; GET lists every transaction joined with its person and
 * category.
 */
module TransacoesController {
  import opened Wrappers
  import opened Domain
  import opened AppDb
  import opened TransacaoService

  datatype RespostaCriar =
    | Created(id: int, corpo: TransacaoDetalhada)
    | BadRequest(mensagem: string)

  /** The entity built from the body; the id is left for the store to assign. */
  function ParaEntidade(dto: TransacaoInput): (t: Transacao)
    ensures ParaInput(t) == dto
  {
    Transacao(0, dto.descricao, dto.valor, dto.tipo, dto.pessoaId, dto.categoriaId)
  }

  /** The fields of a transaction that travel in a request body. */
  function ParaInput(t: Transacao): TransacaoInput {
    TransacaoInput(t.descricao, t.valor, t.tipo, t.pessoaId, t.categoriaId)
  }

  /** Only the id is lost on the way to the entity and back. */
  lemma EntidadeSoPerdeId(t: Transacao)
    ensures ParaEntidade(ParaInput(t)) == t.(id := 0)
  {
  }

  /**
   * Each stored transaction joined with its person and category, in table
   * order (the two `Include`s).
   */
  function Juntar(pessoas: seq<Pessoa>, categorias: seq<Categoria>, ts: seq<Transacao>): (r: seq<TransacaoDetalhada>)
    requires forall t :: t in ts ==> t.pessoaId in IdsPessoas(pessoas) && t.categoriaId in IdsCategorias(categorias)
    ensures |r| == |ts|
    ensures forall i :: 0 <= i < |ts| ==>
              && r[i].transacao == ts[i]
              && r[i].pessoa in pessoas && r[i].pessoa.id == ts[i].pessoaId
              && r[i].categoria in categorias && r[i].categoria.id == ts[i].categoriaId
  {
    if ts == [] then []
    else
      var n := |ts| - 1;
      Juntar(pessoas, categorias, ts[..n]) + [Detalhar(pessoas, categorias, ts[n])]
  }

  /** GET /transacoes: every transaction of the store, joined, in table order. */
  function Listar(db: AppDbContext): (r: seq<TransacaoDetalhada>)
    reads db
    requires db.Valid()
    ensures |r| == |db.transacoes|
    ensures forall i :: 0 <= i < |r| ==>
              && r[i].transacao == db.transacoes[i]
              && r[i].pessoa in db.pessoas && r[i].pessoa.id == db.transacoes[i].pessoaId
              && r[i].categoria in db.categorias && r[i].categoria.id == db.transacoes[i].categoriaId
  {
    Juntar(db.pessoas, db.categorias, db.transacoes)
  }

  /** With unique ids, the person a listed row carries is the one stored person with that id. */
  lemma ListarPessoaUnica(db: AppDbContext, i: int, p: Pessoa)
    requires db.Valid()
    requires 0 <= i < |db.transacoes|
    requires p in db.pessoas && p.id == db.transacoes[i].pessoaId
    ensures Listar(db)[i].pessoa == p
  {
    var q := Listar(db)[i].pessoa;
    FindPessoaUnica(db.pessoas, p);
    FindPessoaUnica(db.pessoas, q);
  }

  /** A row appended to the table is joined and listed last, after the rows joined before. */
  lemma JuntarAposAdicionar(pessoas: seq<Pessoa>, categorias: seq<Categoria>, antes: seq<Transacao>, d: TransacaoDetalhada)
    requires forall t :: t in antes + [d.transacao] ==>
               t.pessoaId in IdsPessoas(pessoas) && t.categoriaId in IdsCategorias(categorias)
    requires d == Detalhar(pessoas, categorias, d.transacao)
    ensures Juntar(pessoas, categorias, antes + [d.transacao]) == Juntar(pessoas, categorias, antes) + [d]
  {
    assert (antes + [d.transacao])[..|antes|] == antes;
  }

  /**
   * POST /transacoes. The body's fields go to the service unchanged; a
   * rejection becomes 400 with its message and leaves the store as it was; an
   * accepted transaction becomes 201 with its new id and its joined record,
   * which the listing from then on ends with.
   */
  method Criar(db: AppDbContext, dto: TransacaoInput) returns (resp: RespostaCriar)
    requires db.Valid()
    modifies db
    ensures db.Valid()
    ensures RegrasRespeitadas(old(db.pessoas), old(db.categorias), old(db.transacoes)) ==>
              RegrasRespeitadas(db.pessoas, db.categorias, db.transacoes)
    ensures db.pessoas == old(db.pessoas) && db.categorias == old(db.categorias)
    ensures resp.BadRequest? <==> Verificar(old(db.pessoas), old(db.categorias), ParaEntidade(dto)).Some?
    ensures resp.BadRequest? ==>
              && resp.mensagem == Mensagem(Verificar(old(db.pessoas), old(db.categorias), ParaEntidade(dto)).value)
              && db.transacoes == old(db.transacoes)
    ensures resp.Created? ==>
              && resp.id == resp.corpo.transacao.id
              && resp.id !in IdsTransacoes(old(db.transacoes))
              && ParaInput(resp.corpo.transacao) == dto
              && db.transacoes == old(db.transacoes) + [resp.corpo.transacao]
              && Listar(db) == old(Listar(db)) + [resp.corpo]
  {
    ghost var transacoesAntes := db.transacoes;
    var resultado := TransacaoService.Criar(db, ParaEntidade(dto));
    match resultado
    case Failure(e) =>
      resp := BadRequest(Mensagem(e));
    case Success(d) =>
      JuntarAposAdicionar(db.pessoas, db.categorias, transacoesAntes, d);
      resp := Created(d.transacao.id, d);
  }
}
