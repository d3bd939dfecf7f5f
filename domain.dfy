/** Option and Result, used for lookups and for operations that can be rejected. */
module Wrappers {

  datatype Option<+T> = None | Some(value: T)

  datatype Result<+R, +E> = Success(value: R) | Failure(error: E)
}

/**
 * The entities shared by the back end and the front end: people, categories
 * and transactions, and the first-match lookups both sides perform by id.
 * Amounts are exact reals, standing for the back end's `decimal`.
 */
module Domain {
  import opened Wrappers

  /** `a` is `b` with some elements left out, the rest in their original order. */
  ghost predicate Subsequencia<T>(a: seq<T>, b: seq<T>)
    decreases |b|
  {
    if a == [] then true
    else if b == [] then false
    else if a[0] == b[0] then Subsequencia(a[1..], b[1..])
    else Subsequencia(a, b[1..])
  }

  /** TipoTransacao: the kind of a transaction. */
  datatype Tipo = Despesa | Receita

  /** FinalidadeCategoria: the kinds of transaction a category accepts. */
  datatype Finalidade = Despesa | Receita | Ambas

  datatype Pessoa = Pessoa(id: int, nome: string, idade: int)

  datatype Categoria = Categoria(id: int, descricao: string, finalidade: Finalidade)

  datatype Transacao = Transacao(
    id: int,
    descricao: string,
    valor: real,
    tipo: Tipo,
    pessoaId: int,
    categoriaId: int)

  /**
   * The body of POST /transacoes: `TransacaoInput` on the client,
   * `TransacaoCreateDto` on the server.
   */
  datatype TransacaoInput = TransacaoInput(
    descricao: string,
    valor: real,
    tipo: Tipo,
    pessoaId: int,
    categoriaId: int)

  /** A stored transaction joined with the person and the category it references. */
  datatype TransacaoDetalhada = TransacaoDetalhada(transacao: Transacao, pessoa: Pessoa, categoria: Categoria)

  /** The ids present in a table. */
  function IdsPessoas(pessoas: seq<Pessoa>): set<int> {
    set p | p in pessoas :: p.id
  }

  function IdsCategorias(categorias: seq<Categoria>): set<int> {
    set c | c in categorias :: c.id
  }

  function IdsTransacoes(transacoes: seq<Transacao>): set<int> {
    set t | t in transacoes :: t.id
  }

  /** The first person whose id is `id`, as `FirstOrDefault` and `Array.find` return it. */
  function FindPessoa(pessoas: seq<Pessoa>, id: int): (r: Option<Pessoa>)
    ensures r.None? <==> forall i :: 0 <= i < |pessoas| ==> pessoas[i].id != id
    ensures r.None? <==> id !in IdsPessoas(pessoas)
    ensures r.Some? ==> exists i :: 0 <= i < |pessoas| && pessoas[i] == r.value
                                    && forall j :: 0 <= j < i ==> pessoas[j].id != id
    ensures r.Some? ==> r.value.id == id
  {
    if pessoas == [] then None
    else if pessoas[0].id == id then Some(pessoas[0])
    else
      var r := FindPessoa(pessoas[1..], id);
      assert r.Some? ==> exists i :: 0 <= i < |pessoas| - 1 && pessoas[1..][i] == r.value
                                     && forall j :: 0 <= j < i ==> pessoas[1..][j].id != id;
      r
  }

  /** The first category whose id is `id`. */
  function FindCategoria(categorias: seq<Categoria>, id: int): (r: Option<Categoria>)
    ensures r.None? <==> forall i :: 0 <= i < |categorias| ==> categorias[i].id != id
    ensures r.None? <==> id !in IdsCategorias(categorias)
    ensures r.Some? ==> r.value in categorias && r.value.id == id
  {
    if categorias == [] then None
    else if categorias[0].id == id then Some(categorias[0])
    else FindCategoria(categorias[1..], id)
  }

  /** The first transaction whose id is `id`, as `First(t => t.Id == id)` finds it. */
  function FindTransacao(transacoes: seq<Transacao>, id: int): (r: Option<Transacao>)
    ensures r.None? <==> id !in IdsTransacoes(transacoes)
    ensures r.Some? ==> r.value in transacoes && r.value.id == id
  {
    if transacoes == [] then None
    else if transacoes[0].id == id then Some(transacoes[0])
    else FindTransacao(transacoes[1..], id)
  }

  /** Ids strictly increase along the table: the order in which an auto-increment key issues them. */
  ghost predicate PessoasOrdenadas(pessoas: seq<Pessoa>) {
    forall i, j :: 0 <= i < j < |pessoas| ==> pessoas[i].id < pessoas[j].id
  }

  ghost predicate CategoriasOrdenadas(categorias: seq<Categoria>) {
    forall i, j :: 0 <= i < j < |categorias| ==> categorias[i].id < categorias[j].id
  }

  ghost predicate TransacoesOrdenadas(transacoes: seq<Transacao>) {
    forall i, j :: 0 <= i < j < |transacoes| ==> transacoes[i].id < transacoes[j].id
  }

  /** With ids unique, the found person is the one person of the table with that id. */
  lemma FindPessoaUnica(pessoas: seq<Pessoa>, p: Pessoa)
    requires PessoasOrdenadas(pessoas)
    requires p in pessoas
    ensures FindPessoa(pessoas, p.id) == Some(p)
  {
    var r := FindPessoa(pessoas, p.id);
    var k :| 0 <= k < |pessoas| && pessoas[k] == p;
    var i :| 0 <= i < |pessoas| && pessoas[i] == r.value && forall j :: 0 <= j < i ==> pessoas[j].id != p.id;
    assert i == k;
  }
}
