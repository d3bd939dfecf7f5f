/**
 * The entity store: the three tables of the database context, the ids it
 * issues, and the one relationship it configures, Pessoa -> Transacao with
 * cascade on delete. Removing a person removes, in the same save, every
 * transaction whose PessoaId is that person's id; categories are untouched.
 */
module AppDb {
  import opened Wrappers
  import opened Domain

  /** The people left after removing the person with id `id`. */
  function SemPessoa(pessoas: seq<Pessoa>, id: int): (r: seq<Pessoa>)
    ensures forall p :: p in r <==> p in pessoas && p.id != id
    ensures IdsPessoas(r) == IdsPessoas(pessoas) - {id}
    ensures PessoasOrdenadas(pessoas) ==> PessoasOrdenadas(r)
  {
    if pessoas == [] then []
    else
      var rest := SemPessoa(pessoas[1..], id);
      assert forall p :: p in pessoas <==> p == pessoas[0] || p in pessoas[1..];
      if pessoas[0].id == id then rest else [pessoas[0]] + rest
  }

  /** The transactions a cascade on person `pessoaId` keeps, in their order. */
  function SemTransacoesDe(transacoes: seq<Transacao>, pessoaId: int): (r: seq<Transacao>)
    ensures forall t :: t in r <==> t in transacoes && t.pessoaId != pessoaId
    ensures TransacoesOrdenadas(transacoes) ==> TransacoesOrdenadas(r)
  {
    if transacoes == [] then []
    else
      var n := |transacoes| - 1;
      var init := SemTransacoesDe(transacoes[..n], pessoaId);
      assert forall t :: t in transacoes <==> t in transacoes[..n] || t == transacoes[n];
      if transacoes[n].pessoaId == pessoaId then init else init + [transacoes[n]]
  }

  /** The transactions a cascade on person `pessoaId` removes: that person's own. */
  function TransacoesDe(transacoes: seq<Transacao>, pessoaId: int): (r: seq<Transacao>)
    ensures forall t :: t in r <==> t in transacoes && t.pessoaId == pessoaId
  {
    if transacoes == [] then []
    else
      var n := |transacoes| - 1;
      var init := TransacoesDe(transacoes[..n], pessoaId);
      assert forall t :: t in transacoes <==> t in transacoes[..n] || t == transacoes[n];
      if transacoes[n].pessoaId == pessoaId then init + [transacoes[n]] else init
  }

  /** Row count after a cascade: count_after = count_before - |transactions of the deleted person|. */
  lemma {:induction false} CascadeContagem(transacoes: seq<Transacao>, pessoaId: int)
    ensures |SemTransacoesDe(transacoes, pessoaId)| == |transacoes| - |TransacoesDe(transacoes, pessoaId)|
  {
    if transacoes != [] {
      CascadeContagem(transacoes[..|transacoes| - 1], pessoaId);
    }
  }

  /** Appending a person leaves every lookup of an id already present unchanged. */
  lemma {:induction false} FindPessoaAposAdicionar(pessoas: seq<Pessoa>, p: Pessoa, id: int)
    requires id in IdsPessoas(pessoas)
    ensures FindPessoa(pessoas + [p], id) == FindPessoa(pessoas, id)
  {
    if pessoas[0].id != id {
      assert (pessoas + [p])[1..] == pessoas[1..] + [p];
      assert id in IdsPessoas(pessoas[1..]) by {
        var q :| q in pessoas && q.id == id;
        assert q != pessoas[0];
      }
      FindPessoaAposAdicionar(pessoas[1..], p, id);
    }
  }

  lemma {:induction false} FindCategoriaAposAdicionar(categorias: seq<Categoria>, c: Categoria, id: int)
    requires id in IdsCategorias(categorias)
    ensures FindCategoria(categorias + [c], id) == FindCategoria(categorias, id)
  {
    if categorias[0].id != id {
      assert (categorias + [c])[1..] == categorias[1..] + [c];
      assert id in IdsCategorias(categorias[1..]) by {
        var q :| q in categorias && q.id == id;
        assert q != categorias[0];
      }
      FindCategoriaAposAdicionar(categorias[1..], c, id);
    }
  }

  /** Removing one person leaves every lookup of another id unchanged. */
  lemma {:induction false} FindPessoaAposRemover(pessoas: seq<Pessoa>, id: int, outro: int)
    requires outro != id
    ensures FindPessoa(SemPessoa(pessoas, id), outro) == FindPessoa(pessoas, outro)
  {
    if pessoas != [] {
      FindPessoaAposRemover(pessoas[1..], id, outro);
    }
  }

  /** The cascade, one row at a time: every dependent of the removed person is deleted. */
  method CascadeRemove(transacoes: seq<Transacao>, pessoaId: int) returns (mantidas: seq<Transacao>)
    ensures mantidas == SemTransacoesDe(transacoes, pessoaId)
  {
    mantidas := [];
    var i := 0;
    while i < |transacoes|
      invariant 0 <= i <= |transacoes|
      invariant mantidas == SemTransacoesDe(transacoes[..i], pessoaId)
    {
      assert transacoes[..i + 1][..i] == transacoes[..i];
      if transacoes[i].pessoaId != pessoaId {
        mantidas := mantidas + [transacoes[i]];
      }
      i := i + 1;
    }
    assert transacoes[..i] == transacoes;
  }

  /** Removing a person keeps every remaining id within the bounds the table had. */
  lemma LimitesAposRemover(pessoas: seq<Pessoa>, transacoes: seq<Transacao>, id: int, proximoPessoa: int, proximoTransacao: int)
    requires forall i :: 0 <= i < |pessoas| ==> 0 < pessoas[i].id < proximoPessoa
    requires forall i :: 0 <= i < |transacoes| ==> 0 < transacoes[i].id < proximoTransacao
    ensures forall i :: 0 <= i < |SemPessoa(pessoas, id)| ==> 0 < SemPessoa(pessoas, id)[i].id < proximoPessoa
    ensures forall i :: 0 <= i < |SemTransacoesDe(transacoes, id)| ==>
              0 < SemTransacoesDe(transacoes, id)[i].id < proximoTransacao
  {
    var ps := SemPessoa(pessoas, id);
    forall i | 0 <= i < |ps|
      ensures 0 < ps[i].id < proximoPessoa
    {
      assert ps[i] in pessoas;
    }
    var ts := SemTransacoesDe(transacoes, id);
    forall i | 0 <= i < |ts|
      ensures 0 < ts[i].id < proximoTransacao
    {
      assert ts[i] in transacoes;
    }
  }

  /** After the cascade every remaining transaction still references a stored person and category. */
  lemma ReferenciasAposCascata(pessoas: seq<Pessoa>, categorias: seq<Categoria>, transacoes: seq<Transacao>, id: int)
    requires forall t :: t in transacoes ==> t.pessoaId in IdsPessoas(pessoas) && t.categoriaId in IdsCategorias(categorias)
    ensures forall t :: t in SemTransacoesDe(transacoes, id) ==>
              t.pessoaId in IdsPessoas(SemPessoa(pessoas, id)) && t.categoriaId in IdsCategorias(categorias)
  {
  }

  /** A transaction joined with the person and the category it references (`Include`). */
  function Detalhar(pessoas: seq<Pessoa>, categorias: seq<Categoria>, t: Transacao): (d: TransacaoDetalhada)
    requires t.pessoaId in IdsPessoas(pessoas) && t.categoriaId in IdsCategorias(categorias)
    ensures d.transacao == t
    ensures d.pessoa in pessoas && d.pessoa.id == t.pessoaId
    ensures d.categoria in categorias && d.categoria.id == t.categoriaId
  {
    var p := FindPessoa(pessoas, t.pessoaId).value;
    var c := FindCategoria(categorias, t.categoriaId).value;
    assert p in pessoas by {
      var i :| 0 <= i < |pessoas| && pessoas[i] == p;
    }
    TransacaoDetalhada(t, p, c)
  }

  class AppDbContext {
    var pessoas: seq<Pessoa>
    var categorias: seq<Categoria>
    var transacoes: seq<Transacao>
    // The next id each table's auto-increment key will issue.
    var proximoPessoaId: int
    var proximoCategoriaId: int
    var proximoTransacaoId: int

    /**
     * Ids are positive, unique (increasing along each table) and below the
     * next one to be issued; every transaction references a stored person and
     * a stored category.
     */
    ghost predicate Valid()
      reads this
    {
      && PessoasOrdenadas(pessoas) && CategoriasOrdenadas(categorias) && TransacoesOrdenadas(transacoes)
      && proximoPessoaId > 0 && proximoCategoriaId > 0 && proximoTransacaoId > 0
      && (forall i :: 0 <= i < |pessoas| ==> 0 < pessoas[i].id < proximoPessoaId)
      && (forall i :: 0 <= i < |categorias| ==> 0 < categorias[i].id < proximoCategoriaId)
      && (forall i :: 0 <= i < |transacoes| ==> 0 < transacoes[i].id < proximoTransacaoId)
      && (forall t :: t in transacoes ==>
            t.pessoaId in IdsPessoas(pessoas) && t.categoriaId in IdsCategorias(categorias))
    }

    constructor ()
      ensures Valid()
      ensures pessoas == [] && categorias == [] && transacoes == []
    {
      pessoas, categorias, transacoes := [], [], [];
      proximoPessoaId, proximoCategoriaId, proximoTransacaoId := 1, 1, 1;
    }

    /** `Pessoas.Add` and save: one new row with a fresh id. */
    method AdicionarPessoa(nome: string, idade: int) returns (p: Pessoa)
      requires Valid()
      modifies this
      ensures Valid()
      ensures p == Pessoa(old(proximoPessoaId), nome, idade) && p.id !in IdsPessoas(old(pessoas))
      ensures pessoas == old(pessoas) + [p]
      ensures categorias == old(categorias) && transacoes == old(transacoes)
      ensures proximoPessoaId == old(proximoPessoaId) + 1
      ensures proximoCategoriaId == old(proximoCategoriaId) && proximoTransacaoId == old(proximoTransacaoId)
    {
      p := Pessoa(proximoPessoaId, nome, idade);
      pessoas := pessoas + [p];
      proximoPessoaId := proximoPessoaId + 1;
      assert forall t :: t in transacoes ==> t.pessoaId in IdsPessoas(pessoas);
    }

    /** `Categorias.Add` and save: one new row with a fresh id. */
    method AdicionarCategoria(descricao: string, finalidade: Finalidade) returns (c: Categoria)
      requires Valid()
      modifies this
      ensures Valid()
      ensures c == Categoria(old(proximoCategoriaId), descricao, finalidade)
      ensures c.id !in IdsCategorias(old(categorias))
      ensures categorias == old(categorias) + [c]
      ensures pessoas == old(pessoas) && transacoes == old(transacoes)
      ensures proximoCategoriaId == old(proximoCategoriaId) + 1
      ensures proximoPessoaId == old(proximoPessoaId) && proximoTransacaoId == old(proximoTransacaoId)
    {
      c := Categoria(proximoCategoriaId, descricao, finalidade);
      categorias := categorias + [c];
      proximoCategoriaId := proximoCategoriaId + 1;
      assert forall t :: t in transacoes ==> t.categoriaId in IdsCategorias(categorias);
    }

    /**
     * `Transacoes.Add` and save: the row is stored with a fresh id and every
     * other field as given. The foreign keys must resolve.
     */
    method AdicionarTransacao(t: Transacao) returns (salva: Transacao)
      requires Valid()
      requires t.pessoaId in IdsPessoas(pessoas) && t.categoriaId in IdsCategorias(categorias)
      modifies this
      ensures Valid()
      ensures salva == t.(id := old(proximoTransacaoId)) && salva.id !in IdsTransacoes(old(transacoes))
      ensures transacoes == old(transacoes) + [salva]
      ensures pessoas == old(pessoas) && categorias == old(categorias)
      ensures proximoTransacaoId == old(proximoTransacaoId) + 1
      ensures proximoPessoaId == old(proximoPessoaId) && proximoCategoriaId == old(proximoCategoriaId)
    {
      salva := t.(id := proximoTransacaoId);
      transacoes := transacoes + [salva];
      proximoTransacaoId := proximoTransacaoId + 1;
    }

    /**
     * `Pessoas.Remove` and save. With the cascade configured in OnModelCreating
     * the person's transactions go too; categories and the other rows stay.
     */
    method RemoverPessoa(id: int)
      requires Valid()
      modifies this
      ensures Valid()
      ensures pessoas == SemPessoa(old(pessoas), id)
      ensures transacoes == SemTransacoesDe(old(transacoes), id)
      ensures categorias == old(categorias)
      ensures proximoPessoaId == old(proximoPessoaId) && proximoCategoriaId == old(proximoCategoriaId)
      ensures proximoTransacaoId == old(proximoTransacaoId)
    {
      LimitesAposRemover(pessoas, transacoes, id, proximoPessoaId, proximoTransacaoId);
      ReferenciasAposCascata(pessoas, categorias, transacoes, id);
      var mantidas := CascadeRemove(transacoes, id);
      var restantes := SemPessoa(pessoas, id);
      pessoas, transacoes := restantes, mantidas;
    }
  }
}
