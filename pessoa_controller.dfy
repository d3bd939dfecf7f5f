/**
 * The people endpoints: creation from a validated DTO, deletion (not found,
 * or removal with the cascade), and the totals report computed on the server.
 */
module PessoasController {
  import opened Wrappers
  import opened Domain
  import opened Text
  import opened AppDb
  import opened TransacaoService

  datatype PessoaCreateDto = PessoaCreateDto(nome: string, idade: int)

  /** `[Required]` on Nome (not null, not white space only) and `[Range(1, 150)]` on Idade. */
  predicate DtoValido(dto: PessoaCreateDto) {
    && (exists k :: 0 <= k < |dto.nome| && !IsDotNetWhitespace(dto.nome[k]))
    && 1 <= dto.idade <= 150
  }

  datatype RespostaCriar = Ok(pessoa: Pessoa) | BadRequestValidacao

  datatype RespostaDeletar = NoContent | NotFound

  /**
   * POST /pessoas. An invalid DTO is answered with 400 by the API layer before
   * the action runs; a valid one becomes one new person with the DTO's fields.
   */
  method Criar(db: AppDbContext, dto: PessoaCreateDto) returns (resp: RespostaCriar)
    requires db.Valid()
    requires RegrasRespeitadas(db.pessoas, db.categorias, db.transacoes)
    modifies db
    ensures db.Valid() && RegrasRespeitadas(db.pessoas, db.categorias, db.transacoes)
    ensures resp.BadRequestValidacao? <==> !DtoValido(dto)
    ensures resp.BadRequestValidacao? ==> db.pessoas == old(db.pessoas) && db.proximoPessoaId == old(db.proximoPessoaId)
    ensures resp.Ok? ==> db.proximoPessoaId == old(db.proximoPessoaId) + 1
    ensures db.proximoCategoriaId == old(db.proximoCategoriaId) && db.proximoTransacaoId == old(db.proximoTransacaoId)
    ensures resp.Ok? ==>
              && resp.pessoa.nome == dto.nome && resp.pessoa.idade == dto.idade
              && resp.pessoa.id !in IdsPessoas(old(db.pessoas))
              && db.pessoas == old(db.pessoas) + [resp.pessoa]
    ensures db.categorias == old(db.categorias) && db.transacoes == old(db.transacoes)
  {
    if !DtoValido(dto) {
      return BadRequestValidacao;
    }
    var p := db.AdicionarPessoa(dto.nome, dto.idade);
    forall t | t in db.transacoes
      ensures Verificar(db.pessoas, db.categorias, t).None?
    {
      assert Verificar(old(db.pessoas), db.categorias, t).None?;
      FindPessoaAposAdicionar(old(db.pessoas), p, t.pessoaId);
    }
    resp := Ok(p);
  }

  /**
   * DELETE /pessoas/{id}: NotFound and no change for an unknown id; otherwise
   * the person and, by the cascade, exactly that person's transactions go.
   */
  method Deletar(db: AppDbContext, id: int) returns (resp: RespostaDeletar)
    requires db.Valid()
    requires RegrasRespeitadas(db.pessoas, db.categorias, db.transacoes)
    modifies db
    ensures db.Valid() && RegrasRespeitadas(db.pessoas, db.categorias, db.transacoes)
    ensures resp.NotFound? <==> id !in IdsPessoas(old(db.pessoas))
    ensures resp.NotFound? ==> db.pessoas == old(db.pessoas) && db.transacoes == old(db.transacoes)
    ensures resp.NoContent? ==>
              && db.pessoas == SemPessoa(old(db.pessoas), id)
              && db.transacoes == SemTransacoesDe(old(db.transacoes), id)
              && |db.pessoas| == |old(db.pessoas)| - 1
    ensures db.categorias == old(db.categorias)
    ensures db.proximoPessoaId == old(db.proximoPessoaId) && db.proximoCategoriaId == old(db.proximoCategoriaId)
    ensures db.proximoTransacaoId == old(db.proximoTransacaoId)
  {
    var pessoa := FindPessoa(db.pessoas, id);
    if pessoa.None? {
      return NotFound;
    }
    ghost var antes := db.pessoas;
    SemPessoaRemoveUma(antes, id);
    db.RemoverPessoa(id);
    forall t | t in db.transacoes
      ensures Verificar(db.pessoas, db.categorias, t).None?
    {
      assert t in old(db.transacoes) && t.pessoaId != id;
      FindPessoaAposRemover(antes, id, t.pessoaId);
    }
    resp := NoContent;
  }

  /** With unique ids, removing a present id removes exactly one person. */
  lemma {:induction false} SemPessoaRemoveUma(pessoas: seq<Pessoa>, id: int)
    requires PessoasOrdenadas(pessoas)
    ensures |SemPessoa(pessoas, id)| == if id in IdsPessoas(pessoas) then |pessoas| - 1 else |pessoas|
  {
    if pessoas != [] {
      SemPessoaRemoveUma(pessoas[1..], id);
      assert IdsPessoas(pessoas) == {pessoas[0].id} + IdsPessoas(pessoas[1..]) by {
        assert forall p :: p in pessoas <==> p == pessoas[0] || p in pessoas[1..];
      }
      if pessoas[0].id == id {
        assert id !in IdsPessoas(pessoas[1..]);
      }
    }
  }

  // ---------------------------------------------------------------------------
  // GET /pessoas/totais

  datatype PessoaResumo = PessoaResumo(nome: string, totalReceitas: real, totalDespesas: real, saldo: real)

  datatype RelatorioGeral = RelatorioGeral(
    pessoas: seq<PessoaResumo>,
    totalGeralReceitas: real,
    totalGeralDespesas: real,
    saldoLiquidoGeral: real)

  /** `p.Transacoes.Where(t => t.Tipo == tipo).Sum(t => t.Valor)` for the person with id `pessoaId`. */
  function SomaDoTipo(transacoes: seq<Transacao>, pessoaId: int, tipo: Tipo): real {
    if transacoes == [] then 0.0
    else
      (if transacoes[0].pessoaId == pessoaId && transacoes[0].tipo == tipo then transacoes[0].valor else 0.0)
      + SomaDoTipo(transacoes[1..], pessoaId, tipo)
  }

  function Resumo(p: Pessoa, transacoes: seq<Transacao>): PessoaResumo {
    var receitas := SomaDoTipo(transacoes, p.id, Tipo.Receita);
    var despesas := SomaDoTipo(transacoes, p.id, Tipo.Despesa);
    PessoaResumo(p.nome, receitas, despesas, receitas - despesas)
  }

  /** The `Select` projection: one summary per person, in table order. */
  function Resumos(pessoas: seq<Pessoa>, transacoes: seq<Transacao>): (r: seq<PessoaResumo>)
    ensures |r| == |pessoas|
    ensures forall i :: 0 <= i < |pessoas| ==> r[i] == Resumo(pessoas[i], transacoes)
  {
    if pessoas == [] then [] else [Resumo(pessoas[0], transacoes)] + Resumos(pessoas[1..], transacoes)
  }

  function SomaReceitas(rs: seq<PessoaResumo>): real {
    if rs == [] then 0.0 else rs[0].totalReceitas + SomaReceitas(rs[1..])
  }

  function SomaDespesas(rs: seq<PessoaResumo>): real {
    if rs == [] then 0.0 else rs[0].totalDespesas + SomaDespesas(rs[1..])
  }

  function SomaSaldos(rs: seq<PessoaResumo>): real {
    if rs == [] then 0.0 else rs[0].saldo + SomaSaldos(rs[1..])
  }

  function GetTotais(pessoas: seq<Pessoa>, transacoes: seq<Transacao>): RelatorioGeral {
    var rs := Resumos(pessoas, transacoes);
    RelatorioGeral(rs, SomaReceitas(rs), SomaDespesas(rs), SomaSaldos(rs))
  }

  /**
   * Each summary carries its person's name, the income and expense sums of
   * that person's transactions, and their difference; the report lists one
   * summary per person in order.
   */
  lemma ResumoPorPessoa(pessoas: seq<Pessoa>, transacoes: seq<Transacao>, i: int)
    requires 0 <= i < |pessoas|
    ensures |GetTotais(pessoas, transacoes).pessoas| == |pessoas|
    ensures GetTotais(pessoas, transacoes).pessoas[i].nome == pessoas[i].nome
    ensures GetTotais(pessoas, transacoes).pessoas[i].totalReceitas == SomaDoTipo(transacoes, pessoas[i].id, Tipo.Receita)
    ensures GetTotais(pessoas, transacoes).pessoas[i].totalDespesas == SomaDoTipo(transacoes, pessoas[i].id, Tipo.Despesa)
    ensures GetTotais(pessoas, transacoes).pessoas[i].saldo
            == GetTotais(pessoas, transacoes).pessoas[i].totalReceitas - GetTotais(pessoas, transacoes).pessoas[i].totalDespesas
  {
  }

  /** A sum over no matching transaction is zero: a person without transactions gets 0/0/0. */
  lemma {:induction false} SemTransacoesZero(transacoes: seq<Transacao>, pessoaId: int, tipo: Tipo)
    requires forall k :: 0 <= k < |transacoes| ==> transacoes[k].pessoaId != pessoaId
    ensures SomaDoTipo(transacoes, pessoaId, tipo) == 0.0
  {
    if transacoes != [] {
      SemTransacoesZero(transacoes[1..], pessoaId, tipo);
    }
  }

  lemma {:induction false} SomaSaldosDiferenca(rs: seq<PessoaResumo>)
    requires forall k :: 0 <= k < |rs| ==> rs[k].saldo == rs[k].totalReceitas - rs[k].totalDespesas
    ensures SomaSaldos(rs) == SomaReceitas(rs) - SomaDespesas(rs)
  {
    if rs != [] {
      SomaSaldosDiferenca(rs[1..]);
    }
  }

  /** SaldoLiquidoGeral, the sum of the balances, equals total income minus total expense. */
  lemma SaldoLiquidoGeralDiferenca(pessoas: seq<Pessoa>, transacoes: seq<Transacao>)
    ensures GetTotais(pessoas, transacoes).saldoLiquidoGeral
            == GetTotais(pessoas, transacoes).totalGeralReceitas - GetTotais(pessoas, transacoes).totalGeralDespesas
  {
    SomaSaldosDiferenca(Resumos(pessoas, transacoes));
  }

  /** The sum of one kind over the transactions whose person is in `ids`. */
  function SomaDosIds(transacoes: seq<Transacao>, ids: set<int>, tipo: Tipo): real {
    if transacoes == [] then 0.0
    else
      (if transacoes[0].pessoaId in ids && transacoes[0].tipo == tipo then transacoes[0].valor else 0.0)
      + SomaDosIds(transacoes[1..], ids, tipo)
  }

  /** The sum of one kind over all transactions. */
  function SomaTotal(transacoes: seq<Transacao>, tipo: Tipo): real {
    if transacoes == [] then 0.0
    else (if transacoes[0].tipo == tipo then transacoes[0].valor else 0.0) + SomaTotal(transacoes[1..], tipo)
  }

  lemma {:induction false} SomaDosIdsSepara(transacoes: seq<Transacao>, x: int, ids: set<int>, tipo: Tipo)
    requires x !in ids
    ensures SomaDosIds(transacoes, {x} + ids, tipo) == SomaDoTipo(transacoes, x, tipo) + SomaDosIds(transacoes, ids, tipo)
  {
    if transacoes != [] {
      SomaDosIdsSepara(transacoes[1..], x, ids, tipo);
    }
  }

  lemma {:induction false} SomaDosIdsCobre(transacoes: seq<Transacao>, ids: set<int>, tipo: Tipo)
    requires forall k :: 0 <= k < |transacoes| ==> transacoes[k].pessoaId in ids
    ensures SomaDosIds(transacoes, ids, tipo) == SomaTotal(transacoes, tipo)
  {
    if transacoes != [] {
      SomaDosIdsCobre(transacoes[1..], ids, tipo);
    }
  }

  lemma {:induction false} ReceitasPorIds(pessoas: seq<Pessoa>, transacoes: seq<Transacao>)
    requires PessoasOrdenadas(pessoas)
    ensures SomaReceitas(Resumos(pessoas, transacoes)) == SomaDosIds(transacoes, IdsPessoas(pessoas), Tipo.Receita)
    ensures SomaDespesas(Resumos(pessoas, transacoes)) == SomaDosIds(transacoes, IdsPessoas(pessoas), Tipo.Despesa)
  {
    if pessoas == [] {
      assert IdsPessoas(pessoas) == {};
      SomaDosIdsVazio(transacoes, Tipo.Receita);
      SomaDosIdsVazio(transacoes, Tipo.Despesa);
    } else {
      var rest := pessoas[1..];
      ReceitasPorIds(rest, transacoes);
      assert Resumos(pessoas, transacoes)[1..] == Resumos(rest, transacoes);
      assert IdsPessoas(pessoas) == {pessoas[0].id} + IdsPessoas(rest) by {
        assert forall p :: p in pessoas <==> p == pessoas[0] || p in rest;
      }
      assert pessoas[0].id !in IdsPessoas(rest);
      SomaDosIdsSepara(transacoes, pessoas[0].id, IdsPessoas(rest), Tipo.Receita);
      SomaDosIdsSepara(transacoes, pessoas[0].id, IdsPessoas(rest), Tipo.Despesa);
    }
  }

  lemma {:induction false} SomaDosIdsVazio(transacoes: seq<Transacao>, tipo: Tipo)
    ensures SomaDosIds(transacoes, {}, tipo) == 0.0
  {
    if transacoes != [] {
      SomaDosIdsVazio(transacoes[1..], tipo);
    }
  }

  /**
   * In a consistent store (unique person ids, every transaction owned by a
   * stored person) the overall figures are the sums over all transactions.
   */
  lemma TotaisGeraisSobreTodas(pessoas: seq<Pessoa>, transacoes: seq<Transacao>)
    requires PessoasOrdenadas(pessoas)
    requires forall t :: t in transacoes ==> t.pessoaId in IdsPessoas(pessoas)
    ensures GetTotais(pessoas, transacoes).totalGeralReceitas == SomaTotal(transacoes, Tipo.Receita)
    ensures GetTotais(pessoas, transacoes).totalGeralDespesas == SomaTotal(transacoes, Tipo.Despesa)
  {
    ReceitasPorIds(pessoas, transacoes);
    SomaDosIdsCobre(transacoes, IdsPessoas(pessoas), Tipo.Receita);
    SomaDosIdsCobre(transacoes, IdsPessoas(pessoas), Tipo.Despesa);
  }

  lemma {:induction false} SomaDoTipoConcatena(a: seq<Transacao>, b: seq<Transacao>, pessoaId: int, tipo: Tipo)
    ensures SomaDoTipo(a + b, pessoaId, tipo) == SomaDoTipo(a, pessoaId, tipo) + SomaDoTipo(b, pessoaId, tipo)
  {
    if a == [] {
      assert a + b == b;
    } else {
      assert (a + b)[1..] == a[1..] + b;
      SomaDoTipoConcatena(a[1..], b, pessoaId, tipo);
    }
  }

  /** The cascade on a table ending in `t` is the cascade on the rest, followed by `t` when it is kept. */
  lemma SemTransacoesDeUltima(init: seq<Transacao>, t: Transacao, id: int)
    ensures SemTransacoesDe(init + [t], id)
            == if t.pessoaId == id then SemTransacoesDe(init, id) else SemTransacoesDe(init, id) + [t]
  {
    assert (init + [t])[..|init|] == init;
  }

  /** The sum over a single row. */
  lemma SomaDoTipoUma(t: Transacao, pessoaId: int, tipo: Tipo)
    ensures SomaDoTipo([t], pessoaId, tipo) == if t.pessoaId == pessoaId && t.tipo == tipo then t.valor else 0.0
  {
    assert [t][1..] == [];
  }

  /** Deleting one person (with the cascade) leaves every other person's sums as they were. */
  lemma {:induction false} CascadePreservaOutros(transacoes: seq<Transacao>, id: int, outro: int, tipo: Tipo)
    requires outro != id
    ensures SomaDoTipo(SemTransacoesDe(transacoes, id), outro, tipo) == SomaDoTipo(transacoes, outro, tipo)
  {
    if transacoes != [] {
      var n := |transacoes| - 1;
      var init, t := transacoes[..n], transacoes[n];
      assert transacoes == init + [t];
      CascadePreservaOutros(init, id, outro, tipo);
      SemTransacoesDeUltima(init, t, id);
      SomaDoTipoUma(t, outro, tipo);
      SomaDoTipoConcatena(init, [t], outro, tipo);
      if t.pessoaId != id {
        SomaDoTipoConcatena(SemTransacoesDe(init, id), [t], outro, tipo);
      }
    }
  }
}
