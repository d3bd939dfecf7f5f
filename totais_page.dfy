/**
 * The totals computed in the browser: per person, filter the transaction list
 * by owner, then by kind, and fold the amounts from 0; overall, fold the
 * per-person figures. With exact arithmetic the result agrees with the
 * server's report for the same data.
 */
module TotaisPage {
  import opened Domain
  import PessoasController

  datatype TotalPessoa = TotalPessoa(pessoa: Pessoa, totalReceitas: real, totalDespesas: real, saldo: real)

  datatype Totais = Totais(totaisPorPessoa: seq<TotalPessoa>, totalGeralReceitas: real, totalGeralDespesas: real)

  /** `transacoes.filter(t => t.pessoaId === pessoaId)` */
  function DaPessoa(transacoes: seq<Transacao>, pessoaId: int): (r: seq<Transacao>)
    ensures forall t :: t in r <==> t in transacoes && t.pessoaId == pessoaId
    ensures Subsequencia(r, transacoes)
  {
    if transacoes == [] then []
    else
      var rest := DaPessoa(transacoes[1..], pessoaId);
      assert forall t :: t in transacoes <==> t == transacoes[0] || t in transacoes[1..];
      if transacoes[0].pessoaId == pessoaId then [transacoes[0]] + rest
      else
        assert rest != [] ==> rest[0] != transacoes[0] by {
          if rest != [] {
            assert rest[0] in rest;
          }
        }
        rest
  }

  /** `transacoes.filter(t => t.tipo === tipo)` */
  function DoTipo(transacoes: seq<Transacao>, tipo: Tipo): (r: seq<Transacao>)
    ensures forall t :: t in r <==> t in transacoes && t.tipo == tipo
    ensures Subsequencia(r, transacoes)
  {
    if transacoes == [] then []
    else
      var rest := DoTipo(transacoes[1..], tipo);
      assert forall t :: t in transacoes <==> t == transacoes[0] || t in transacoes[1..];
      if transacoes[0].tipo == tipo then [transacoes[0]] + rest
      else
        assert rest != [] ==> rest[0] != transacoes[0] by {
          if rest != [] {
            assert rest[0] in rest;
          }
        }
        rest
  }

  /** `transacoes.reduce((sum, t) => sum + t.valor, acc)`: a left fold, first element first. */
  function ReduceValor(acc: real, transacoes: seq<Transacao>): real
    decreases transacoes
  {
    if transacoes == [] then acc else ReduceValor(acc + transacoes[0].valor, transacoes[1..])
  }

  /** The amounts added up from the right, the reference the fold is compared with. */
  function SomaValores(transacoes: seq<Transacao>): real {
    if transacoes == [] then 0.0 else transacoes[0].valor + SomaValores(transacoes[1..])
  }

  /** The `pessoas.map` callback of loadTotais. */
  function TotalDe(p: Pessoa, transacoes: seq<Transacao>): TotalPessoa {
    var transacoesPessoa := DaPessoa(transacoes, p.id);
    var totalReceitas := ReduceValor(0.0, DoTipo(transacoesPessoa, Tipo.Receita));
    var totalDespesas := ReduceValor(0.0, DoTipo(transacoesPessoa, Tipo.Despesa));
    TotalPessoa(p, totalReceitas, totalDespesas, totalReceitas - totalDespesas)
  }

  function TotaisPorPessoa(pessoas: seq<Pessoa>, transacoes: seq<Transacao>): (r: seq<TotalPessoa>)
    ensures |r| == |pessoas|
    ensures forall i :: 0 <= i < |pessoas| ==> r[i] == TotalDe(pessoas[i], transacoes)
  {
    if pessoas == [] then [] else [TotalDe(pessoas[0], transacoes)] + TotaisPorPessoa(pessoas[1..], transacoes)
  }

  function ReduceReceitas(acc: real, totais: seq<TotalPessoa>): real
    decreases totais
  {
    if totais == [] then acc else ReduceReceitas(acc + totais[0].totalReceitas, totais[1..])
  }

  function ReduceDespesas(acc: real, totais: seq<TotalPessoa>): real
    decreases totais
  {
    if totais == [] then acc else ReduceDespesas(acc + totais[0].totalDespesas, totais[1..])
  }

  /** The computation of loadTotais once both lists have arrived. */
  function LoadTotais(pessoas: seq<Pessoa>, transacoes: seq<Transacao>): Totais {
    var totais := TotaisPorPessoa(pessoas, transacoes);
    Totais(totais, ReduceReceitas(0.0, totais), ReduceDespesas(0.0, totais))
  }

  /** saldoLiquido = totalGeralReceitas - totalGeralDespesas. */
  function SaldoLiquido(t: Totais): real {
    t.totalGeralReceitas - t.totalGeralDespesas
  }

  /** Folding from the left gives the same sum as adding up from the right. */
  lemma {:induction false} ReduceIgualSoma(acc: real, transacoes: seq<Transacao>)
    ensures ReduceValor(acc, transacoes) == acc + SomaValores(transacoes)
    decreases transacoes
  {
    if transacoes != [] {
      ReduceIgualSoma(acc + transacoes[0].valor, transacoes[1..]);
    }
  }

  /** Filtering by owner, then by kind, then summing is the server's per-person `Where(...).Sum(...)`. */
  lemma {:induction false} FiltrosIgualSoma(transacoes: seq<Transacao>, pessoaId: int, tipo: Tipo)
    ensures SomaValores(DoTipo(DaPessoa(transacoes, pessoaId), tipo)) == PessoasController.SomaDoTipo(transacoes, pessoaId, tipo)
  {
    if transacoes != [] {
      FiltrosIgualSoma(transacoes[1..], pessoaId, tipo);
    }
  }

  /** A person's client totals: the sum of that person's income, of their expense, and the difference. */
  lemma TotalDeSomas(p: Pessoa, transacoes: seq<Transacao>)
    ensures TotalDe(p, transacoes).pessoa == p
    ensures TotalDe(p, transacoes).totalReceitas == PessoasController.SomaDoTipo(transacoes, p.id, Tipo.Receita)
    ensures TotalDe(p, transacoes).totalDespesas == PessoasController.SomaDoTipo(transacoes, p.id, Tipo.Despesa)
    ensures TotalDe(p, transacoes).saldo == TotalDe(p, transacoes).totalReceitas - TotalDe(p, transacoes).totalDespesas
  {
    var daPessoa := DaPessoa(transacoes, p.id);
    ReduceIgualSoma(0.0, DoTipo(daPessoa, Tipo.Receita));
    ReduceIgualSoma(0.0, DoTipo(daPessoa, Tipo.Despesa));
    FiltrosIgualSoma(transacoes, p.id, Tipo.Receita);
    FiltrosIgualSoma(transacoes, p.id, Tipo.Despesa);
  }

  /** Folding the per-person income from the left adds up the same figures as the server's sum. */
  lemma {:induction false} ReduceReceitasIgualSoma(acc: real, totais: seq<TotalPessoa>, rs: seq<PessoasController.PessoaResumo>)
    requires |totais| == |rs|
    requires forall i :: 0 <= i < |rs| ==> totais[i].totalReceitas == rs[i].totalReceitas
    ensures ReduceReceitas(acc, totais) == acc + PessoasController.SomaReceitas(rs)
    decreases totais
  {
    if totais != [] {
      ReduceReceitasIgualSoma(acc + totais[0].totalReceitas, totais[1..], rs[1..]);
    }
  }

  lemma {:induction false} ReduceDespesasIgualSoma(acc: real, totais: seq<TotalPessoa>, rs: seq<PessoasController.PessoaResumo>)
    requires |totais| == |rs|
    requires forall i :: 0 <= i < |rs| ==> totais[i].totalDespesas == rs[i].totalDespesas
    ensures ReduceDespesas(acc, totais) == acc + PessoasController.SomaDespesas(rs)
    decreases totais
  {
    if totais != [] {
      ReduceDespesasIgualSoma(acc + totais[0].totalDespesas, totais[1..], rs[1..]);
    }
  }

  /**
   * The browser's figures and the server's GET /pessoas/totais agree for the
   * same people and transactions: person by person, in the same order, and
   * overall, including the net balance.
   */
  lemma ClienteConcordaComServidor(pessoas: seq<Pessoa>, transacoes: seq<Transacao>)
    ensures var c := LoadTotais(pessoas, transacoes);
            var s := PessoasController.GetTotais(pessoas, transacoes);
            && |c.totaisPorPessoa| == |s.pessoas| == |pessoas|
            && (forall i :: 0 <= i < |pessoas| ==>
                  && c.totaisPorPessoa[i].pessoa == pessoas[i]
                  && c.totaisPorPessoa[i].pessoa.nome == s.pessoas[i].nome
                  && c.totaisPorPessoa[i].totalReceitas == s.pessoas[i].totalReceitas
                  && c.totaisPorPessoa[i].totalDespesas == s.pessoas[i].totalDespesas
                  && c.totaisPorPessoa[i].saldo == s.pessoas[i].saldo)
            && c.totalGeralReceitas == s.totalGeralReceitas
            && c.totalGeralDespesas == s.totalGeralDespesas
            && SaldoLiquido(c) == s.saldoLiquidoGeral
  {
    forall i | 0 <= i < |pessoas|
      ensures TotaisPorPessoa(pessoas, transacoes)[i].totalReceitas
              == PessoasController.Resumos(pessoas, transacoes)[i].totalReceitas
      ensures TotaisPorPessoa(pessoas, transacoes)[i].totalDespesas
              == PessoasController.Resumos(pessoas, transacoes)[i].totalDespesas
    {
      TotalDeSomas(pessoas[i], transacoes);
    }
    ReduceReceitasIgualSoma(0.0, TotaisPorPessoa(pessoas, transacoes), PessoasController.Resumos(pessoas, transacoes));
    ReduceDespesasIgualSoma(0.0, TotaisPorPessoa(pessoas, transacoes), PessoasController.Resumos(pessoas, transacoes));
    PessoasController.SaldoLiquidoGeralDiferenca(pessoas, transacoes);
  }

  /** The client report never depends on a transaction whose owner is not in the people list. */
  lemma {:induction false} DaPessoaIgnoraOrfa(a: seq<Transacao>, t: Transacao, b: seq<Transacao>, pessoaId: int)
    requires t.pessoaId != pessoaId
    ensures DaPessoa(a + [t] + b, pessoaId) == DaPessoa(a + b, pessoaId)
  {
    if a == [] {
      assert a + [t] + b == [t] + b;
      assert ([t] + b)[1..] == b;
      assert a + b == b;
    } else {
      assert (a + [t] + b)[1..] == a[1..] + [t] + b;
      assert (a + b)[1..] == a[1..] + b;
      DaPessoaIgnoraOrfa(a[1..], t, b, pessoaId);
    }
  }

  lemma {:induction false} TransacaoOrfaNaoConta(pessoas: seq<Pessoa>, a: seq<Transacao>, t: Transacao, b: seq<Transacao>)
    requires t.pessoaId !in IdsPessoas(pessoas)
    ensures LoadTotais(pessoas, a + [t] + b) == LoadTotais(pessoas, a + b)
  {
    forall i | 0 <= i < |pessoas|
      ensures TotalDe(pessoas[i], a + [t] + b) == TotalDe(pessoas[i], a + b)
    {
      assert pessoas[i] in pessoas;
      DaPessoaIgnoraOrfa(a, t, b, pessoas[i].id);
    }
    assert TotaisPorPessoa(pessoas, a + [t] + b) == TotaisPorPessoa(pessoas, a + b);
  }
}
