/**
 * The CSV report of the totals page: a header line, one line per person in
 * order, an empty line and a total line, the fields joined with ';' and the
 * lines with '\n', the whole prefixed with a byte-order mark. Fields are
 * written as they are, with no quoting. The two-decimal rendering of amounts
 * (`toFixed(2)`) is the parameter `fixed2`.
 */
module ExportButtons {
  import opened Domain
  import opened Text
  import TotaisPage

  const Bom: char := '\U{FEFF}'

  const Cabecalho: seq<string> := ["Pessoa", "Idade", "Receitas", "Despesas", "Saldo"]

  /** The fields of one person's line: name, age, and the three amounts to two decimals. */
  function CamposPessoa(t: TotaisPage.TotalPessoa, fixed2: real -> string): seq<string> {
    [t.pessoa.nome, IntToString(t.pessoa.idade), fixed2(t.totalReceitas), fixed2(t.totalDespesas), fixed2(t.saldo)]
  }

  /** The fields of the total line; its second field is empty. */
  function CamposTotal(totalGeralReceitas: real, totalGeralDespesas: real, saldoLiquido: real, fixed2: real -> string): seq<string> {
    ["TOTAL GERAL", "", fixed2(totalGeralReceitas), fixed2(totalGeralDespesas), fixed2(saldoLiquido)]
  }

  /** `totaisPorPessoa.map(...)`: one row of fields per person. */
  function LinhasPessoas(totais: seq<TotaisPage.TotalPessoa>, fixed2: real -> string): seq<seq<string>> {
    seq(|totais|, i requires 0 <= i < |totais| => CamposPessoa(totais[i], fixed2))
  }

  /** `row.join(';')` for every row. */
  function Juntar(tabela: seq<seq<string>>): seq<string> {
    seq(|tabela|, i requires 0 <= i < |tabela| => JoinWith(tabela[i], ";"))
  }

  /** The lines of the report, in order: the header, the people, an empty line and the total. */
  function LinhasCsv(totais: seq<TotaisPage.TotalPessoa>, totalGeralReceitas: real, totalGeralDespesas: real,
                     saldoLiquido: real, fixed2: real -> string): seq<string> {
    Juntar([Cabecalho] + LinhasPessoas(totais, fixed2)
           + [[], CamposTotal(totalGeralReceitas, totalGeralDespesas, saldoLiquido, fixed2)])
  }

  /** One line per person, in order, between the header and the empty line. */
  lemma LinhasDePessoas(totais: seq<TotaisPage.TotalPessoa>, totalGeralReceitas: real, totalGeralDespesas: real,
                        saldoLiquido: real, fixed2: real -> string)
    ensures var r := LinhasCsv(totais, totalGeralReceitas, totalGeralDespesas, saldoLiquido, fixed2);
            && |r| == |totais| + 3
            && forall i :: 0 <= i < |totais| ==> r[i + 1] == JoinWith(CamposPessoa(totais[i], fixed2), ";")
  {
    var pessoas := LinhasPessoas(totais, fixed2);
    var tabela := [Cabecalho] + pessoas + [[], CamposTotal(totalGeralReceitas, totalGeralDespesas, saldoLiquido, fixed2)];
    assert |tabela| == |totais| + 3;
    forall i | 0 <= i < |totais|
      ensures Juntar(tabela)[i + 1] == JoinWith(CamposPessoa(totais[i], fixed2), ";")
    {
      assert tabela[i + 1] == pessoas[i] == CamposPessoa(totais[i], fixed2);
    }
  }

  /**
   * The report has |totais| + 3 lines: the exact header, one line per person
   * in order, an empty line, and `TOTAL GERAL` with an empty second field and
   * the three overall amounts.
   */
  lemma LinhasDoRelatorio(totais: seq<TotaisPage.TotalPessoa>, totalGeralReceitas: real, totalGeralDespesas: real,
                          saldoLiquido: real, fixed2: real -> string)
    ensures var r := LinhasCsv(totais, totalGeralReceitas, totalGeralDespesas, saldoLiquido, fixed2);
            && |r| == |totais| + 3
            && r[0] == "Pessoa" + ";" + "Idade" + ";" + "Receitas" + ";" + "Despesas" + ";" + "Saldo"
            && (forall i :: 0 <= i < |totais| ==> r[i + 1] == JoinWith(CamposPessoa(totais[i], fixed2), ";"))
            && r[|totais| + 1] == ""
            && r[|totais| + 2] == "TOTAL GERAL;;" + fixed2(totalGeralReceitas) + ";" + fixed2(totalGeralDespesas)
                                  + ";" + fixed2(saldoLiquido)
  {
    var ct := CamposTotal(totalGeralReceitas, totalGeralDespesas, saldoLiquido, fixed2);
    var tabela := [Cabecalho] + LinhasPessoas(totais, fixed2) + [[], ct];
    assert tabela[0] == Cabecalho && tabela[|totais| + 1] == [] && tabela[|totais| + 2] == ct;
    LinhasDePessoas(totais, totalGeralReceitas, totalGeralDespesas, saldoLiquido, fixed2);
    LinhaCabecalho();
    LinhaTotal(totalGeralReceitas, totalGeralDespesas, saldoLiquido, fixed2);
  }

  lemma LinhaCabecalho()
    ensures JoinWith(Cabecalho, ";") == "Pessoa" + ";" + "Idade" + ";" + "Receitas" + ";" + "Despesas" + ";" + "Saldo"
  {
    var s4 := JoinWith(["Saldo"], ";");
    var s3 := JoinWith(["Despesas", "Saldo"], ";");
    var s2 := JoinWith(["Receitas", "Despesas", "Saldo"], ";");
    var s1 := JoinWith(["Idade", "Receitas", "Despesas", "Saldo"], ";");
    assert s3 == "Despesas" + ";" + s4 by { assert ["Despesas", "Saldo"][1..] == ["Saldo"]; }
    assert s2 == "Receitas" + ";" + s3 by { assert ["Receitas", "Despesas", "Saldo"][1..] == ["Despesas", "Saldo"]; }
    assert s1 == "Idade" + ";" + s2 by {
      assert ["Idade", "Receitas", "Despesas", "Saldo"][1..] == ["Receitas", "Despesas", "Saldo"];
    }
    assert JoinWith(Cabecalho, ";") == "Pessoa" + ";" + s1 by {
      assert Cabecalho[1..] == ["Idade", "Receitas", "Despesas", "Saldo"];
    }
  }

  lemma LinhaTotal(totalGeralReceitas: real, totalGeralDespesas: real, saldoLiquido: real, fixed2: real -> string)
    ensures JoinWith(CamposTotal(totalGeralReceitas, totalGeralDespesas, saldoLiquido, fixed2), ";")
            == "TOTAL GERAL;;" + fixed2(totalGeralReceitas) + ";" + fixed2(totalGeralDespesas) + ";" + fixed2(saldoLiquido)
  {
    var a, b, c := fixed2(totalGeralReceitas), fixed2(totalGeralDespesas), fixed2(saldoLiquido);
    var s3 := JoinWith([b, c], ";");
    var s2 := JoinWith([a, b, c], ";");
    var s1 := JoinWith(["", a, b, c], ";");
    assert s3 == b + ";" + c by { assert [b, c][1..] == [c]; assert JoinWith([c], ";") == c; }
    assert s2 == a + ";" + s3 by { assert [a, b, c][1..] == [b, c]; }
    assert s1 == "" + ";" + s2 by { assert ["", a, b, c][1..] == [a, b, c]; }
    assert JoinWith(["TOTAL GERAL", "", a, b, c], ";") == "TOTAL GERAL" + ";" + s1 by {
      assert ["TOTAL GERAL", "", a, b, c][1..] == ["", a, b, c];
    }
  }

  /** `toString` of an age holds neither separator. */
  lemma IdadeSemSeparador(n: int)
    ensures ';' !in IntToString(n) && '\n' !in IntToString(n)
  {
    var r := IntToString(n);
    assert forall k :: 0 <= k < |r| ==> r[k] != ';' && r[k] != '\n';
  }

  /** The content handed to the download: the mark, then the lines joined with '\n'. */
  function Csv(totais: seq<TotaisPage.TotalPessoa>, totalGeralReceitas: real, totalGeralDespesas: real,
               saldoLiquido: real, fixed2: real -> string): string {
    [Bom] + JoinWith(LinhasCsv(totais, totalGeralReceitas, totalGeralDespesas, saldoLiquido, fixed2), "\n")
  }

  /**
   * exportToCSV up to the download: the person rows are mapped, the empty row
   * and the total row are pushed onto them, and every row is joined.
   */
  method ExportToCsv(totais: seq<TotaisPage.TotalPessoa>, totalGeralReceitas: real, totalGeralDespesas: real,
                     saldoLiquido: real, fixed2: real -> string) returns (conteudo: string)
    ensures conteudo == Csv(totais, totalGeralReceitas, totalGeralDespesas, saldoLiquido, fixed2)
  {
    var headers := Cabecalho;
    var rows := LinhasPessoas(totais, fixed2);
    rows := rows + [[]];
    rows := rows + [CamposTotal(totalGeralReceitas, totalGeralDespesas, saldoLiquido, fixed2)];
    var csvContent := JoinWith(Juntar([headers] + rows), "\n");
    assert [headers] + rows == [Cabecalho] + LinhasPessoas(totais, fixed2)
                               + [[], CamposTotal(totalGeralReceitas, totalGeralDespesas, saldoLiquido, fixed2)];
    conteudo := [Bom] + csvContent;
  }

  /** A line built from fields none of which holds `c` does not hold `c` either, unless `c` is ';'. */
  lemma LinhaSemCaractere(campos: seq<string>, c: char)
    requires c != ';'
    requires forall k :: 0 <= k < |campos| ==> c !in campos[k]
    ensures c !in JoinWith(campos, ";")
  {
    if c in JoinWith(campos, ";") {
      JoinWithChars(campos, ";", c);
    }
  }

  /** Rows whose fields all lack `c` join into lines that lack it too, unless `c` is ';'. */
  lemma JuntarSemCaractere(tabela: seq<seq<string>>, c: char)
    requires c != ';'
    requires forall i, k :: 0 <= i < |tabela| && 0 <= k < |tabela[i]| ==> c !in tabela[i][k]
    ensures forall i :: 0 <= i < |tabela| ==> c !in Juntar(tabela)[i]
  {
    forall i | 0 <= i < |tabela|
      ensures c !in Juntar(tabela)[i]
    {
      LinhaSemCaractere(tabela[i], c);
    }
  }

  /** No field of a person's line holds a line break when neither the name nor the amounts do. */
  lemma CampoPessoaSemQuebra(t: TotaisPage.TotalPessoa, fixed2: real -> string, k: int)
    requires '\n' !in t.pessoa.nome
    requires forall x :: '\n' !in fixed2(x)
    requires 0 <= k < 5
    ensures '\n' !in CamposPessoa(t, fixed2)[k]
  {
    IdadeSemSeparador(t.pessoa.idade);
  }

  /** No line of the report holds a line break when no name and no rendered amount does. */
  lemma LinhasSemQuebra(totais: seq<TotaisPage.TotalPessoa>, totalGeralReceitas: real, totalGeralDespesas: real,
                        saldoLiquido: real, fixed2: real -> string)
    requires forall i :: 0 <= i < |totais| ==> '\n' !in totais[i].pessoa.nome
    requires forall x :: '\n' !in fixed2(x)
    ensures var linhas := LinhasCsv(totais, totalGeralReceitas, totalGeralDespesas, saldoLiquido, fixed2);
            forall k :: 0 <= k < |linhas| ==> '\n' !in linhas[k]
  {
    var ct := CamposTotal(totalGeralReceitas, totalGeralDespesas, saldoLiquido, fixed2);
    var tabela := [Cabecalho] + LinhasPessoas(totais, fixed2) + [[], ct];
    forall i, k | 0 <= i < |tabela| && 0 <= k < |tabela[i]|
      ensures '\n' !in tabela[i][k]
    {
      if i == 0 {
        assert tabela[i] == Cabecalho;
      } else if i <= |totais| {
        assert tabela[i] == CamposPessoa(totais[i - 1], fixed2);
        CampoPessoaSemQuebra(totais[i - 1], fixed2, k);
      } else if i == |totais| + 2 {
        assert tabela[i] == ct;
      }
    }
    JuntarSemCaractere(tabela, '\n');
    assert LinhasCsv(totais, totalGeralReceitas, totalGeralDespesas, saldoLiquido, fixed2) == Juntar(tabela);
  }

  /**
   * When no name contains a line break and the amount rendering never
   * produces one, the content after the mark splits back into exactly the
   * report's lines: header, one per person, the empty line and the total,
   * |totais| + 3 in all.
   */
  lemma CsvSeparaEmLinhas(totais: seq<TotaisPage.TotalPessoa>, totalGeralReceitas: real, totalGeralDespesas: real,
                          saldoLiquido: real, fixed2: real -> string)
    requires forall i :: 0 <= i < |totais| ==> '\n' !in totais[i].pessoa.nome
    requires forall x :: '\n' !in fixed2(x)
    ensures Csv(totais, totalGeralReceitas, totalGeralDespesas, saldoLiquido, fixed2)[0] == Bom
    ensures Split(Csv(totais, totalGeralReceitas, totalGeralDespesas, saldoLiquido, fixed2)[1..], '\n')
            == LinhasCsv(totais, totalGeralReceitas, totalGeralDespesas, saldoLiquido, fixed2)
    ensures |Split(Csv(totais, totalGeralReceitas, totalGeralDespesas, saldoLiquido, fixed2)[1..], '\n')| == |totais| + 3
  {
    var linhas := LinhasCsv(totais, totalGeralReceitas, totalGeralDespesas, saldoLiquido, fixed2);
    LinhasSemQuebra(totais, totalGeralReceitas, totalGeralDespesas, saldoLiquido, fixed2);
    LinhasDePessoas(totais, totalGeralReceitas, totalGeralDespesas, saldoLiquido, fixed2);
    SplitJoin(linhas, '\n');
    assert Csv(totais, totalGeralReceitas, totalGeralDespesas, saldoLiquido, fixed2)[1..] == JoinWith(linhas, "\n");
  }

  /** With no ';' in the name or the rendered amounts, a person's line splits back into its five fields. */
  lemma LinhaPessoaCincoCampos(t: TotaisPage.TotalPessoa, fixed2: real -> string)
    requires ';' !in t.pessoa.nome
    requires forall x :: ';' !in fixed2(x)
    ensures Split(JoinWith(CamposPessoa(t, fixed2), ";"), ';') == CamposPessoa(t, fixed2)
  {
    var campos := CamposPessoa(t, fixed2);
    IdadeSemSeparador(t.pessoa.idade);
    SplitJoin(campos, ';');
  }

  /**
   * Fields are not escaped: a name holding ';' shifts every later column, and
   * the person's line reads back as six fields instead of five.
   */
  lemma NomeComSeparadorGeraSeisCampos(t: TotaisPage.TotalPessoa, fixed2: real -> string)
    requires t.pessoa.nome == "a;b"
    requires forall x :: ';' !in fixed2(x)
    ensures |Split(JoinWith(CamposPessoa(t, fixed2), ";"), ';')| == 6
  {
    var campos := CamposPessoa(t, fixed2);
    var resto := ["b"] + campos[1..];
    IdadeSemSeparador(t.pessoa.idade);
    assert forall k :: 0 <= k < |resto| ==> ';' !in resto[k];
    SplitJoin(resto, ';');
    assert JoinWith(resto, ";") == "b" + ";" + JoinWith(campos[1..], ";");
    assert JoinWith(campos, ";") == "a" + [';'] + JoinWith(resto, ";");
    SplitAposPrimeiro("a", ';', JoinWith(resto, ";"));
  }
}
