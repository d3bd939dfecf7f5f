# Controle de Gastos Residenciais: a Dafny model

This project models the core of a household-expense tracker. People (`Pessoa`) record income (`Receita`) and expense (`Despesa`) transactions (`Transacao`). Every transaction belongs to a category (`Categoria`), whose purpose (`Finalidade`) accepts expenses, income or both (`Ambas`). The model has two sides.

The server side is an ASP.NET API over an EF Core store:
- **Transaction creation** checks, in a fixed order:
  - that the person exists;
  - that the category exists;
  - that a minor is not recording income;
  - that the category accepts the kind.

  Only then is the row inserted. The controller turns a refusal into a 400 carrying the message.
- **Person deletion** cascades to the person's transactions.
- **The totals report** gives per-person income, expense and balance, and the overall figures.

The browser side is a React client:
- the transaction form: the category filter, the minor warning, the ordered guards, the category reset on a change of kind, and the state after a send;
- the same totals computed again with map, filter and reduce;
- the CSV export;
- the enum codes and their labels;
- the extraction of an error message from a failed request.

Amounts are exact `real`s. They stand for C# `decimal` and for the JavaScript numbers of the client; floating-point rounding is not modelled. The store is a class, `AppDb.AppDbContext`. It holds the three tables as sequences and one id counter per table, like SQLite `AUTOINCREMENT`. Its invariant `Valid()` says three things:
- ids strictly increase along each table;
- every id is below its table's counter;
- every transaction references a stored person and a stored category.

A second invariant, `TransacaoService.RegrasRespeitadas`, says that every stored transaction would pass the creation checks again. Every state-changing operation preserves both.

Files, one module each:
- `domain.dfy`: the entities and the first-match lookups by id.
- `text.dfy`: join, split, trim and integer `toString`.
- `types.dfy`: the enum codes and labels.
- `app_db_context.dfy`: the store and the cascade.
- `transacao_service.dfy`: the creation checks and the insert.
- `transacao_controller.dfy`, `pessoa_controller.dfy`, `categoria_controller.dfy`: the endpoints.
- `totais_page.dfy`: the client totals.
- `transacoes_page.dfy`: the form.
- `export_buttons.dfy`: the CSV export.
- `api.dfy`: the error-message chain.

Points of the source worth knowing when reading the model:
- The server does not check the amount (Back-end/Services/TransacaoService.cs:15-35); only the client form refuses `valor <= 0`. See `TransacaoService.ValorNaoVerificado`.
- `[Range(1, 150)]` (Back-end/DTOs/PessoaCreateDto.cs:10) bounds a new person's age to 1..150.
- The refusal body is `{ mensagem }` (Back-end/Controllers/TransacaoController.cs:44), a field the client does not read. See Findings.

## Model

| member | source | states |
|---|---|---|
| Domain.FindPessoa | Back-end/Services/TransacaoService.cs:18-19 | `FirstOrDefault` by id: `None` exactly when no person has the id; otherwise the first person in table order with that id |
| Domain.FindCategoria | Back-end/Services/TransacaoService.cs:21-22 | The category lookup: `None` exactly when the id is absent; otherwise a stored category with that id |
| Domain.FindTransacao | Back-end/Services/TransacaoService.cs:38-41 | `First(t => t.Id == id)`: absent exactly when no stored transaction has the id; otherwise a stored one with that id |
| Domain.FindPessoaUnica | Back-end/Models/Pessoa.cs:7 | Ids are primary keys: the lookup of a stored person's id returns that very person |
| Text.Trim | Front-end/src/pages/TransacoesPage.tsx:118 | `trim()`: the result is empty exactly when the input is all ECMAScript white space; otherwise its ends are not white space |
| Text.TrimRecorta | Front-end/src/pages/TransacoesPage.tsx:118 | `trim()` keeps a slice `s[i..j]` of its input, with only white space before `i` and after `j`; with `Trim`'s contract, exactly the text between the leading and trailing white space |
| Text.NatToString | Front-end/src/components/ExportButtons.tsx:32 | The decimal digits of a natural number: all digits, denoting the number (`ValorDecimal`), with no leading zero except in "0" |
| Text.IntToString | Front-end/src/components/ExportButtons.tsx:32 | `idade.toString()`: non-empty, every character a digit or '-', and the first is '-' exactly for negatives |
| Text.IntToStringValor | Front-end/src/components/ExportButtons.tsx:32 | After the sign, `idade.toString()` is all digits, denotes the magnitude, and has no leading zero unless it is "0" |
| Text.SplitJoin | Front-end/src/components/ExportButtons.tsx:42 | Joining pieces free of the separator and splitting again gives the pieces back |
| Text.JoinWith | Front-end/src/components/ExportButtons.tsx:42 | `join(sep)`: the pieces with `sep` between them; `SplitJoin` proves `Split` inverts it |
| Text.IsJsWhitespace | Front-end/src/pages/TransacoesPage.tsx:118 | The characters `trim()` removes, ECMAScript WhiteSpace and LineTerminator; `Trim` and `TrimRecorta` state what is cut |
| Text.IsDotNetWhitespace | Back-end/DTOs/PessoaCreateDto.cs:7 | `char.IsWhiteSpace`, the test behind `[Required]` refusing a blank name; `PessoasController.Criar` states the refusal |
| Types.FinalidadeDeCodigo | Front-end/src/types/index.ts:7-11 | Exactly the codes 1, 2 and 3 name a purpose, and the named purpose encodes back to the code |
| Types.TipoDeCodigo | Front-end/src/types/index.ts:14-17 | Exactly the codes 1 and 2 name a kind, and the named kind encodes back to the code |
| Types.FinalidadeCodigoRoundTrip | Front-end/src/types/index.ts:7-11 | Every purpose encodes to a code in 1..3 that decodes back to it |
| Types.FinalidadeCodigo | Front-end/src/types/index.ts:7-11 | The purposes' numeric values 1, 2, 3; `FinalidadeCodigoRoundTrip` and `FinalidadeDeCodigo` pin the encoding |
| Types.TipoCodigo | Front-end/src/types/index.ts:14-17 | The kinds' numeric values 1, 2; `TipoCodigoRoundTrip` and `TipoDeCodigo` pin the encoding |
| Types.TipoCodigoRoundTrip | Front-end/src/types/index.ts:14-17 | Every kind encodes to a code in 1..2 that decodes back to it |
| Types.CodigosConcordam | Front-end/src/types/index.ts:7-17 | The kind and the purpose of the same name share a code: Despesa 1, Receita 2 |
| Types.GetFinalidadeLabel | Front-end/src/types/index.ts:89-100 | A known purpose code gives that purpose's name; any other number gives 'Desconhecido' |
| Types.GetTipoTransacaoLabel | Front-end/src/types/index.ts:103-112 | A known kind code gives that kind's name; any other number gives 'Desconhecido' |
| Types.NomeFinalidade | Front-end/src/types/index.ts:89-100 | The label each known purpose gets; `LabelDoCodigo` states it is never 'Desconhecido' |
| Types.NomeTipo | Front-end/src/types/index.ts:103-112 | The label each known kind gets; `LabelDoCodigo` states it is never 'Desconhecido' |
| Types.LabelDoCodigo | Front-end/src/types/index.ts:89-112 | The label of an encoded value is its name and never the fallback |
| AppDb.SemPessoa | Back-end/Controllers/PessoaController.cs:61-62 | The people table after `Remove`: exactly the others, with that id gone from the ids, in their order |
| AppDb.SemTransacoesDe | Back-end/Data/AppDbContext.cs:18-22 | The rows the cascade keeps: exactly the transactions of other people, in their order |
| AppDb.TransacoesDe | Back-end/Data/AppDbContext.cs:18-22 | The rows the cascade removes: exactly the deleted person's transactions |
| AppDb.CascadeContagem | Back-end/Data/AppDbContext.cs:18-22 | Rows after the cascade = rows before minus the deleted person's transactions |
| AppDb.CascadeRemove | Back-end/Data/AppDbContext.cs:18-22 | The cascade row by row; what remains is exactly `SemTransacoesDe` |
| AppDb.FindPessoaAposAdicionar | Back-end/Controllers/PessoaController.cs:21-23 | Inserting a person changes no lookup of an id already stored |
| AppDb.FindCategoriaAposAdicionar | Back-end/Controllers/CategoriaController.cs:21-23 | Inserting a category changes no lookup of an id already stored |
| AppDb.FindPessoaAposRemover | Back-end/Controllers/PessoaController.cs:61-62 | Removing one person changes no lookup of another id |
| AppDb.AppDbContext.constructor | Back-end/Data/AppDbContext.cs:8-13 | An empty store satisfies the invariant |
| AppDb.Detalhar | Back-end/Services/TransacaoService.cs:38-41 | The two `Include`s: the transaction joined with a stored person and a stored category carrying its ids |
| AppDb.AppDbContext.AdicionarPessoa | Back-end/Controllers/PessoaController.cs:22-23 | One person appended with a fresh id and the given fields; the other tables are unchanged |
| AppDb.AppDbContext.AdicionarCategoria | Back-end/Controllers/CategoriaController.cs:22-23 | One category appended with a fresh id and the given fields; the other tables are unchanged |
| AppDb.AppDbContext.AdicionarTransacao | Back-end/Services/TransacaoService.cs:34-35 | One transaction appended: the input with a fresh id; the existing rows and the other tables are unchanged |
| AppDb.AppDbContext.RemoverPessoa | Back-end/Data/AppDbContext.cs:15-23 | Removing a person removes exactly their transactions; categories are untouched; the invariant is kept |
| AppDb.ReferenciasAposCascata | Back-end/Data/AppDbContext.cs:18-22 | After the cascade every remaining transaction still references a stored person and category |
| TransacaoService.MensagemIdentificaRegra | Back-end/Services/TransacaoService.cs:19-32 | The five exception messages are pairwise distinct: each one names its rule |
| TransacaoService.RegraCategoria | Back-end/Services/TransacaoService.cs:28-32 | The purpose rules refuse exactly when the category does not accept the kind; income is refused with "não aceita receitas" and expense with "não aceita despesas" |
| TransacaoService.Mensagem | Back-end/Services/TransacaoService.cs:19-32 | The five exception texts, one per refusal; `MensagemIdentificaRegra` proves each reads back to its own rule, so no two coincide |
| TransacaoService.AceitaTipo | Back-end/Services/TransacaoService.cs:28-32 | The purpose/kind compatibility the two category checks enforce; `RegraCategoria` refuses exactly when it fails |
| TransacaoService.PodeRegistrar | Back-end/Services/TransacaoService.cs:25-26 | The age rule; `IdadeSoRecusaMenorComReceita` states it refuses exactly under-18 income |
| TransacaoService.Verificar | Back-end/Services/TransacaoService.cs:15-32 | A transaction passes exactly when its person and category exist, the age rule admits its kind and the category accepts it |
| TransacaoService.PessoaAusenteVence | Back-end/Services/TransacaoService.cs:18-19 | A missing person gives "Pessoa não encontrada" whatever the category |
| TransacaoService.CategoriaAusente | Back-end/Services/TransacaoService.cs:18-22 | With the person present, a missing category gives "Categoria não encontrada" |
| TransacaoService.MenorAntesDaCategoria | Back-end/Services/TransacaoService.cs:25-29 | A minor recording income gets the minor message even when the category would also refuse |
| TransacaoService.IdadeSoRecusaMenorComReceita | Back-end/Services/TransacaoService.cs:25-26 | The age refusal happens only for a person under 18 recording income |
| TransacaoService.CategoriaDecide | Back-end/Services/TransacaoService.cs:28-32 | With both references present and the age rule met, the outcome is the purpose rules' |
| TransacaoService.ValorNaoVerificado | Back-end/Services/TransacaoService.cs:15-35 | Description and amount never affect the decision |
| TransacaoService.RegrasAposAdicionar | Back-end/Services/TransacaoService.cs:15-35 | Appending a transaction that passes the checks keeps every stored transaction valid |
| TransacaoService.FindTransacaoNova | Back-end/Services/TransacaoService.cs:38-41 | The re-read by the new id finds exactly the row just saved |
| TransacaoService.Criar | Back-end/Services/TransacaoService.cs:15-41 | A refusal returns the first failing check and leaves the store unchanged. Otherwise exactly one row is appended, the input with a fresh id, and the returned record is that row joined. Both invariants are kept |
| TransacoesController.ParaEntidade | Back-end/Controllers/TransacaoController.cs:27-34 | The entity carries the body's five fields unchanged: reading them back gives the body |
| TransacoesController.EntidadeSoPerdeId | Back-end/Controllers/TransacaoController.cs:27-34 | Only the id differs between a transaction and the entity rebuilt from its fields |
| TransacoesController.Juntar | Back-end/Controllers/TransacaoController.cs:52-54 | One joined record per transaction, in order, each with a stored person and category matching its ids |
| TransacoesController.Listar | Back-end/Controllers/TransacaoController.cs:52-56 | GET: every stored transaction in table order, joined with its person and category; reads only |
| TransacoesController.ListarPessoaUnica | Back-end/Controllers/TransacaoController.cs:52-53 | With unique ids, the person on a listed row is the one stored person with that id |
| TransacoesController.JuntarAposAdicionar | Back-end/Controllers/TransacaoController.cs:52-54 | An appended row is joined and listed last, after the rows joined before |
| TransacoesController.Criar | Back-end/Controllers/TransacaoController.cs:23-46 | A refusal becomes 400 with that rule's message, and the store is unchanged. Otherwise 201 with the new id and the joined record; the row carries the body's fields; the listing ends with the record |
| CategoriasController.Criar | Back-end/Controllers/CategoriaController.cs:19-25 | One new category with the body's fields and a fresh id; nothing else changes; both invariants are kept |
| PessoasController.Criar | Back-end/Controllers/PessoaController.cs:19-25 | An invalid body (blank name, age outside 1..150) is refused with no change. Otherwise one person is appended with the body's name and age and a fresh id |
| PessoasController.DtoValido | Back-end/DTOs/PessoaCreateDto.cs:7-11 | The model validation: a name not blank by .NET white space and an age in 1..150; `PessoasController.Criar` answers 400 exactly when it fails |
| PessoasController.Deletar | Back-end/Controllers/PessoaController.cs:55-64 | An unknown id gives NotFound and no change. Otherwise exactly that person goes, with exactly their transactions; categories stay; both invariants are kept |
| PessoasController.SemPessoaRemoveUma | Back-end/Controllers/PessoaController.cs:57-62 | With unique ids, removing a present id removes exactly one person |
| PessoasController.Resumos | Back-end/Controllers/PessoaController.cs:33-41 | One summary per person, in table order |
| PessoasController.SomaDoTipo | Back-end/Controllers/PessoaController.cs:38-41 | The per-kind sum over one person's transactions; `ResumoPorPessoa` uses it, `TotaisPage.FiltrosIgualSoma` equates it with the client's filter-and-reduce, `CascadePreservaOutros` shows a deletion leaves it unchanged for others |
| PessoasController.Resumo | Back-end/Controllers/PessoaController.cs:35-41 | One person's summary; `ResumoPorPessoa` states its fields |
| PessoasController.SomaReceitas | Back-end/Controllers/PessoaController.cs:46 | The overall income, summed over the summaries; `TotaisGeraisSobreTodas` equates it with the sum over all transactions |
| PessoasController.SomaDespesas | Back-end/Controllers/PessoaController.cs:47 | The overall expense, summed over the summaries; `TotaisGeraisSobreTodas` equates it with the sum over all transactions |
| PessoasController.SomaSaldos | Back-end/Controllers/PessoaController.cs:48 | The sum of the balances; `SaldoLiquidoGeralDiferenca` equates it with income minus expense |
| PessoasController.GetTotais | Back-end/Controllers/PessoaController.cs:31-52 | The report of `GET /pessoas/totais`; see `ResumoPorPessoa`, `TotaisGeraisSobreTodas` and `SaldoLiquidoGeralDiferenca`, and `TotaisPage.ClienteConcordaComServidor` for its agreement with the page |
| PessoasController.ResumoPorPessoa | Back-end/Controllers/PessoaController.cs:33-41 | Each summary carries the name, the income sum and the expense sum of that person's transactions, and the balance as their difference |
| PessoasController.SemTransacoesZero | Back-end/Controllers/PessoaController.cs:37-40 | A person without transactions gets 0 |
| PessoasController.SaldoLiquidoGeralDiferenca | Back-end/Controllers/PessoaController.cs:46-48 | The sum of the balances equals overall income minus overall expense |
| PessoasController.TotaisGeraisSobreTodas | Back-end/Controllers/PessoaController.cs:46-47 | In a consistent store the overall income and expense are the sums over all transactions |
| PessoasController.CascadePreservaOutros | Back-end/Data/AppDbContext.cs:18-22 | After deleting one person, every other person's sums are what they were |
| TotaisPage.DaPessoa | Front-end/src/pages/TotaisPage.tsx:49-51 | The filter keeps exactly the transactions of the given person |
| TotaisPage.DoTipo | Front-end/src/pages/TotaisPage.tsx:53-59 | The filter keeps exactly the transactions of the given kind |
| TotaisPage.TotaisPorPessoa | Front-end/src/pages/TotaisPage.tsx:48-67 | One total per person, in the people list's order |
| TotaisPage.ReduceValor | Front-end/src/pages/TotaisPage.tsx:53-59 | The amounts folded from the left; `ReduceIgualSoma` equates it with their sum |
| TotaisPage.TotalDe | Front-end/src/pages/TotaisPage.tsx:48-66 | One person's entry; `TotalDeSomas` equates its totals with the server's sums |
| TotaisPage.ReduceReceitas | Front-end/src/pages/TotaisPage.tsx:70 | The overall income fold; `ReduceReceitasIgualSoma` equates it with the server's sum |
| TotaisPage.ReduceDespesas | Front-end/src/pages/TotaisPage.tsx:71 | The overall expense fold; `ReduceDespesasIgualSoma` equates it with the server's sum |
| TotaisPage.LoadTotais | Front-end/src/pages/TotaisPage.tsx:36-75 | The figures loadTotais sets; `ClienteConcordaComServidor` equates them with `GetTotais` |
| TotaisPage.SaldoLiquido | Front-end/src/pages/TotaisPage.tsx:92 | The net balance; `ClienteConcordaComServidor` equates it with the server's sum of balances |
| TotaisPage.ReduceIgualSoma | Front-end/src/pages/TotaisPage.tsx:55 | The left fold from 0 is the sum of the amounts |
| TotaisPage.FiltrosIgualSoma | Front-end/src/pages/TotaisPage.tsx:49-59 | Filtering by person, then by kind, then summing equals the server's per-person sum |
| TotaisPage.TotalDeSomas | Front-end/src/pages/TotaisPage.tsx:48-67 | A person's total carries that person, the sums of their income and expense, and the balance as the difference |
| TotaisPage.ReduceReceitasIgualSoma | Front-end/src/pages/TotaisPage.tsx:70 | The overall income fold equals the server's sum of per-person income |
| TotaisPage.ReduceDespesasIgualSoma | Front-end/src/pages/TotaisPage.tsx:71 | The overall expense fold equals the server's sum of per-person expense |
| TotaisPage.ClienteConcordaComServidor | Front-end/src/pages/TotaisPage.tsx:48-92 | Client and server report the same figures, person by person in the same order and overall; `saldoLiquido` equals the server's net balance |
| TotaisPage.DaPessoaIgnoraOrfa | Front-end/src/pages/TotaisPage.tsx:49-51 | The per-person filter ignores a transaction of another person |
| TotaisPage.TransacaoOrfaNaoConta | Front-end/src/pages/TotaisPage.tsx:48-71 | A transaction whose owner is not in the people list changes no figure of the report |
| TransacoesPage.CompativelSseServidorAceita | Front-end/src/pages/TransacoesPage.tsx:94-101 | The filter predicate holds exactly when the server's purpose rules accept the kind |
| TransacoesPage.Compativel | Front-end/src/pages/TransacoesPage.tsx:94-101 | The filter predicate; `CompativelSseServidorAceita` equates it with the server's purpose rule |
| TransacoesPage.CategoriasCompativeis | Front-end/src/pages/TransacoesPage.tsx:94-101 | The offered categories are exactly those the server accepts for the kind, Ambas always among them, in their original order (a subsequence) |
| TransacoesPage.IsPessoaMenorDeIdade | Front-end/src/pages/TransacoesPage.tsx:106-109 | The warning implies a person with the id under 18 exists, and an absent id gives no warning |
| TransacoesPage.MenorSseExistePessoaMenor | Front-end/src/pages/TransacoesPage.tsx:106-109 | With unique ids: the warning is shown exactly when a person with the id exists and is under 18 |
| TransacoesPage.AlertaPreveRecusa | Front-end/src/pages/TransacoesPage.tsx:106-109 | For income with existing references, the warning is shown exactly when the server refuses with the minor message |
| TransacoesPage.GuardasDoFormulario | Front-end/src/pages/TransacoesPage.tsx:118-133 | The form is sent exactly when the description is not all white space, the amount is positive, and a person and a category are selected. Otherwise the first failing guard, in that order, gives its message |
| TransacoesPage.ValidarFormulario | Front-end/src/pages/TransacoesPage.tsx:118-133 | The four guards in order; `GuardasDoFormulario` states when each fires |
| TransacoesPage.FormPadraoRecusado | Front-end/src/pages/TransacoesPage.tsx:45-51 | The initial form is refused with the description message |
| TransacoesPage.TrocaDeTipoExigeCategoria | Front-end/src/pages/TransacoesPage.tsx:179-181 | After a change of kind the form cannot be sent until a category is chosen again |
| TransacoesPage.TransacaoForm.constructor | Front-end/src/pages/TransacoesPage.tsx:45-56 | The form starts at its defaults with no banners |
| TransacoesPage.TransacaoForm.HandleTipoChange | Front-end/src/pages/TransacoesPage.tsx:179-181 | Sets the kind and clears the category; description, amount, person and banners are unchanged |
| TransacoesPage.TransacaoForm.HandleSubmit | Front-end/src/pages/TransacoesPage.tsx:114-156 | A failing guard sets its message and sends nothing. Otherwise the contents are sent. Success resets the form, sets the banner and reloads, a failed reload showing its `getErrorMessage` text. A failed send shows `getErrorMessage`'s text as written and keeps the contents |
| TransacoesPage.TransacaoForm.Concluir | Front-end/src/pages/TransacoesPage.tsx:138-153 | After the guards: the error is cleared; success sets the banner, resets the form and reloads; failure shows `getErrorMessage`'s text and changes nothing else |
| TransacoesPage.TransacaoForm.CarregarDados | Front-end/src/pages/TransacoesPage.tsx:66-86 | loadData clears the error, and a failed load shows `getErrorMessage`'s text; the form contents and the success banner are unchanged |
| TransacoesPage.RecusaDoMenorSemRegra | Front-end/src/pages/TransacoesPage.tsx:150-152 | For income by a person the warning flags as under 18, the server refuses with the minor rule, and the form shows the generic 400 text, not that rule's message |
| ExportButtons.LinhasDoRelatorio | Front-end/src/components/ExportButtons.tsx:29-42 | |totais| + 3 lines: the exact header, one line per person in order, an empty line, and `TOTAL GERAL;;r;d;s` |
| ExportButtons.CamposPessoa | Front-end/src/components/ExportButtons.tsx:30-36 | One person's fields; `LinhasDePessoas` and `LinhaPessoaCincoCampos` state the line they make |
| ExportButtons.CamposTotal | Front-end/src/components/ExportButtons.tsx:40 | The total line's fields; `LinhaTotal` states the line |
| ExportButtons.LinhasPessoas | Front-end/src/components/ExportButtons.tsx:30-36 | One row of fields per person; `LinhasDePessoas` states their place in the report |
| ExportButtons.Juntar | Front-end/src/components/ExportButtons.tsx:42 | Each row joined with ';'; `LinhasDoRelatorio` states the lines it gives |
| ExportButtons.LinhasCsv | Front-end/src/components/ExportButtons.tsx:29-42 | The report's lines; `LinhasDoRelatorio` pins them |
| ExportButtons.Csv | Front-end/src/components/ExportButtons.tsx:42-43 | The downloaded content; `ExportToCsv` and `CsvSeparaEmLinhas` state it |
| ExportButtons.LinhaCabecalho | Front-end/src/components/ExportButtons.tsx:29 | The header line is exactly `Pessoa;Idade;Receitas;Despesas;Saldo` |
| ExportButtons.LinhaTotal | Front-end/src/components/ExportButtons.tsx:40 | The total line is `TOTAL GERAL`, an empty field, then the three rendered amounts |
| ExportButtons.LinhasDePessoas | Front-end/src/components/ExportButtons.tsx:30-33 | The person lines sit between the header and the empty line, one per person in order |
| ExportButtons.LinhasSemQuebra | Front-end/src/components/ExportButtons.tsx:29-42 | No line of the report holds a line break when no name and no rendered amount does |
| ExportButtons.IdadeSemSeparador | Front-end/src/components/ExportButtons.tsx:32 | A rendered age holds neither ';' nor a line break |
| ExportButtons.ExportToCsv | Front-end/src/components/ExportButtons.tsx:28-43 | The content built by map, two pushes and the joins is the mark followed by the report's lines joined with '\n' |
| ExportButtons.CsvSeparaEmLinhas | Front-end/src/components/ExportButtons.tsx:39-43 | With no line break in names or amounts, the content starts with U+FEFF and splits back into exactly the report's lines, |totais| + 3 of them |
| ExportButtons.LinhaPessoaCincoCampos | Front-end/src/components/ExportButtons.tsx:30-42 | With no ';' in the name or amounts, a person's line splits back into its five fields |
| ExportButtons.NomeComSeparadorGeraSeisCampos | Front-end/src/components/ExportButtons.tsx:42 | Fields are not escaped: the name "a;b" makes the line read back as six fields |
| Api.MensagemDoCorpo | Front-end/src/services/api.ts:34-51 | The body step: a non-empty string body as is, else a filled `message`, else non-empty `errors` joined with ', ', else nothing |
| Api.MensagemDoStatus | Front-end/src/services/api.ts:54-64 | Statuses 400, 404 and 500 give their fixed texts; otherwise the transport message, or 'Erro ao comunicar com o servidor.' when it is empty |
| Api.GetErrorMessage | Front-end/src/services/api.ts:29-68 | A non-Axios error gives 'Ocorreu um erro inesperado.'; otherwise the body step wins when it yields, else the status step |
| Api.IgnoraMensagem | Front-end/src/services/api.ts:43-50 | As written, the `mensagem` field never affects the result |
| Api.CorpoBadRequest | Back-end/Controllers/TransacaoController.cs:44 | The 400 body holds the message under `mensagem`, with neither `message` nor `errors` |
| Api.RegraNuncaExibida | Front-end/src/services/api.ts:43-55 | As written, every rule refusal shows the generic 400 text, which names no rule |
| Api.MensagemDoCorpoCorrigida | Front-end/src/services/api.ts:43-45 | The body step that also reads a filled `mensagem` after `message`; it agrees with the original otherwise |
| Api.GetErrorMessageCorrigida | Front-end/src/services/api.ts:29-68 | The chain with the corrected body step |
| Api.CorrigidaExibeRegra | Front-end/src/services/api.ts:43-45 | With the correction, each rule refusal shows its own message, and the rule can be read back from it |
| Api.CorrigidaConservaOResto | Front-end/src/services/api.ts:29-68 | The correction changes nothing for a body without a filled `mensagem` |

## Left out

- HTTP, routing, JSON (de)serialisation, axios, `Promise.all`, the `useEffect` initial load, `setTimeout` banner clearing and the `isSubmitting` and `isLoading` flags are not modelled. The network outcomes of a send and of the reload after it are parameters of `HandleSubmit`.
- TransacoesPage.TransacaoForm.CarregarDados: only loadData's effect on the error banner is modelled. The lists it fetches are not state of the form.
- EF Core `Include`, `AsNoTracking`, `SaveChanges` and SQLite are not modelled. The store is sequences with per-table id counters, and a save is atomic with its operation.
- Concurrent requests against the shared database are not modelled.
- Floating-point arithmetic of the client and `toFixed(2)` are not modelled. Amounts are exact reals, and the two-decimal rendering is the parameter `fixed2` of the CSV functions.
- The overflow of C# `decimal` sums, and of 32-bit ids and ages, is not modelled. Integers are unbounded.
- TransacaoService.Verificar: the kind is one of the two declared values. The JSON binder would also accept another integer for `Tipo`, which no rule refuses; that case is not modelled.
- TransacoesPage.CompativelSseServidorAceita: a category's purpose is one of the three declared values. Nothing validates `Finalidade` on `POST /api/categorias` (Back-end/DTOs/CategoriaCreateDto.cs:8, Back-end/Controllers/CategoriaController.cs:21-23), so a body such as `{"finalidade": 4}` stores purpose 4. For such a category the server accepts both kinds, because neither check at TransacaoService.cs:28-32 matches. The client's filter hides it from both kinds. These purposes are not modelled, so the agreement this lemma and `TransacaoService.RegraCategoria` state covers only the declared purposes.
- PessoasController.Criar: the automatic 400 for an invalid body is a single result; its problem-details body is not modelled. In `Api.Corpo` such a body, whose `errors` is a dictionary rather than a list, is an object without an `errors` list.
- `Listar` of people and of categories are not modelled. Each returns a table unchanged.
- Category deletion is refused in the client and has no endpoint, so it is not modelled.
- `handleDelete` of transactions is not modelled, because the back end has no DELETE endpoint for transactions.
- The amount field stores `parseFloat(...) || 0` (Front-end/src/pages/TransacoesPage.tsx:298), so unparsable input becomes 0 and no NaN reaches the guard. An input such as "1e999" parses to `Infinity`, which passes `valor <= 0`; infinite amounts are not modelled, because amounts are reals.
- `exportToPDF`, the Blob/URL download, the file name's date, and currency formatting are not modelled.
- The pages for people and categories, the charts, and the layout and display components are not modelled.

## Findings

| source | as written | input that shows it | evidently intended | confidence | as-written member | corrected member |
|---|---|---|---|---|---|---|
| Front-end/src/services/api.ts:43-55 | The body step reads only `message` and `errors`, but the API's refusal body is `{ mensagem }`. The error falls through to the 400 text | POST /transacoes for a person under 18 with kind Receita: the body is `{"mensagem": "Menores de idade não podem registrar receitas"}` and the form shows "Dados inválidos. Verifique os campos e tente novamente." | The rule's message is shown, as the comment at TransacoesPage.tsx:151 says | not executed | Api.RegraNuncaExibida | Api.CorrigidaExibeRegra |
