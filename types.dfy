/**
 * The numeric wire codes of the two enumerations and the label helpers the
 * front end shows for them. Codes travel as plain numbers, so the label
 * functions take any integer and answer 'Desconhecido' outside the enumeration.
 */
module Types {
  import opened Wrappers
  import opened Domain

  function FinalidadeCodigo(f: Finalidade): int {
    match f
    case Despesa => 1
    case Receita => 2
    case Ambas => 3
  }

  function TipoCodigo(t: Tipo): int {
    match t
    case Despesa => 1
    case Receita => 2
  }

  /** Reading a code off the wire: only 1, 2 and 3 name a purpose. */
  function FinalidadeDeCodigo(n: int): (r: Option<Finalidade>)
    ensures r.Some? <==> 1 <= n <= 3
    ensures r.Some? ==> FinalidadeCodigo(r.value) == n
  {
    if n == 1 then Some(Finalidade.Despesa)
    else if n == 2 then Some(Finalidade.Receita)
    else if n == 3 then Some(Ambas)
    else None
  }

  /** Reading a code off the wire: only 1 and 2 name a kind. */
  function TipoDeCodigo(n: int): (r: Option<Tipo>)
    ensures r.Some? <==> 1 <= n <= 2
    ensures r.Some? ==> TipoCodigo(r.value) == n
  {
    if n == 1 then Some(Tipo.Despesa)
    else if n == 2 then Some(Tipo.Receita)
    else None
  }

  /** The codes round-trip unchanged, and no two purposes share a code. */
  lemma FinalidadeCodigoRoundTrip(f: Finalidade)
    ensures FinalidadeDeCodigo(FinalidadeCodigo(f)) == Some(f)
    ensures 1 <= FinalidadeCodigo(f) <= 3
  {
  }

  lemma TipoCodigoRoundTrip(t: Tipo)
    ensures TipoDeCodigo(TipoCodigo(t)) == Some(t)
    ensures 1 <= TipoCodigo(t) <= 2
  {
  }

  /** A kind and the purpose of the same name carry the same code, as the two client enums declare. */
  lemma CodigosConcordam()
    ensures TipoCodigo(Tipo.Despesa) == FinalidadeCodigo(Finalidade.Despesa) == 1
    ensures TipoCodigo(Tipo.Receita) == FinalidadeCodigo(Finalidade.Receita) == 2
  {
  }

  function NomeFinalidade(f: Finalidade): string {
    match f
    case Despesa => "Despesa"
    case Receita => "Receita"
    case Ambas => "Ambas"
  }

  function NomeTipo(t: Tipo): string {
    match t
    case Despesa => "Despesa"
    case Receita => "Receita"
  }

  /** getFinalidadeLabel: the purpose's name for a known code, 'Desconhecido' for any other number. */
  function GetFinalidadeLabel(codigo: int): (r: string)
    ensures FinalidadeDeCodigo(codigo).Some? ==> r == NomeFinalidade(FinalidadeDeCodigo(codigo).value)
    ensures FinalidadeDeCodigo(codigo).None? ==> r == "Desconhecido"
  {
    if codigo == 1 then "Despesa"
    else if codigo == 2 then "Receita"
    else if codigo == 3 then "Ambas"
    else "Desconhecido"
  }

  /** getTipoTransacaoLabel: the kind's name for a known code, 'Desconhecido' for any other number. */
  function GetTipoTransacaoLabel(codigo: int): (r: string)
    ensures TipoDeCodigo(codigo).Some? ==> r == NomeTipo(TipoDeCodigo(codigo).value)
    ensures TipoDeCodigo(codigo).None? ==> r == "Desconhecido"
  {
    if codigo == 1 then "Despesa"
    else if codigo == 2 then "Receita"
    else "Desconhecido"
  }

  /** The label of an encoded value is its name, never the fallback. */
  lemma LabelDoCodigo(f: Finalidade, t: Tipo)
    ensures GetFinalidadeLabel(FinalidadeCodigo(f)) == NomeFinalidade(f) != "Desconhecido"
    ensures GetTipoTransacaoLabel(TipoCodigo(t)) == NomeTipo(t) != "Desconhecido"
  {
  }
}
