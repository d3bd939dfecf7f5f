/**
 * The category endpoint that changes the store: POST stores the body's
 * description and purpose as a new category. No rule applies to categories.
 */
module CategoriasController {
  import opened Domain
  import opened AppDb
  import opened TransacaoService

  datatype CategoriaCreateDto = CategoriaCreateDto(descricao: string, finalidade: Finalidade)

  /**
   * POST /categorias: one new category with the body's fields and a fresh id;
   * every stored transaction still passes the creation rules.
   */
  method Criar(db: AppDbContext, dto: CategoriaCreateDto) returns (c: Categoria)
    requires db.Valid()
    requires RegrasRespeitadas(db.pessoas, db.categorias, db.transacoes)
    modifies db
    ensures db.Valid() && RegrasRespeitadas(db.pessoas, db.categorias, db.transacoes)
    ensures c.descricao == dto.descricao && c.finalidade == dto.finalidade
    ensures c.id !in IdsCategorias(old(db.categorias))
    ensures db.categorias == old(db.categorias) + [c]
    ensures db.pessoas == old(db.pessoas) && db.transacoes == old(db.transacoes)
  {
    c := db.AdicionarCategoria(dto.descricao, dto.finalidade);
    forall t | t in db.transacoes
      ensures Verificar(db.pessoas, db.categorias, t).None?
    {
      assert Verificar(db.pessoas, old(db.categorias), t).None?;
      FindCategoriaAposAdicionar(old(db.categorias), c, t.categoriaId);
    }
  }
}
