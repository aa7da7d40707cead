/** `produtosFiltrados` of ProdutosList.jsx: the product list narrowed by the
    category buttons and the name search box. */
module ProductFilter {
  import opened Wrappers
  import opened Text
  import opened Seqs
  import opened Records

  /** The category button that shows every product. */
  const Todos := "Todos"

  /** `categoria === 'Todos' || p.categoria === categoria`. */
  predicate MatchesCategoria(p: Produto, categoria: string) {
    categoria == Todos || p.categoria == Some(categoria)
  }

  /** `!busca || p.nome_produto.toLowerCase().includes(busca.toLowerCase())`.
      The search text is not trimmed: a lone space must occur in the name. */
  predicate MatchesBusca(p: Produto, busca: string) {
    busca == "" || Includes(Lower(p.nomeProduto), Lower(busca))
  }

  /** A product is listed exactly when it passes both tests. */
  function ProdutosFiltrados(produtos: seq<Produto>, busca: string, categoria: string): (r: seq<Produto>)
    ensures forall i | 0 <= i < |r| :: r[i] in produtos && MatchesCategoria(r[i], categoria) && MatchesBusca(r[i], busca)
    ensures forall i | 0 <= i < |produtos| ::
      MatchesCategoria(produtos[i], categoria) && MatchesBusca(produtos[i], busca) ==> produtos[i] in r
  {
    Filter(produtos, p => MatchesCategoria(p, categoria) && MatchesBusca(p, busca))
  }

  /** The result is the order-preserving sublist of the products that pass. */
  lemma ProdutosFiltradosSublist(produtos: seq<Produto>, busca: string, categoria: string, p: Produto)
    ensures IsSubseq(ProdutosFiltrados(produtos, busca, categoria), produtos)
    ensures multiset(ProdutosFiltrados(produtos, busca, categoria))[p]
      == if MatchesCategoria(p, categoria) && MatchesBusca(p, busca) then multiset(produtos)[p] else 0
  {
    FilterIsSubseq(produtos, q => MatchesCategoria(q, categoria) && MatchesBusca(q, busca));
    FilterMultiset(produtos, q => MatchesCategoria(q, categoria) && MatchesBusca(q, busca), p);
  }

  /** With 'Todos' and an empty search the list is shown unchanged. */
  lemma ProdutosFiltradosUnfiltered(produtos: seq<Produto>)
    ensures ProdutosFiltrados(produtos, "", Todos) == produtos
  {
    FilterKeepsAll(produtos, q => MatchesCategoria(q, Todos) && MatchesBusca(q, ""));
  }

  /** Applying the same filters to the filtered list changes nothing. */
  lemma ProdutosFiltradosIdempotent(produtos: seq<Produto>, busca: string, categoria: string)
    ensures ProdutosFiltrados(ProdutosFiltrados(produtos, busca, categoria), busca, categoria)
         == ProdutosFiltrados(produtos, busca, categoria)
  {
    FilterIdempotent(produtos, q => MatchesCategoria(q, categoria) && MatchesBusca(q, busca));
  }
}
