/** The new-sale form of VendasList.jsx: the cart the user fills before
    `finalizarVenda` posts the sale. */
module SaleForm {
  import opened Wrappers
  import opened Records

  /** The quantity field holds `parseInt(e.target.value, 10)`: an integer, or
      NaN when the field does not parse. */
  datatype Quantidade = Inteiro(n: int) | NaN

  /** A cart line: the product row as listed (`{...produtoNoBanco}`) and its quantity. */
  datatype ItemCarrinho = ItemCarrinho(produto: Produto, quantidade: int)

  /** One line of the request body posted to `/vendas`. */
  datatype ItemVenda = ItemVenda(idProduto: int, quantidade: int)

  /** The request body `dadosVenda`. */
  datatype DadosVenda = DadosVenda(idCliente: int, produtos: seq<ItemVenda>)

  /** How `adicionarAoCarrinho` ended: appended, rejected with the "select a
      product and a valid quantity" alert, silently ignored because the id is
      not listed, or rejected with the "already in the cart" alert. */
  datatype Adicao = Adicionado | SelecaoInvalida | NaoEncontrado | Duplicado

  /** `produtos.find((p) => p.id_produto === id)`. */
  function Find(produtos: seq<Produto>, id: int): (r: Option<Produto>)
    ensures r.None? <==> forall i | 0 <= i < |produtos| :: produtos[i].idProduto != id
    ensures r.Some? ==> r.value in produtos && r.value.idProduto == id
  {
    if produtos == [] then None
    else if produtos[0].idProduto == id then Some(produtos[0])
    else Find(produtos[1..], id)
  }

  /** `carrinho.some((item) => item.id_produto === id)`. */
  predicate InCart(carrinho: seq<ItemCarrinho>, id: int) {
    exists i | 0 <= i < |carrinho| :: carrinho[i].produto.idProduto == id
  }

  /** The cart invariant: no product twice, every quantity positive. */
  predicate ValidCart(carrinho: seq<ItemCarrinho>) {
    && (forall i, j | 0 <= i < j < |carrinho| :: carrinho[i].produto.idProduto != carrinho[j].produto.idProduto)
    && (forall i | 0 <= i < |carrinho| :: carrinho[i].quantidade > 0)
  }

  /** `quantidadeProduto <= 0`; NaN compares false and so is accepted. */
  predicate NotPositive(q: Quantidade) {
    q.Inteiro? && q.n <= 0
  }

  /** `parseInt(quantidadeProduto, 10) || 1`: NaN (and 0) are stored as 1. */
  function StoredQuantity(q: Quantidade): (n: int)
    ensures !NotPositive(q) ==> n > 0
    ensures q == NaN ==> n == 1
  {
    match q
    case Inteiro(n) => if n != 0 then n else 1
    case NaN => 1
  }

  /** The cart after pressing "Adicionar", and how the press ended. A press
      either leaves the cart as it was or appends one line for the selected
      product, which was not in the cart; the cart invariant is kept. */
  function AddToCart(carrinho: seq<ItemCarrinho>, produtos: seq<Produto>,
                     selecionado: Option<int>, quantidade: Quantidade): (r: (seq<ItemCarrinho>, Adicao))
    ensures r.1 != Adicionado ==> r.0 == carrinho
    ensures r.1 == Adicionado ==>
      && selecionado.Some? && !InCart(carrinho, selecionado.value)
      && |r.0| == |carrinho| + 1 && r.0[..|carrinho|] == carrinho
      && r.0[|carrinho|].produto in produtos
      && r.0[|carrinho|].produto.idProduto == selecionado.value
    ensures ValidCart(carrinho) ==> ValidCart(r.0)
  {
    if selecionado.None? || NotPositive(quantidade) then (carrinho, SelecaoInvalida)
    else
      match Find(produtos, selecionado.value)
      case None => (carrinho, NaoEncontrado)
      case Some(p) =>
        if InCart(carrinho, p.idProduto) then (carrinho, Duplicado)
        else (carrinho + [ItemCarrinho(p, StoredQuantity(quantidade))], Adicionado)
  }

  /** Each way a press can end, and when. */
  lemma AddToCartOutcome(carrinho: seq<ItemCarrinho>, produtos: seq<Produto>,
                         selecionado: Option<int>, quantidade: Quantidade)
    ensures var r := AddToCart(carrinho, produtos, selecionado, quantidade);
      && (r.1 == SelecaoInvalida <==> selecionado.None? || NotPositive(quantidade))
      && (r.1 == NaoEncontrado <==>
            selecionado.Some? && !NotPositive(quantidade)
            && forall i | 0 <= i < |produtos| :: produtos[i].idProduto != selecionado.value)
      && (r.1 == Duplicado <==>
            selecionado.Some? && !NotPositive(quantidade)
            && Find(produtos, selecionado.value).Some? && InCart(carrinho, selecionado.value))
      && (r.1 == Adicionado ==>
            r.0[|carrinho|] == ItemCarrinho(Find(produtos, selecionado.value).value, StoredQuantity(quantidade)))
  {
  }

  /** The request body of `finalizarVenda`, or None when no customer is chosen
      or the cart is empty (the alert path, which sends nothing). */
  function SalePayload(idCliente: Option<int>, carrinho: seq<ItemCarrinho>): (r: Option<DadosVenda>)
    ensures r.None? <==> idCliente.None? || carrinho == []
    ensures r.Some? ==> r.value.idCliente == idCliente.value && |r.value.produtos| == |carrinho|
    ensures r.Some? ==> forall i | 0 <= i < |carrinho| ::
      r.value.produtos[i] == ItemVenda(carrinho[i].produto.idProduto, carrinho[i].quantidade)
  {
    if idCliente.None? || carrinho == [] then None
    else Some(DadosVenda(idCliente.value,
      seq(|carrinho|, i requires 0 <= i < |carrinho| => ItemVenda(carrinho[i].produto.idProduto, carrinho[i].quantidade))))
  }

  /** A payload built from a valid cart names each product once, with a positive quantity. */
  lemma SalePayloadFromValidCart(idCliente: Option<int>, carrinho: seq<ItemCarrinho>)
    requires ValidCart(carrinho)
    ensures var r := SalePayload(idCliente, carrinho);
      r.Some? ==>
        && |r.value.produtos| > 0
        && (forall i, j | 0 <= i < j < |r.value.produtos| :: r.value.produtos[i].idProduto != r.value.produtos[j].idProduto)
        && (forall i | 0 <= i < |r.value.produtos| :: r.value.produtos[i].quantidade > 0)
  {
  }

  /** The state of the VendasList component that the new-sale modal uses. */
  class NovaVenda {
    var isModalOpen: bool
    var idCliente: Option<int>
    var carrinho: seq<ItemCarrinho>
    var produtoSelecionado: Option<int>
    var quantidadeProduto: Quantidade

    ghost predicate Valid()
      reads this
    {
      ValidCart(carrinho)
    }

    /** The `useState` initial values. */
    constructor ()
      ensures Valid()
      ensures !isModalOpen && idCliente == None && carrinho == []
      ensures produtoSelecionado == None && quantidadeProduto == Inteiro(1)
    {
      isModalOpen := false;
      idCliente := None;
      carrinho := [];
      produtoSelecionado := None;
      quantidadeProduto := Inteiro(1);
    }

    /** `abrirModal`: reset the form and open the modal. */
    method AbrirModal()
      modifies this
      ensures Valid()
      ensures isModalOpen && idCliente == None && carrinho == []
      ensures produtoSelecionado == None && quantidadeProduto == Inteiro(1)
    {
      idCliente := None;
      carrinho := [];
      produtoSelecionado := None;
      quantidadeProduto := Inteiro(1);
      isModalOpen := true;
    }

    /** `fecharModal`. */
    method FecharModal()
      requires Valid()
      modifies this`isModalOpen
      ensures Valid()
      ensures !isModalOpen
    {
      isModalOpen := false;
    }

    /** `adicionarAoCarrinho`: only the cart changes, as AddToCart says. */
    method AdicionarAoCarrinho(produtos: seq<Produto>) returns (resultado: Adicao)
      requires Valid()
      modifies this`carrinho
      ensures Valid()
      ensures (carrinho, resultado) == AddToCart(old(carrinho), produtos, produtoSelecionado, quantidadeProduto)
    {
      if produtoSelecionado.None? || NotPositive(quantidadeProduto) {
        return SelecaoInvalida;
      }
      var produtoNoBanco := Find(produtos, produtoSelecionado.value);
      if produtoNoBanco.Some? {
        if InCart(carrinho, produtoNoBanco.value.idProduto) {
          return Duplicado;
        }
        carrinho := carrinho + [ItemCarrinho(produtoNoBanco.value, StoredQuantity(quantidadeProduto))];
        return Adicionado;
      }
      return NaoEncontrado;
    }

    /** `finalizarVenda` up to the request: the body it posts, or None when it
        only alerts. The body names each cart product once, with a positive quantity. */
    method FinalizarVenda() returns (dados: Option<DadosVenda>)
      requires Valid()
      ensures dados == SalePayload(idCliente, carrinho)
      ensures dados.Some? ==> forall i, j | 0 <= i < j < |dados.value.produtos| ::
        dados.value.produtos[i].idProduto != dados.value.produtos[j].idProduto
      ensures dados.Some? ==> forall i | 0 <= i < |dados.value.produtos| :: dados.value.produtos[i].quantidade > 0
    {
      SalePayloadFromValidCart(idCliente, carrinho);
      dados := SalePayload(idCliente, carrinho);
    }
  }
}
