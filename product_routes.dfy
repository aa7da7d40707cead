/** The `/produtos` routes of backend/routes/produtos.js: request validation
    and defaulting, the status code of each outcome, and the effect of each
    statement on the Produtos table, kept as a map from `id_produto` to the
    row's other nine columns. Whether the database reports an error is a
    parameter of each handler (`falha`: the driver's error code, if any). */
module ProductRoutes {
  import opened Wrappers

  /** A JSON value of the request body (or a column value). */
  datatype Valor = Nulo | Texto(s: string) | Numero(x: real)

  /** JavaScript falsiness: undefined/null, '' and 0. */
  predicate Falsy(v: Valor) {
    v == Nulo || v == Texto("") || v == Numero(0.0)
  }

  /** `v || d`. */
  function Or(v: Valor, d: Valor): Valor {
    if Falsy(v) then d else v
  }

  /** The nine columns of a Produtos row other than `id_produto`, in the order
      of the INSERT and UPDATE statements; also the fields of a request body. */
  datatype Campos = Campos(
    nomeProduto: Valor,
    descricao: Valor,
    precoVenda: Valor,
    quantidadeEstoque: Valor,
    quantMax: Valor,
    quantMin: Valor,
    dataValidade: Valor,
    idFornecedor: Valor,
    categoria: Valor)

  const Outros: Valor := Texto("Outros")
  const RowIsReferenced := "ER_ROW_IS_REFERENCED_2"

  const MsgNaoEncontrado := "Produto não encontrado"
  const MsgPostObrigatorios := "Nome do produto e preço de venda são obrigatórios"
  const MsgPutObrigatorios := "Nome, preço e quantidades max/min são obrigatórios"
  const MsgJaVendido := "Não é possível excluir produto que já foi vendido"
  const MsgErroBuscar := "Erro ao buscar produto"
  const MsgErroCadastrar := "Erro ao cadastrar produto"
  const MsgErroAtualizar := "Erro ao atualizar produto"
  const MsgErroExcluir := "Erro ao excluir produto"
  const MsgCadastrado := "Produto cadastrado com sucesso!"
  const MsgAtualizado := "Produto atualizado com sucesso!"
  const MsgExcluido := "Produto excluído com sucesso!"

  datatype Corpo =
    | Mensagem(texto: string)
    | Erro(erro: string)
    | Criado(message: string, id: int)
    | Linha(id: int, linha: Campos)

  datatype Resposta = Resposta(status: int, corpo: Corpo)

  /** POST's check: `nome_produto` and `preco_venda` must be truthy. */
  predicate PostAccepts(body: Campos) {
    !Falsy(body.nomeProduto) && !Falsy(body.precoVenda)
  }

  /** PUT's check: also `quant_max` and `quant_min` must be truthy. */
  predicate PutAccepts(body: Campos) {
    !Falsy(body.nomeProduto) && !Falsy(body.precoVenda) && !Falsy(body.quantMax) && !Falsy(body.quantMin)
  }

  /** What every row written through these routes satisfies: a name, a price
      and a category that are not falsy. */
  predicate RowInvariant(r: Campos) {
    !Falsy(r.nomeProduto) && !Falsy(r.precoVenda) && !Falsy(r.categoria)
  }

  /** The row POST inserts: a falsy stock becomes 0 and a falsy category
      'Outros'; every other field is stored as sent. */
  function InsertedRow(body: Campos): (r: Campos)
    ensures r.quantidadeEstoque == (if Falsy(body.quantidadeEstoque) then Numero(0.0) else body.quantidadeEstoque)
    ensures r.categoria == (if Falsy(body.categoria) then Outros else body.categoria)
    ensures r.(quantidadeEstoque := body.quantidadeEstoque, categoria := body.categoria) == body
    ensures r.quantidadeEstoque != Nulo
    ensures PostAccepts(body) ==> RowInvariant(r)
  {
    body.(quantidadeEstoque := Or(body.quantidadeEstoque, Numero(0.0)), categoria := Or(body.categoria, Outros))
  }

  /** The nine values PUT writes: only the category is defaulted; a missing
      stock is written as NULL. */
  function UpdatedRow(body: Campos): (r: Campos)
    ensures r.categoria == (if Falsy(body.categoria) then Outros else body.categoria)
    ensures r.(categoria := body.categoria) == body
    ensures PutAccepts(body) ==> RowInvariant(r)
  {
    body.(categoria := Or(body.categoria, Outros))
  }

  /** The status a failed DELETE answers: 400 when the product is referenced
      by a sale line, 500 for any other database error. */
  function DeleteErrorStatus(code: string): (status: int)
    ensures status == 400 || status == 500
    ensures status == 400 <==> code == RowIsReferenced
  {
    if code == RowIsReferenced then 400 else 500
  }

  /** A price of 0 is rejected by both POST and PUT; PUT also rejects a
      maximum or minimum quantity of 0, which POST accepts. */
  lemma ZeroValuesRejected(body: Campos)
    ensures body.precoVenda == Numero(0.0) ==> !PostAccepts(body) && !PutAccepts(body)
    ensures body.quantMax == Numero(0.0) || body.quantMin == Numero(0.0) ==> !PutAccepts(body)
    ensures !Falsy(body.nomeProduto) && body.precoVenda == Numero(1.0) && body.quantMax == Numero(0.0) ==> PostAccepts(body)
  {
  }

  /** The Produtos table. */
  class Produtos {
    var linhas: map<int, Campos>
    /** The AUTO_INCREMENT counter: above every id in the table. */
    var proximoId: int

    ghost predicate Valid()
      reads this
    {
      && (forall id | id in linhas :: id < proximoId)
      && (forall id | id in linhas :: RowInvariant(linhas[id]))
    }

    constructor ()
      ensures Valid() && linhas == map[] && proximoId == 1
    {
      linhas := map[];
      proximoId := 1;
    }

    /** `GET /:id`: 404 when no row has the id, else the row. */
    method Get(id: int, falha: Option<string>) returns (resp: Resposta)
      ensures falha.Some? ==> resp == Resposta(500, Erro(MsgErroBuscar))
      ensures falha.None? && id !in linhas ==> resp == Resposta(404, Erro(MsgNaoEncontrado))
      ensures falha.None? && id in linhas ==> resp == Resposta(200, Linha(id, linhas[id]))
      ensures resp.status == 200 <==> falha.None? && id in linhas
    {
      if falha.Some? {
        return Resposta(500, Erro(MsgErroBuscar));
      }
      if id !in linhas {
        return Resposta(404, Erro(MsgNaoEncontrado));
      }
      return Resposta(200, Linha(id, linhas[id]));
    }

    /** `POST /`: 400 and no insert when the name or the price is falsy;
        otherwise one new row under a fresh id, every other row untouched. */
    method Post(body: Campos, falha: Option<string>) returns (resp: Resposta)
      requires Valid()
      modifies this
      ensures Valid()
      ensures !PostAccepts(body) ==> resp == Resposta(400, Erro(MsgPostObrigatorios))
      ensures PostAccepts(body) && falha.Some? ==> resp == Resposta(500, Erro(MsgErroCadastrar))
      ensures resp.status != 201 ==> linhas == old(linhas) && proximoId == old(proximoId)
      ensures PostAccepts(body) && falha.None? ==>
        && resp == Resposta(201, Criado(MsgCadastrado, old(proximoId)))
        && old(proximoId) !in old(linhas)
        && linhas == old(linhas)[old(proximoId) := InsertedRow(body)]
        && proximoId == old(proximoId) + 1
    {
      if !PostAccepts(body) {
        return Resposta(400, Erro(MsgPostObrigatorios));
      }
      if falha.Some? {
        return Resposta(500, Erro(MsgErroCadastrar));
      }
      var id := proximoId;
      linhas := linhas[id := InsertedRow(body)];
      proximoId := proximoId + 1;
      resp := Resposta(201, Criado(MsgCadastrado, id));
    }

    /** `PUT /:id`: 400 when a required field is falsy, 404 when no row has the
        id; otherwise all nine columns of that row are overwritten and no other
        row changes. */
    method Put(id: int, body: Campos, falha: Option<string>) returns (resp: Resposta)
      requires Valid()
      modifies this`linhas
      ensures Valid()
      ensures !PutAccepts(body) ==> resp == Resposta(400, Erro(MsgPutObrigatorios))
      ensures PutAccepts(body) && falha.Some? ==> resp == Resposta(500, Erro(MsgErroAtualizar))
      ensures PutAccepts(body) && falha.None? && id !in old(linhas) ==> resp == Resposta(404, Erro(MsgNaoEncontrado))
      ensures resp.status != 200 ==> linhas == old(linhas)
      ensures PutAccepts(body) && falha.None? && id in old(linhas) ==>
        && resp == Resposta(200, Mensagem(MsgAtualizado))
        && linhas == old(linhas)[id := UpdatedRow(body)]
    {
      if !PutAccepts(body) {
        return Resposta(400, Erro(MsgPutObrigatorios));
      }
      if falha.Some? {
        return Resposta(500, Erro(MsgErroAtualizar));
      }
      if id !in linhas {
        return Resposta(404, Erro(MsgNaoEncontrado));
      }
      linhas := linhas[id := UpdatedRow(body)];
      resp := Resposta(200, Mensagem(MsgAtualizado));
    }

    /** `DELETE /:id`: a database error answers 400 when the product is
        referenced by a sale and 500 otherwise, 404 when no row has the id;
        otherwise exactly that row is removed. */
    method Delete(id: int, falha: Option<string>) returns (resp: Resposta)
      requires Valid()
      modifies this`linhas
      ensures Valid()
      ensures falha.Some? ==>
        resp == Resposta(DeleteErrorStatus(falha.value),
                         Erro(if falha.value == RowIsReferenced then MsgJaVendido else MsgErroExcluir))
      ensures falha.None? && id !in old(linhas) ==> resp == Resposta(404, Erro(MsgNaoEncontrado))
      ensures resp.status != 200 ==> linhas == old(linhas)
      ensures falha.None? && id in old(linhas) ==>
        resp == Resposta(200, Mensagem(MsgExcluido)) && linhas == old(linhas) - {id}
    {
      if falha.Some? {
        if falha.value == RowIsReferenced {
          return Resposta(400, Erro(MsgJaVendido));
        }
        return Resposta(500, Erro(MsgErroExcluir));
      }
      if id !in linhas {
        return Resposta(404, Erro(MsgNaoEncontrado));
      }
      linhas := linhas - {id};
      resp := Resposta(200, Mensagem(MsgExcluido));
    }
  }
}
