/** The rows the front end receives from the API, reduced to the fields the
    modelled components read. A column that may be NULL is an Option. */
module Records {
  import opened Wrappers

  /** A product as listed by `GET /produtos`. */
  datatype Produto = Produto(
    idProduto: int,
    nomeProduto: string,
    categoria: Option<string>,
    quantidadeEstoque: int)

  /** A customer as listed by `GET /clientes`. */
  datatype Cliente = Cliente(
    idCliente: int,
    nomeCliente: Option<string>,
    cpf: Option<string>,
    telefone: Option<string>,
    email: Option<string>,
    cidade: Option<string>,
    estado: Option<string>)
}
