# Stock-and-sales system: verified model of the query builder, the product routes and the form logic

This project models, in Dafny, the parts of a small retail back office
(Express/MySQL back end, React front end) whose behaviour lies in the
program's own code, not in the database:

- **Sales listing query** (`GET /vendas`, backend/routes/vendas.js). It reads the
  page, page size, search text and date range from the query string. It then
  builds the WHERE clauses and their positional parameters, the page query and
  the count query, and derives the page count from the total. The SQL is kept as
  tokens (`Sql(text)` or a `?` placeholder), so the model proves that every
  query carries exactly as many placeholders as parameters.
- **Product routes** (backend/routes/produtos.js). The POST and PUT checks for
  required fields and their defaults (`quantidade_estoque || 0`,
  `categoria || 'Outros'`), the status code of every outcome, and the DELETE
  error-code mapping. The Produtos table is a class holding a map from id to row.
  Its invariant: every stored row has a name, a price and a category that are
  not falsy, and every id is below the auto-increment counter. Each handler takes
  as a parameter whether the database reports an error, and which code.
- **New-sale modal** (frontend VendasList.jsx). A class with the component's state:
  the cart, the selected product and quantity, and the chosen customer. Adding to
  the cart keeps two facts: no product appears twice, and every quantity is
  positive. The finished sale's request body is derived from the cart.
- **Customer form and list** (frontend ClientesList.jsx). The CPF, phone and CEP
  input masks, `formatDateInput`, and the search that narrows the customer list.
- **Product list** (frontend ProdutosList.jsx). The category and name filter, and
  the same `formatDateInput`.

Modules:

- `Wrappers`: `Option`.
- `Text`: JavaScript string behaviour on `seq<char>`. It covers
  `replace(/\D/g, '')`, `trim`, ASCII `toLowerCase`, `includes` and `slice`.
- `Seqs`: `Array.prototype.filter` and its sublist properties.
- `Records`: the product and customer rows the front end receives.
- `FormInputs`, `ClientSearch`, `ProductFilter`, `SaleForm`, `SalesQuery` and
  `ProductRoutes`: the components and routes above.

JavaScript semantics that matter are written out:

- falsiness: undefined, null, `''` and `0`;
- `parseInt(x) || 1`, which stores NaN and 0 as 1;
- `NaN <= 0` being false;
- `\D` matching everything but the ASCII digits;
- the whitespace set of `trim`;
- `Math.ceil(total / limit)`, which gives 0 pages when there are no sales.

With no sales, `Math.ceil(0 / limit)` is 0, so the handler reports 0 pages;
there is no minimum of one page.

## Model

| member | source | states |
|---|---|---|
| Text.Digits | frontend/src/components/ClientesList.jsx:157 | `replace(/\D/g, "")` yields only digits and never lengthens the input |
| Text.Trim | frontend/src/components/ClientesList.jsx:30 | `trim()` is empty exactly for all-whitespace input; otherwise the result starts and ends with a non-whitespace character and occurs in the input |
| Text.Lower | frontend/src/components/ClientesList.jsx:30 | `toLowerCase()` keeps the length |
| Text.IncludesAt | frontend/src/components/ClientesList.jsx:40-45 | `includes` holds exactly when the term occurs at some index |
| Text.IncludesTransitive | frontend/src/components/ClientesList.jsx:40-45 | a field containing a term contains every part of that term |
| Seqs.Filter | frontend/src/components/ClientesList.jsx:33 | `filter` keeps exactly the elements satisfying the test and never lengthens the list |
| Seqs.FilterIsSubseq | frontend/src/components/ProdutosList.jsx:25 | `filter` returns an order-preserving sublist |
| Seqs.FilterMultiset | frontend/src/components/ProdutosList.jsx:25 | `filter` keeps every occurrence of a passing element and none of a failing one |
| Seqs.FilterIdempotent | frontend/src/components/ProdutosList.jsx:25 | filtering twice with the same test equals filtering once |
| FormInputs.FormatDateInput | frontend/src/components/ClientesList.jsx:90-93 | a falsy value gives `''`; otherwise a 'T'-free prefix ending at the value's end or at its first 'T' |
| FormInputs.FormatDateInputUnique | frontend/src/components/ProdutosList.jsx:64-67 | those properties determine the result: `split('T')[0]` is the only such prefix |
| FormInputs.FormatarCpf | frontend/src/components/ClientesList.jsx:156-169 | the CPF mask yields only digits, '.' and '-', at most 14 characters |
| FormInputs.FormatarCpfDigits | frontend/src/components/ClientesList.jsx:156-169 | the mask only inserts separators: the result's digits are the first 11 digits typed |
| FormInputs.FormatarCpfMask | frontend/src/components/ClientesList.jsx:159-168 | separator positions by digit count (`ddd.ddd`, `ddd.ddd.ddd`, `ddd.ddd.ddd-dd`), and 10 digits come back unmasked |
| FormInputs.FormatarCpfIdempotent | frontend/src/components/ClientesList.jsx:156-169 | masking the masked text changes nothing, so re-rendering a controlled input is stable |
| FormInputs.FormatarCpfTenDigitsUnmasked | frontend/src/components/ClientesList.jsx:165-168 | as written: typing the tenth digit drops the mask, so the 9-digit display is not a prefix of the 10-digit one |
| FormInputs.FormatarCpfCorrected | frontend/src/components/ClientesList.jsx:156-169 | the corrected mask yields only digits, '.' and '-', at most 14 characters |
| FormInputs.FormatarCpfCorrectedExtends | frontend/src/components/ClientesList.jsx:156-169 | corrected mask: each digit typed only extends the display |
| FormInputs.FormatarTelefone | frontend/src/components/ClientesList.jsx:171-180 | the phone mask starts with '(' and is at most 15 characters |
| FormInputs.FormatarTelefoneDigits | frontend/src/components/ClientesList.jsx:171-180 | the mask only inserts punctuation: the result's digits are the first 11 digits typed |
| FormInputs.FormatarTelefoneMask | frontend/src/components/ClientesList.jsx:174-179 | punctuation positions by digit count: `(dd`, `(dd) d…`, `(dd) dddd-d…`, `(dd) ddddd-dddd` |
| FormInputs.FormatarTelefoneIdempotent | frontend/src/components/ClientesList.jsx:171-180 | masking the masked phone changes nothing |
| FormInputs.FormatarCep | frontend/src/components/ClientesList.jsx:206-214 | only digits and '-'; as long as the digits kept (at most 8), plus one for the hyphen, which appears exactly when more than 5 digits were typed |
| FormInputs.FormatarCepDigits | frontend/src/components/ClientesList.jsx:206-214 | the result's digits are the first 8 digits typed, and the hyphen sits at index 5 |
| FormInputs.FormatarCepIdempotent | frontend/src/components/ClientesList.jsx:206-214 | masking the masked CEP changes nothing |
| ClientSearch.ClientesFiltrados | frontend/src/components/ClientesList.jsx:29-50 | a blank search shows every customer; otherwise a customer is listed iff the trimmed, lower-cased term occurs in its name, CPF, phone, e-mail, city or state |
| ClientSearch.ClientesFiltradosSublist | frontend/src/components/ClientesList.jsx:29-50 | the list shown keeps the original order and the multiplicity of every listed customer |
| ClientSearch.ClientesFiltradosNarrows | frontend/src/components/ClientesList.jsx:29-50 | extending the search term only removes customers from the list |
| ProductFilter.ProdutosFiltrados | frontend/src/components/ProdutosList.jsx:24-34 | a product is listed iff its category is the chosen one (or 'Todos' is chosen) and the search is empty or occurs, case-insensitively and untrimmed, in its name |
| ProductFilter.ProdutosFiltradosSublist | frontend/src/components/ProdutosList.jsx:24-34 | the list shown is the order-preserving sublist of passing products |
| ProductFilter.ProdutosFiltradosUnfiltered | frontend/src/components/ProdutosList.jsx:20-34 | with the initial state ('Todos', empty search) every product is shown |
| ProductFilter.ProdutosFiltradosIdempotent | frontend/src/components/ProdutosList.jsx:24-34 | filtering the filtered list again changes nothing |
| SaleForm.Find | frontend/src/components/VendasList.jsx:43-45 | `find` fails iff no product has the id; a hit is a listed product with that id |
| SaleForm.StoredQuantity | frontend/src/components/VendasList.jsx:54 | `parseInt(q) \|\| 1` is positive for every quantity the guard accepts, and 1 for NaN |
| SaleForm.AddToCart | frontend/src/components/VendasList.jsx:38-57 | a press either leaves the cart unchanged or appends exactly one line for the selected product, which was not yet in the cart; no duplicates and positive quantities are preserved |
| SaleForm.AddToCartOutcome | frontend/src/components/VendasList.jsx:39-56 | when each outcome happens: invalid selection, unknown id, already in the cart, added with the stored quantity |
| SaleForm.SalePayload | frontend/src/components/VendasList.jsx:59-71 | nothing is sent iff no customer is chosen or the cart is empty; otherwise the body lists each cart line's id and quantity in order |
| SaleForm.SalePayloadFromValidCart | frontend/src/components/VendasList.jsx:59-71 | a body built from a valid cart is non-empty, names each product once, with positive quantities |
| SaleForm.NovaVenda.constructor | frontend/src/components/VendasList.jsx:8-14 | the initial state: modal closed, no customer, empty cart, no product, quantity 1 |
| SaleForm.NovaVenda.AbrirModal | frontend/src/components/VendasList.jsx:27-34 | opening resets the form and opens the modal |
| SaleForm.NovaVenda.FecharModal | frontend/src/components/VendasList.jsx:36 | closing only closes the modal |
| SaleForm.NovaVenda.AdicionarAoCarrinho | frontend/src/components/VendasList.jsx:38-57 | only the cart changes, exactly as AddToCart says, and the cart invariant is kept |
| SaleForm.NovaVenda.FinalizarVenda | frontend/src/components/VendasList.jsx:59-71 | the body posted is SalePayload of the state, with distinct ids and positive quantities |
| SalesQuery.TotalPaginas | backend/routes/vendas.js:88 | `Math.ceil(total/limit)`: the least page count whose pages hold every sale; 0 exactly when there are none |
| SalesQuery.PageHasRows | backend/routes/vendas.js:41-88 | page p starts before the last sale iff p is at most the page count |
| SalesQuery.RenderPlaceholders | backend/routes/vendas.js:67-84 | when no literal piece holds a `?`, the placeholders of a token text are exactly the `?` characters of the text sent to the database |
| SalesQuery.PlaceholdersAppend | backend/routes/vendas.js:67-84 | placeholders of concatenated SQL add up |
| SalesQuery.JoinPlaceholders | backend/routes/vendas.js:63 | joining two-placeholder clauses with ' AND ' gives two placeholders per clause |
| SalesQuery.Offset | backend/routes/vendas.js:41 | `(page - 1) * limit` is never negative for a page from 1 on |
| SalesQuery.Clauses | backend/routes/vendas.js:47-58 | each clause is the search or the date clause; the search clause is present iff the search text is non-empty, the date clause iff both dates are non-empty, and the search clause comes first |
| SalesQuery.Params | backend/routes/vendas.js:47-58 | the filter values number exactly two per clause |
| SalesQuery.ParamsFollowClauses | backend/routes/vendas.js:47-58 | clause k binds the values at positions 2k and 2k+1: `%search%` then `search` for the search clause, the start then the end date for the date clause |
| SalesQuery.WhereSql | backend/routes/vendas.js:61-64 | the WHERE text is empty iff there are no clauses |
| SalesQuery.Filters | backend/routes/vendas.js:42-58 | the pushes build exactly Clauses and Params: the search clause with `%search%` and `search`, then the date clause with both dates |
| SalesQuery.PlanPlaceholders | backend/routes/vendas.js:61-84 | the page query has two placeholders per clause plus LIMIT and OFFSET; the count query has two per clause |
| SalesQuery.Queries | backend/routes/vendas.js:61-84 | the WHERE text, the page query and the count query around it, with their placeholder counts |
| SalesQuery.ListarVendas | backend/routes/vendas.js:36-96 | defaults page 1 and limit 20; the offset; clauses and values as Filters builds them; the page query bound to the values plus limit and offset, the count query to the values alone, each with exactly as many placeholders as values; the pagination fields |
| ProductRoutes.InsertedRow | backend/routes/produtos.js:56 | the row POST inserts: a falsy stock becomes 0, a falsy category 'Outros', all else as sent; an accepted body yields a row satisfying the table invariant |
| ProductRoutes.UpdatedRow | backend/routes/produtos.js:106-117 | the row PUT writes: only the category is defaulted; an accepted body yields a row satisfying the table invariant |
| ProductRoutes.DeleteErrorStatus | backend/routes/produtos.js:137-142 | a failed delete answers 400 iff the error is ER_ROW_IS_REFERENCED_2, else 500 |
| ProductRoutes.Produtos.constructor | backend/routes/produtos.js:1-3 | an empty table satisfying the invariant |
| ProductRoutes.Produtos.Get | backend/routes/produtos.js:24-43 | 500 on a database error, 404 for an unknown id, otherwise 200 with that row |
| ProductRoutes.Produtos.Post | backend/routes/produtos.js:46-68 | 400 without name or price; 500 on a database error; otherwise 201 with a fresh id under which exactly InsertedRow is added, other rows untouched |
| ProductRoutes.Produtos.Put | backend/routes/produtos.js:71-129 | 400 without name, price, max or min; 500 on error; 404 for an unknown id; otherwise that row alone becomes UpdatedRow |
| ProductRoutes.Produtos.Delete | backend/routes/produtos.js:132-149 | 400/500 by error code; 404 for an unknown id; otherwise that row alone is removed |

## Left out

- The routes and components other than those above are not modelled. This covers
  sale creation, editing and deletion with stock updates, returns
  (devolucoes.js, DevolucoesList.jsx), the dashboard and stats endpoints, and the
  supplier screens. Their behaviour is in transactions and SQL the database runs.
- `GET /produtos` (the full listing) is not modelled. It is a single SELECT whose
  ordering by name and supplier join are done by MySQL.
- ProductRoutes.Produtos.Get: the `nome_fornecedor` column from the supplier join
  is not part of the returned row.
- The results of the sales queries are not modelled. The rows come from the
  database, and ListarVendas takes the count it returns as a parameter.
- ListarVendas: a database error answering 500 is not modelled. Query-string
  coercion is not modelled either: page and limit arrive as strings, and
  non-numeric values give NaN offsets. page and limit are taken as natural
  numbers.
- ListarVendas: limit 0 is excluded by its precondition. The source would
  compute `Math.ceil(total/0)`, which is Infinity or NaN.
- The `buscarCep` address lookup is not modelled: it is a network call to an
  external service.
- `fetch`, `alert`, `confirm`, console logging, `recarregarDados` and React
  rendering are not modelled. FinalizarVenda stops at the request body it would
  post.
- Prices and quantities are not floating point: they are `real` in the routes
  and integers in the cart. A fractional or NaN quantity typed into the cart is
  not modelled beyond the NaN case.
- Text.Lower: only ASCII letters are lower-cased. JavaScript's full Unicode case
  mapping is not modelled.
- SaleForm.Find: which product `find` returns when two share an id (the first)
  is not stated.
- ProdutosList.jsx `abrirModal` and `handleSubmit` are not modelled. They only
  copy form fields into requests to the product routes above, and the modal
  uses state setters it never declares.
- ClientesList.jsx `handleSubmit` and `handleDelete` are not modelled. They send
  the customer form to the `/clientes` routes, which are not part of this model.
- ProductRoutes.Produtos.Post: a failed insert is modelled as not consuming an
  auto-increment id, although InnoDB may consume one.
- PUT's 404 is decided by whether a row with the id exists. MySQL's
  `affectedRows` counts matched rows only with the `CLIENT_FOUND_ROWS` flag;
  without it, an update that changes nothing answers 404. The model takes the
  first reading.

## Findings

| source | as written | input that shows it | evidently intended | confidence | as-written member | corrected member |
|---|---|---|---|---|---|---|
| frontend/src/components/ClientesList.jsx:165-168 | with exactly 10 digits, the final `replace` needs 11 digits, does not match, and the digits are shown bare | typing `1234567890`: `123.456.789` becomes `1234567890` | `123.456.789-0`, with the mask extending as each digit is typed | medium, not executed | FormInputs.FormatarCpfTenDigitsUnmasked | FormInputs.FormatarCpfCorrectedExtends |
