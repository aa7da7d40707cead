/** The `GET /vendas` handler of backend/routes/vendas.js: from the query
    string it builds the WHERE clauses and their positional parameters, the
    page query and the count query, and from the count it derives the number
    of pages. The SQL text is kept as a sequence of tokens so that its `?`
    placeholders can be counted against the parameter list. */
module SalesQuery {
  import opened Wrappers

  /** A piece of SQL text: literal text, or one `?` placeholder. */
  datatype Token = Sql(text: string) | Placeholder

  type SqlText = seq<Token>

  /** The text sent to the database. */
  function Render(t: SqlText): string {
    if t == [] then ""
    else (match t[0] case Sql(s) => s case Placeholder => "?") + Render(t[1..])
  }

  function Placeholders(t: SqlText): nat {
    if t == [] then 0 else (if t[0].Placeholder? then 1 else 0) + Placeholders(t[1..])
  }

  /** The number of `?` characters in a text. */
  function Questions(s: string): nat {
    if s == [] then 0 else (if s[0] == '?' then 1 else 0) + Questions(s[1..])
  }

  /** No literal piece of `t` holds a `?` of its own. */
  predicate PlainText(t: SqlText) {
    forall i | 0 <= i < |t| :: t[i].Sql? ==> '?' !in t[i].text
  }

  lemma {:induction false} QuestionsAppend(a: string, b: string)
    ensures Questions(a + b) == Questions(a) + Questions(b)
  {
    if a == [] {
      assert a + b == b;
    } else {
      assert (a + b)[1..] == a[1..] + b;
      QuestionsAppend(a[1..], b);
    }
  }

  lemma {:induction false} NoQuestions(s: string)
    requires '?' !in s
    ensures Questions(s) == 0
  {
    if s != [] {
      NoQuestions(s[1..]);
    }
  }

  /** The placeholders of a token text are exactly the `?` characters of the
      text sent to the database, when its literal pieces hold none. */
  lemma {:induction false} RenderPlaceholders(t: SqlText)
    requires PlainText(t)
    ensures Questions(Render(t)) == Placeholders(t)
  {
    if t != [] {
      var head := match t[0] case Sql(s) => s case Placeholder => "?";
      assert Render(t) == head + Render(t[1..]);
      assert PlainText(t[1..]) by {
        forall i | 0 <= i < |t[1..]| && t[1..][i].Sql?
          ensures '?' !in t[1..][i].text
        {
          assert t[1..][i] == t[i + 1];
        }
      }
      RenderPlaceholders(t[1..]);
      QuestionsAppend(head, Render(t[1..]));
      if t[0].Sql? {
        NoQuestions(head);
      }
    }
  }

  lemma {:induction false} PlaceholdersAppend(a: SqlText, b: SqlText)
    ensures Placeholders(a + b) == Placeholders(a) + Placeholders(b)
  {
    if a == [] {
      assert a + b == b;
    } else {
      assert (a + b)[1..] == a[1..] + b;
      PlaceholdersAppend(a[1..], b);
    }
  }

  /** `parts.join(sep)`. */
  function Join(parts: seq<SqlText>, sep: SqlText): SqlText {
    if |parts| == 0 then []
    else if |parts| == 1 then parts[0]
    else parts[0] + sep + Join(parts[1..], sep)
  }

  /** A value bound to a placeholder. */
  datatype Param = Text(s: string) | Int(n: int)

  /** The query string; a missing key is None. */
  datatype Query = Query(
    page: Option<nat>,
    limit: Option<nat>,
    search: Option<string>,
    dataInicio: Option<string>,
    dataFim: Option<string>)

  /** Everything the handler sends to the database. */
  datatype Plan = Plan(
    offset: int,
    whereClauses: seq<SqlText>,
    params: seq<Param>,
    whereSql: SqlText,
    pageSql: SqlText,
    pageParams: seq<Param>,
    countSql: SqlText,
    countParams: seq<Param>)

  /** The pagination fields of the JSON answer. */
  datatype Pagination = Pagination(totalPaginas: nat, paginaAtual: nat, totalVendas: nat)

  const DefaultPage: nat := 1
  const DefaultLimit: nat := 20

  const SearchClause: SqlText :=
    [Sql("(c.nome_cliente LIKE "), Placeholder, Sql(" OR v.id_venda = "), Placeholder, Sql(")")]
  const DateClause: SqlText :=
    [Sql("DATE(v.data_venda) BETWEEN "), Placeholder, Sql(" AND "), Placeholder]
  const And: SqlText := [Sql(" AND ")]
  const Where: SqlText := [Sql("WHERE ")]

  const PageHead: SqlText :=
    [Sql("\n      SELECT * FROM vw_vendas_com_cliente v\n      LEFT JOIN Clientes c ON v.id_cliente = c.id_cliente\n      ")]
  const PageTail: SqlText :=
    [Sql("\n      ORDER BY v.data_venda DESC\n      LIMIT "), Placeholder, Sql(" OFFSET "), Placeholder, Sql("\n    ")]
  const CountHead: SqlText :=
    [Sql("\n      SELECT COUNT(*) as total\n      FROM Vendas v\n      JOIN Clientes c ON v.id_cliente = c.id_cliente\n      ")]
  const CountTail: SqlText := [Sql("\n    ")]

  function Page(q: Query): nat { q.page.GetOr(DefaultPage) }
  function Limit(q: Query): nat { q.limit.GetOr(DefaultLimit) }
  function Search(q: Query): string { q.search.GetOr("") }

  /** `if (search)`: a non-empty search text. */
  predicate HasSearch(q: Query) { Search(q) != "" }

  /** `if (data_inicio && data_fim)`: both bounds non-empty. */
  predicate HasDates(q: Query) { q.dataInicio.GetOr("") != "" && q.dataFim.GetOr("") != "" }

  /** `Math.ceil(total / limit)`. */
  function TotalPaginas(total: nat, limit: nat): (r: nat)
    requires limit > 0
    ensures r * limit >= total
    ensures r > 0 ==> (r - 1) * limit < total
    ensures r == 0 <==> total == 0
  {
    (total + limit - 1) / limit
  }

  /** Page `p` (counting from 1) has rows exactly when it is one of the
      TotalPaginas pages. */
  lemma {:induction false} PageHasRows(total: nat, limit: nat, p: nat)
    requires limit > 0 && p >= 1
    ensures (p - 1) * limit < total <==> p <= TotalPaginas(total, limit)
  {
    var n := TotalPaginas(total, limit);
    if p <= n {
      assert (p - 1) * limit <= (n - 1) * limit by {
        MultiplyMonotone(p - 1, n - 1, limit);
      }
    } else {
      assert n * limit <= (p - 1) * limit by {
        MultiplyMonotone(n, p - 1, limit);
      }
    }
  }

  lemma MultiplyMonotone(a: nat, b: nat, c: nat)
    requires a <= b
    ensures a * c <= b * c
  {
  }

  /** The filter clauses: the search clause when there is a search text,
      then the date clause when both dates are given. */
  function Clauses(q: Query): (r: seq<SqlText>)
    ensures |r| == (if HasSearch(q) then 1 else 0) + (if HasDates(q) then 1 else 0)
    ensures SearchClause in r <==> HasSearch(q)
    ensures DateClause in r <==> HasDates(q)
    ensures HasSearch(q) ==> r[0] == SearchClause
    ensures forall i | 0 <= i < |r| :: r[i] == SearchClause || r[i] == DateClause
  {
    assert SearchClause[0] != DateClause[0];
    (if HasSearch(q) then [SearchClause] else []) + (if HasDates(q) then [DateClause] else [])
  }

  /** The values for the clauses' placeholders, in placeholder order: the
      LIKE pattern and the id for the search, then the two dates. */
  function Params(q: Query): (r: seq<Param>)
    ensures |r| == 2 * |Clauses(q)|
  {
    (if HasSearch(q) then [Text("%" + Search(q) + "%"), Text(Search(q))] else [])
    + (if HasDates(q) then [Text(q.dataInicio.value), Text(q.dataFim.value)] else [])
  }

  /** Clause `k` binds the values at positions `2k` and `2k + 1`: the LIKE
      pattern and the id for the search clause, the two dates for the date
      clause. */
  lemma {:induction false} ParamsFollowClauses(q: Query, k: nat)
    requires k < |Clauses(q)|
    ensures Clauses(q)[k] == SearchClause ==>
      Params(q)[2 * k..2 * k + 2] == [Text("%" + Search(q) + "%"), Text(Search(q))]
    ensures Clauses(q)[k] == DateClause ==>
      q.dataInicio.Some? && q.dataFim.Some? &&
      Params(q)[2 * k..2 * k + 2] == [Text(q.dataInicio.value), Text(q.dataFim.value)]
  {
    assert SearchClause[0] != DateClause[0];
    if HasSearch(q) && k == 1 {
      assert Params(q)[2..4] == [Text(q.dataInicio.value), Text(q.dataFim.value)];
    }
  }

  /** `WHERE c1 AND c2`, or no text at all without clauses. */
  function WhereSql(clauses: seq<SqlText>): (r: SqlText)
    ensures r == [] <==> clauses == []
  {
    if clauses == [] then [] else Where + Join(clauses, And)
  }

  /** `(page - 1) * limit`: the rows skipped before page `page`. */
  function Offset(page: nat, limit: nat): (r: int)
    ensures page >= 1 ==> r >= 0
  {
    (page - 1) * limit
  }

  /** The filter part of the handler: one clause and its two values for a
      search text, then one for a complete date range. */
  method Filters(q: Query) returns (whereClauses: seq<SqlText>, params: seq<Param>)
    ensures whereClauses == Clauses(q)
    ensures params == Params(q)
  {
    var search := Search(q);
    var dataInicio, dataFim := q.dataInicio.GetOr(""), q.dataFim.GetOr("");
    params := [];
    whereClauses := [];

    if search != "" {
      whereClauses := whereClauses + [SearchClause];
      params := params + [Text("%" + search + "%")];
      params := params + [Text(search)];
    }

    if dataInicio != "" && dataFim != "" {
      whereClauses := whereClauses + [DateClause];
      params := params + [Text(dataInicio)];
      params := params + [Text(dataFim)];
    }
  }

  /** The SQL part of the handler: the WHERE text, and the page and count
      queries around it, with two placeholders per clause in both and the
      LIMIT and OFFSET placeholders in the page query. */
  method Queries(whereClauses: seq<SqlText>) returns (whereSql: SqlText, pageSql: SqlText, countSql: SqlText)
    requires forall i | 0 <= i < |whereClauses| :: whereClauses[i] == SearchClause || whereClauses[i] == DateClause
    ensures whereSql == WhereSql(whereClauses)
    ensures pageSql == PageHead + whereSql + PageTail
    ensures countSql == CountHead + whereSql + CountTail
    ensures Placeholders(pageSql) == 2 * |whereClauses| + 2
    ensures Placeholders(countSql) == 2 * |whereClauses|
  {
    whereSql := [];
    if |whereClauses| > 0 {
      whereSql := Where + Join(whereClauses, And);
    }
    pageSql := PageHead + whereSql + PageTail;
    countSql := CountHead + whereSql + CountTail;
    PlanPlaceholders(whereClauses);
  }

  /** The handler's query building, in the order it pushes onto its arrays.
      `total` is the count the count query returns. Both queries carry
      exactly as many placeholders as values bound to them. */
  method ListarVendas(q: Query, total: nat) returns (plan: Plan, pagination: Pagination)
    requires q.limit != Some(0)
    ensures plan.offset == Offset(Page(q), Limit(q))
    ensures plan.whereClauses == Clauses(q)
    ensures plan.params == Params(q)
    ensures plan.whereSql == WhereSql(plan.whereClauses)
    ensures plan.pageSql == PageHead + plan.whereSql + PageTail
    ensures plan.countSql == CountHead + plan.whereSql + CountTail
    ensures plan.pageParams == plan.params + [Int(Limit(q)), Int(plan.offset)]
    ensures plan.countParams == plan.params
    ensures Placeholders(plan.pageSql) == |plan.pageParams|
    ensures Placeholders(plan.countSql) == |plan.countParams|
    ensures pagination == Pagination(TotalPaginas(total, Limit(q)), Page(q), total)
  {
    var page, limit := Page(q), Limit(q);
    var offset := Offset(page, limit);
    var whereClauses, params := Filters(q);

    var whereSql, pageSql, countSql := Queries(whereClauses);
    var pageParams := params + [Int(limit), Int(offset)];

    plan := Plan(offset, whereClauses, params, whereSql, pageSql, pageParams, countSql, params);
    pagination := Pagination(TotalPaginas(total, limit), page, total);
  }

  /** Each filter clause has two placeholders. */
  lemma ClausePlaceholders()
    ensures Placeholders(SearchClause) == 2 && Placeholders(DateClause) == 2
  {
    assert SearchClause[1..][1..][1..] == [Placeholder, Sql(")")];
    assert DateClause[1..][1..][1..] == [Placeholder];
  }

  /** The glue text has no placeholder and the page query's tail has the
      LIMIT and OFFSET placeholders. */
  lemma FixedTextPlaceholders()
    ensures Placeholders(And) == 0 && Placeholders(Where) == 0
    ensures Placeholders(PageHead) == 0 && Placeholders(PageTail) == 2
    ensures Placeholders(CountHead) == 0 && Placeholders(CountTail) == 0
  {
    assert PageTail[1..][1..][1..] == [Placeholder, Sql("\n    ")];
  }

  /** The page and count queries hold two placeholders per clause, plus
      LIMIT and OFFSET for the page query. */
  lemma PlanPlaceholders(whereClauses: seq<SqlText>)
    requires forall i | 0 <= i < |whereClauses| :: whereClauses[i] == SearchClause || whereClauses[i] == DateClause
    ensures Placeholders(PageHead + WhereSql(whereClauses) + PageTail) == 2 * |whereClauses| + 2
    ensures Placeholders(CountHead + WhereSql(whereClauses) + CountTail) == 2 * |whereClauses|
  {
    var whereSql := WhereSql(whereClauses);
    ClausePlaceholders();
    FixedTextPlaceholders();
    if whereClauses != [] {
      JoinPlaceholders(whereClauses, And);
      PlaceholdersAppend(Where, Join(whereClauses, And));
    }
    PlaceholdersAppend(PageHead, whereSql);
    PlaceholdersAppend(PageHead + whereSql, PageTail);
    PlaceholdersAppend(CountHead, whereSql);
    PlaceholdersAppend(CountHead + whereSql, CountTail);
  }

  /** Joining clauses of two placeholders each with placeholder-free glue gives
      two placeholders per clause. */
  lemma {:induction false} JoinPlaceholders(parts: seq<SqlText>, sep: SqlText)
    requires forall i | 0 <= i < |parts| :: Placeholders(parts[i]) == 2
    requires Placeholders(sep) == 0
    ensures Placeholders(Join(parts, sep)) == 2 * |parts|
  {
    if |parts| > 1 {
      JoinPlaceholders(parts[1..], sep);
      PlaceholdersAppend(parts[0] + sep, Join(parts[1..], sep));
      PlaceholdersAppend(parts[0], sep);
    }
  }
}
