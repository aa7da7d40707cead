/** `clientesFiltrados` of ClientesList.jsx: the customer list narrowed by the
    search box. */
module ClientSearch {
  import opened Wrappers
  import opened Text
  import opened Seqs
  import opened Records

  /** `(field || '').toLowerCase()`: a missing field searches as ''. */
  function Field(f: Option<string>): string {
    Lower(f.GetOr(""))
  }

  /** The search term: `busca.trim().toLowerCase()`. */
  function Term(busca: string): string {
    Lower(Trim(busca))
  }

  /** Some searched field of `c` contains `term`. */
  predicate Matches(c: Cliente, term: string) {
    || Includes(Field(c.nomeCliente), term)
    || Includes(Field(c.cpf), term)
    || Includes(Field(c.telefone), term)
    || Includes(Field(c.email), term)
    || Includes(Field(c.cidade), term)
    || Includes(Field(c.estado), term)
  }

  /** A blank search leaves the list as it is; otherwise a customer is listed
      exactly when the trimmed, lower-cased term occurs in one of its fields. */
  function ClientesFiltrados(clientes: seq<Cliente>, busca: string): (r: seq<Cliente>)
    ensures Blank(busca) ==> r == clientes
    ensures !Blank(busca) ==> forall i | 0 <= i < |r| :: r[i] in clientes && Matches(r[i], Term(busca))
    ensures !Blank(busca) ==> forall i | 0 <= i < |clientes| :: Matches(clientes[i], Term(busca)) ==> clientes[i] in r
  {
    var term := Term(busca);
    if term == "" then clientes else Filter(clientes, c => Matches(c, term))
  }

  /** The result keeps the order of the list and each listed customer's
      multiplicity: it is the order-preserving sublist of matching customers. */
  lemma ClientesFiltradosSublist(clientes: seq<Cliente>, busca: string, c: Cliente)
    ensures IsSubseq(ClientesFiltrados(clientes, busca), clientes)
    ensures multiset(ClientesFiltrados(clientes, busca))[c]
      == if Blank(busca) || Matches(c, Term(busca)) then multiset(clientes)[c] else 0
  {
    if Blank(busca) {
      IsSubseqReflexive(clientes);
    } else {
      FilterIsSubseq(clientes, d => Matches(d, Term(busca)));
      FilterMultiset(clientes, d => Matches(d, Term(busca)), c);
    }
  }

  /** Typing more of a term only narrows the list: when the new term contains
      the old one, every customer still listed was listed before. */
  lemma ClientesFiltradosNarrows(clientes: seq<Cliente>, busca: string, mais: string)
    requires Includes(Term(mais), Term(busca))
    ensures forall c | c in ClientesFiltrados(clientes, mais) :: c in ClientesFiltrados(clientes, busca)
  {
    var t, u := Term(busca), Term(mais);
    if Blank(busca) {
      return;
    }
    forall c | c in clientes && Matches(c, u)
      ensures Matches(c, t)
    {
      if Includes(Field(c.nomeCliente), u) { IncludesTransitive(Field(c.nomeCliente), u, t); }
      if Includes(Field(c.cpf), u) { IncludesTransitive(Field(c.cpf), u, t); }
      if Includes(Field(c.telefone), u) { IncludesTransitive(Field(c.telefone), u, t); }
      if Includes(Field(c.email), u) { IncludesTransitive(Field(c.email), u, t); }
      if Includes(Field(c.cidade), u) { IncludesTransitive(Field(c.cidade), u, t); }
      if Includes(Field(c.estado), u) { IncludesTransitive(Field(c.estado), u, t); }
    }
    assert u != "";
  }
}
