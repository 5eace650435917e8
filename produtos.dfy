/** The products page: the search filter, the stock badge and the body of the
    create/update request. */
module Produtos {
  import opened Domain
  import Seqs
  import Text

  /** `filteredProdutos`: the description contains the term, ignoring case. */
  function FilteredProdutos(ps: seq<Produto>, term: string): (r: seq<Produto>)
    ensures Seqs.IsSubseq(r, ps)
    ensures forall p :: multiset(r)[p] == if Text.Matches(p.descricao, term) then multiset(ps)[p] else 0
    ensures forall i :: 0 <= i < |r| ==> Text.Matches(r[i].descricao, term)
  {
    Seqs.Filter(ps, DescricaoFn(term))
  }

  function DescricaoFn(term: string): Produto -> bool {
    (p: Produto) => Text.Matches(p.descricao, term)
  }

  /** An empty search keeps every product, in order. */
  lemma EmptySearchKeepsAll(ps: seq<Produto>)
    ensures FilteredProdutos(ps, "") == ps
  {
    forall i | 0 <= i < |ps| ensures DescricaoFn("")(ps[i]) {
      Text.MatchesEmptyTerm(ps[i].descricao);
    }
    Seqs.FilterKeepsAll(ps, DescricaoFn(""));
  }

  /** The stock badge: more than 10 units `success`, 1 to 10 `secondary`,
      none or fewer `destructive`; exactly one tier applies. */
  function StockVariant(estoque: int): (v: Variant)
    ensures v == Success <==> estoque > 10
    ensures v == Secondary <==> 1 <= estoque <= 10
    ensures v == Destructive <==> estoque <= 0
    ensures v != DefaultVariant
  {
    if estoque > 10 then Success else if estoque > 0 then Secondary else Destructive
  }

  /** The form, every field as typed text. */
  datatype ProdutoForm = ProdutoForm(
    descricao: string,
    preco_custo: string,
    preco_venda: string,
    estoque: string,
    empresa_id: string)

  /** The body sent: the form spread, with the company replaced by the signed-in
      user's (`user?.empresa_id`, absent without a user). The numeric fields
      keep their text; their parsing is not modelled. */
  datatype ProdutoPayload = ProdutoPayload(
    descricao: string,
    preco_custo: string,
    preco_venda: string,
    estoque: string,
    empresa_id: Option<int>)

  datatype ProdutoRequest =
    | CreateProduto(body: ProdutoPayload)
    | UpdateProduto(id: int, body: ProdutoPayload)

  function SubmitPayload(form: ProdutoForm, user: Option<Usuario>): (data: ProdutoPayload)
    ensures data.empresa_id == if user.Some? then Some(user.value.empresa_id) else None
    ensures data.descricao == form.descricao
    ensures data.preco_custo == form.preco_custo && data.preco_venda == form.preco_venda
    ensures data.estoque == form.estoque
  {
    ProdutoPayload(
      form.descricao, form.preco_custo, form.preco_venda, form.estoque,
      match user case None => None case Some(u) => Some(u.empresa_id))
  }

  /** Whatever company the form holds, the same one is sent. */
  lemma EmpresaIdIgnoresForm(f: ProdutoForm, g: ProdutoForm, user: Option<Usuario>)
    requires f.(empresa_id := g.empresa_id) == g
    ensures SubmitPayload(f, user) == SubmitPayload(g, user)
  {
  }

  /** `PUT /produtos/{id}` when editing, `POST /produtos` otherwise. */
  function SubmitRequest(form: ProdutoForm, user: Option<Usuario>, editing: Option<Produto>): (req: ProdutoRequest)
    ensures req.body == SubmitPayload(form, user)
    ensures req.UpdateProduto? <==> editing.Some?
    ensures req.UpdateProduto? ==> req.id == editing.value.id
  {
    match editing
    case None => CreateProduto(SubmitPayload(form, user))
    case Some(p) => UpdateProduto(p.id, SubmitPayload(form, user))
  }
}
