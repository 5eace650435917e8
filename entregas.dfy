/** The deliveries page: search box plus status filter, the per-status groups
    behind the tabs, the delete-button rule, the list of deliverers and the
    page's own status badge. */
module Entregas {
  import opened Domain
  import Seqs
  import Text

  /** The status selector: "all" or one status. */
  datatype StatusFilter = AllStatuses | OnlyStatus(status: ParsedStatus)

  /** Term search over `produto_descricao`, `cliente` and `descricao`, each
      read with `|| ''` and compared case-insensitively. */
  predicate MatchesSearch(e: Entrega, term: string) {
    Text.Matches(OrEmpty(e.produto_descricao), term) ||
    Text.Matches(OrEmpty(e.cliente), term) ||
    Text.Matches(OrEmpty(e.descricao), term)
  }

  predicate MatchesStatus(e: Entrega, f: StatusFilter) {
    f.AllStatuses? || e.status == f.status
  }

  predicate Passes(e: Entrega, term: string, f: StatusFilter) {
    MatchesSearch(e, term) && MatchesStatus(e, f)
  }

  /** `filteredEntregas`: the deliveries that match both the term and the
      status filter, in their original order. */
  function FilteredEntregas(es: seq<Entrega>, term: string, f: StatusFilter): (r: seq<Entrega>)
    ensures Seqs.IsSubseq(r, es)
    ensures forall e :: multiset(r)[e] == if MatchesSearch(e, term) && MatchesStatus(e, f) then multiset(es)[e] else 0
    ensures forall i :: 0 <= i < |r| ==> MatchesSearch(r[i], term) && MatchesStatus(r[i], f)
  {
    Seqs.Filter(es, PassesFn(term, f))
  }

  function PassesFn(term: string, f: StatusFilter): Entrega -> bool {
    (e: Entrega) => Passes(e, term, f)
  }

  /** An empty term with filter "all" keeps every delivery. */
  lemma EmptySearchKeepsAll(es: seq<Entrega>)
    ensures FilteredEntregas(es, "", AllStatuses) == es
  {
    forall i | 0 <= i < |es| ensures PassesFn("", AllStatuses)(es[i]) {
      Text.MatchesEmptyTerm(OrEmpty(es[i].produto_descricao));
    }
    Seqs.FilterKeepsAll(es, PassesFn("", AllStatuses));
  }

  function HasStatusFn(st: Status): Entrega -> bool {
    (e: Entrega) => e.status == st
  }

  /** The groups of `entregasPorStatus`. */
  datatype Groups = Groups(pendente: seq<Entrega>, entregue: seq<Entrega>, cancelada: seq<Entrega>)

  function ByStatus(es: seq<Entrega>, st: Status): (r: seq<Entrega>)
    ensures Seqs.IsSubseq(r, es)
    ensures forall e :: multiset(r)[e] == if e.status == st then multiset(es)[e] else 0
    ensures |r| == Seqs.Count(es, HasStatusFn(st))
  {
    Seqs.Filter(es, HasStatusFn(st))
  }

  /** `entregasPorStatus`: each group holds exactly the deliveries of its
      status; no delivery is in two groups, and together they hold at most
      the whole list. */
  function EntregasPorStatus(es: seq<Entrega>): (g: Groups)
    ensures forall e :: e in g.pendente <==> e in es && e.status == Pendente
    ensures forall e :: e in g.entregue <==> e in es && e.status == Entregue
    ensures forall e :: e in g.cancelada <==> e in es && e.status == Cancelada
    ensures forall e :: !(e in g.pendente && e in g.entregue) && !(e in g.pendente && e in g.cancelada)
                     && !(e in g.entregue && e in g.cancelada)
    ensures |g.pendente| + |g.entregue| + |g.cancelada| <= |es|
  {
    var g := Groups(ByStatus(es, Pendente), ByStatus(es, Entregue), ByStatus(es, Cancelada));
    assert forall e :: e in g.pendente <==> multiset(g.pendente)[e] > 0;
    assert forall e :: e in g.entregue <==> multiset(g.entregue)[e] > 0;
    assert forall e :: e in g.cancelada <==> multiset(g.cancelada)[e] > 0;
    assert forall e :: e in es <==> multiset(es)[e] > 0;
    Seqs.CountExclusive3(es, HasStatusFn(Pendente), HasStatusFn(Entregue), HasStatusFn(Cancelada));
    g
  }

  /** The "Pendentes" and "Entregues" tabs: the group searched by the term
      only (the status selector does not apply there). */
  function TabEntregas(es: seq<Entrega>, term: string, st: ParsedStatus): (r: seq<Entrega>)
    ensures Seqs.IsSubseq(r, es)
    ensures forall i :: 0 <= i < |r| ==> r[i].status == st && MatchesSearch(r[i], term)
    ensures forall e :: e in r <==> e in es && e.status == st && MatchesSearch(e, term)
  {
    var pass := PassesFn(term, OnlyStatus(st));
    Seqs.FilterFusion(es, HasStatusFn(st), SearchFn(term), pass);
    var r := Seqs.Filter(ByStatus(es, st), SearchFn(term));
    assert r == Seqs.Filter(es, pass);
    forall e ensures e in r <==> e in es && e.status == st && MatchesSearch(e, term) {
      assert e in r <==> multiset(r)[e] > 0;
      assert e in es <==> multiset(es)[e] > 0;
    }
    r
  }

  function SearchFn(term: string): Entrega -> bool {
    (e: Entrega) => MatchesSearch(e, term)
  }

  /** A tab shows what the main list shows with the selector set to its status. */
  lemma TabIsStatusFilter(es: seq<Entrega>, term: string, st: ParsedStatus)
    ensures TabEntregas(es, term, st) == FilteredEntregas(es, term, OnlyStatus(st))
  {
    Seqs.FilterFusion(es, HasStatusFn(st), SearchFn(term), PassesFn(term, OnlyStatus(st)));
  }

  /** The trash button of a card: `disabled={entrega.status === 'entregue'}`,
      a comparison of the status strings. */
  function DeleteDisabled(e: Entrega): (disabled: bool)
    ensures disabled <==> StatusName(e.status) == "entregue"
  {
    StatusEqualityIsNameEquality(e.status, Entregue);
    e.status == Entregue
  }

  /** The delete button is disabled exactly on the cards of the "Entregues"
      group. */
  lemma DeleteDisabledIffInEntregueGroup(es: seq<Entrega>, e: Entrega)
    requires e in es
    ensures DeleteDisabled(e) <==> e in EntregasPorStatus(es).entregue
    ensures e in EntregasPorStatus(es).pendente || e in EntregasPorStatus(es).cancelada ==> !DeleteDisabled(e)
  {
  }

  /** `usuarios.filter(u => u.tipo_usuario === 'entregador')`. */
  function Entregadores(users: seq<Usuario>): (r: seq<Usuario>)
    ensures Seqs.IsSubseq(r, users)
    ensures forall u :: multiset(r)[u] == if u.tipo_usuario == Entregador then multiset(users)[u] else 0
  {
    Seqs.Filter(users, (u: Usuario) => u.tipo_usuario == Entregador)
  }

  /** This page's `getStatusBadge` has no `em_transito` entry, so that status
      (like any unknown one) is shown with the `pendente` configuration. */
  function StatusBadge(st: Status): (b: BadgeConfig)
    ensures st !in {Entregue, Cancelada} ==> b == BadgeConfig(Secondary, "Pendente")
    ensures st == Entregue ==> b == BadgeConfig(Success, "Entregue")
    ensures st == Cancelada ==> b == BadgeConfig(Destructive, "Cancelada")
    ensures b.variant == Success <==> st == Entregue
    ensures b.variant == Destructive <==> st == Cancelada
  {
    match st
    case Entregue => BadgeConfig(Success, "Entregue")
    case Cancelada => BadgeConfig(Destructive, "Cancelada")
    case _ => BadgeConfig(Secondary, "Pendente")
  }
}
