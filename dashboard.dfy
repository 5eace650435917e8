/** The dashboard page: the per-status counters computed after each fetch, the
    "pending" and "delivered" tabs, the confirm-delivery request and the status
    badge. */
module Dashboard {
  import opened Domain
  import Seqs

  /** The accumulator of the statistics fold. */
  datatype Stats = Stats(total: nat, pendente: nat, em_transito: nat, entregue: nat, cancelada: nat)

  /** Independent reference count: deliveries whose status is `st`. */
  function CountStatus(es: seq<Entrega>, st: Status): (n: nat)
    ensures n <= |es|
  {
    if es == [] then 0
    else (if es[0].status == st then 1 else 0) + CountStatus(es[1..], st)
  }

  lemma {:induction false} CountStatusSnoc(es: seq<Entrega>, e: Entrega)
    ensures forall st :: CountStatus(es + [e], st) == CountStatus(es, st) + (if e.status == st then 1 else 0)
  {
    if es == [] {
      assert [e][1..] == [];
    } else {
      assert (es + [e])[1..] == es[1..] + [e];
      CountStatusSnoc(es[1..], e);
    }
  }

  lemma {:induction false} CountStatusZero(es: seq<Entrega>, st: Status)
    ensures CountStatus(es, st) == 0 <==> forall i :: 0 <= i < |es| ==> es[i].status != st
  {
    if es != [] {
      CountStatusZero(es[1..], st);
      assert forall i :: 1 <= i < |es| ==> es[i] == es[1..][i - 1];
    }
  }

  /** Counting with the lambda of a `filter` agrees with `CountStatus`. */
  lemma {:induction false} CountIsCountStatus(es: seq<Entrega>, st: Status, p: Entrega -> bool)
    requires forall e :: p(e) == (e.status == st)
    ensures Seqs.Count(es, p) == CountStatus(es, st)
  {
    if es != [] {
      CountIsCountStatus(es[1..], st, p);
    }
  }

  /** The status that collides with the accumulator's own `total` key. */
  const TotalKey: Status := OtherStatus("total")

  /** The `reduce` of `fetchEntregas`: every delivery bumps `total` and then
      `acc[status]`. A status spelled "total" therefore bumps `total` a second
      time; any other unknown status only adds an unrelated key. */
  method ComputeStats(entregas: seq<Entrega>) returns (acc: Stats)
    ensures acc.total == |entregas| + CountStatus(entregas, TotalKey)
    ensures acc.pendente == CountStatus(entregas, Pendente)
    ensures acc.em_transito == CountStatus(entregas, EmTransito)
    ensures acc.entregue == CountStatus(entregas, Entregue)
    ensures acc.cancelada == CountStatus(entregas, Cancelada)
  {
    acc := Stats(0, 0, 0, 0, 0);
    for i := 0 to |entregas|
      invariant acc.total == i + CountStatus(entregas[..i], TotalKey)
      invariant acc.pendente == CountStatus(entregas[..i], Pendente)
      invariant acc.em_transito == CountStatus(entregas[..i], EmTransito)
      invariant acc.entregue == CountStatus(entregas[..i], Entregue)
      invariant acc.cancelada == CountStatus(entregas[..i], Cancelada)
    {
      var e := entregas[i];
      assert entregas[..i + 1] == entregas[..i] + [e];
      CountStatusSnoc(entregas[..i], e);
      acc := acc.(total := acc.total + 1);
      match e.status
      case Pendente => acc := acc.(pendente := acc.pendente + 1);
      case EmTransito => acc := acc.(em_transito := acc.em_transito + 1);
      case Entregue => acc := acc.(entregue := acc.entregue + 1);
      case Cancelada => acc := acc.(cancelada := acc.cancelada + 1);
      case OtherStatus(name) =>
        if name == "total" {
          acc := acc.(total := acc.total + 1);
        }
    }
    assert entregas[..|entregas|] == entregas;
  }

  predicate IsKnownStatus(st: Status) { !st.OtherStatus? }

  /** When every status is one of the four known ones, the total is the sum of
      the four counters (and no delivery hits the `total` key). */
  lemma {:induction false} TotalIsSumOfCounters(es: seq<Entrega>)
    requires forall i :: 0 <= i < |es| ==> IsKnownStatus(es[i].status)
    ensures CountStatus(es, TotalKey) == 0
    ensures |es| == CountStatus(es, Pendente) + CountStatus(es, EmTransito)
                  + CountStatus(es, Entregue) + CountStatus(es, Cancelada)
  {
    if es != [] {
      TotalIsSumOfCounters(es[1..]);
    }
  }

  /** `total` counts the deliveries exactly when no status is spelled "total". */
  lemma TotalIsLength(es: seq<Entrega>)
    ensures |es| + CountStatus(es, TotalKey) == |es| <==>
      forall i :: 0 <= i < |es| ==> es[i].status != TotalKey
  {
    CountStatusZero(es, TotalKey);
  }

  /** The "Pendentes" tab: `entregas.filter(e => e.status === 'pendente')`. */
  function Pendentes(es: seq<Entrega>): (r: seq<Entrega>)
    ensures Seqs.IsSubseq(r, es)
    ensures forall e :: multiset(r)[e] == if e.status == Pendente then multiset(es)[e] else 0
    ensures |r| == CountStatus(es, Pendente)
  {
    var p := (e: Entrega) => e.status == Pendente;
    CountIsCountStatus(es, Pendente, p);
    Seqs.Filter(es, p)
  }

  /** Whether `e` belongs on the "Entregues" tab for `user`. */
  predicate ShownAsDelivered(e: Entrega, user: Option<Usuario>) {
    if IsRole(user, Entregador) then e.status == Entregue && e.entregador_id == Some(user.value.id)
    else e.status == Entregue
  }

  lemma {:induction false} CountMono<T>(s: seq<T>, p: T -> bool, q: T -> bool)
    requires forall x :: p(x) ==> q(x)
    ensures Seqs.Count(s, p) <= Seqs.Count(s, q)
  {
    if s != [] {
      CountMono(s[1..], p, q);
    }
  }

  /** The "Entregues" tab: a deliverer sees the delivered entries assigned to
      them, every other user all delivered entries. */
  function Entregues(es: seq<Entrega>, user: Option<Usuario>): (r: seq<Entrega>)
    ensures Seqs.IsSubseq(r, es)
    ensures IsRole(user, Entregador) ==>
              forall e :: multiset(r)[e] ==
                (if e.status == Entregue && e.entregador_id == Some(user.value.id) then multiset(es)[e] else 0)
    ensures !IsRole(user, Entregador) ==>
              forall e :: multiset(r)[e] == (if e.status == Entregue then multiset(es)[e] else 0)
    ensures !IsRole(user, Entregador) ==> |r| == CountStatus(es, Entregue)
    ensures |r| <= CountStatus(es, Entregue)
  {
    var p := (e: Entrega) => ShownAsDelivered(e, user);
    var q := (e: Entrega) => e.status == Entregue;
    CountMono(es, p, q);
    CountIsCountStatus(es, Entregue, q);
    var r := Seqs.Filter(es, p);
    assert !IsRole(user, Entregador) ==> |r| == CountStatus(es, Entregue) by {
      if !IsRole(user, Entregador) {
        Seqs.CountExt(es, p, q);
      }
    }
    r
  }

  /** At most ten delivered entries are listed: `entregasEntregues.slice(0, 10)`. */
  function ListedEntregues(es: seq<Entrega>, user: Option<Usuario>): (r: seq<Entrega>)
    ensures |r| <= 10
    ensures |r| == if |Entregues(es, user)| <= 10 then |Entregues(es, user)| else 10
    ensures r == Entregues(es, user)[..|r|]
    ensures forall i :: 0 <= i < |r| ==> ShownAsDelivered(r[i], user)
  {
    Seqs.Take(Entregues(es, user), 10)
  }

  /** Index of the first delivery with the given id at or after `from`
      (`entregas.find(e => e.id === id)`). */
  function FindFrom(es: seq<Entrega>, id: int, from: nat): (k: Option<nat>)
    decreases |es| - from
    ensures k.Some? ==> (from <= k.value < |es| && es[k.value].id == id &&
      forall j :: from <= j < k.value ==> es[j].id != id)
    ensures k.None? ==> forall j :: from <= j < |es| ==> es[j].id != id
  {
    if from >= |es| then None
    else if es[from].id == id then Some(from)
    else FindFrom(es, id, from + 1)
  }

  /** The body of the PUT that confirms a delivery. */
  datatype UpdatePayload = UpdatePayload(
    produto_id: int,
    quantidade: int,
    descricao: Option<string>,
    cliente: Option<string>,
    data: string,
    status: Status,
    entregador_id: int)

  /** `PUT /api/entregas/{id}` with its body. */
  datatype UpdateRequest = UpdateRequest(id: int, body: UpdatePayload)

  /** `confirmarSelecionarEntrega`: no request when no delivery has that id (or
      there is no signed-in user, whose `id` the body reads); otherwise the
      first such delivery's fields with status `entregue` and the user as
      deliverer. */
  function ConfirmarEntrega(es: seq<Entrega>, entregaId: int, user: Option<Usuario>): (req: Option<UpdateRequest>)
    ensures req.None? <==> user.None? || forall j :: 0 <= j < |es| ==> es[j].id != entregaId
    ensures req.Some? ==>
      req.value.id == entregaId &&
      req.value.body.status == Entregue &&
      req.value.body.entregador_id == user.value.id &&
      exists k :: 0 <= k < |es| && es[k].id == entregaId &&
        (forall j :: 0 <= j < k ==> es[j].id != entregaId) &&
        req.value.body.produto_id == es[k].produto_id &&
        req.value.body.quantidade == es[k].quantidade &&
        req.value.body.descricao == es[k].descricao &&
        req.value.body.cliente == es[k].cliente &&
        req.value.body.data == es[k].data
  {
    match FindFrom(es, entregaId, 0)
    case None => None
    case Some(k) =>
      if user.None? then None
      else
        var e := es[k];
        Some(UpdateRequest(entregaId, UpdatePayload(
          e.produto_id, e.quantidade, e.descricao, e.cliente, e.data, Entregue, user.value.id)))
  }

  /** `getStatusBadge`: an unrecognised status falls back to the `pendente`
      configuration. */
  function StatusBadge(st: Status): (b: BadgeConfig)
    ensures !IsKnownStatus(st) ==> b == BadgeConfig(Secondary, "Pendente")
    ensures st == Pendente ==> b == BadgeConfig(Secondary, "Pendente")
    ensures st == EmTransito ==> b == BadgeConfig(DefaultVariant, "Em Trânsito")
    ensures st == Entregue ==> b == BadgeConfig(Success, "Entregue")
    ensures st == Cancelada ==> b == BadgeConfig(Destructive, "Cancelada")
    ensures b.variant == Success <==> st == Entregue
    ensures b.variant == Destructive <==> st == Cancelada
    ensures b.variant == DefaultVariant <==> st == EmTransito
    ensures b.variant == Secondary <==> st == Pendente || !IsKnownStatus(st)
  {
    match st
    case Pendente => BadgeConfig(Secondary, "Pendente")
    case EmTransito => BadgeConfig(DefaultVariant, "Em Trânsito")
    case Entregue => BadgeConfig(Success, "Entregue")
    case Cancelada => BadgeConfig(Destructive, "Cancelada")
    case OtherStatus(_) => BadgeConfig(Secondary, "Pendente")
  }
}
