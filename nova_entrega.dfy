/** The new-delivery form: a list of product lines built up with an add button
    and per-line remove buttons, a quantity stepper, and the body posted when
    the form is submitted. */
module NovaEntrega {
  import opened Domain

  /** An entry of the product selector: `value` is the product id as text and
      `caption` its description. */
  datatype ProdutoOption = ProdutoOption(value: string, caption: string)

  /** One line of the delivery being composed. */
  datatype Item = Item(produto_id: string, quantidade: int)

  /** The body of `POST /api/entregas`. `produto_id` and `quantidade` are
      present only on a single-line delivery. */
  datatype Payload = Payload(
    produtos: seq<Item>,
    cliente: string,
    descricao: string,
    data: string,
    status: Status,
    produto_id: Option<string>,
    quantidade: Option<int>)

  /** Where `splice(index, 1)` starts: a negative index counts from the end
      (clamped at 0), an index past the end is clamped to the length. */
  function SpliceStart(len: nat, index: int): (start: nat)
    ensures start <= len
    ensures 0 <= index <= len ==> start == index
    ensures index > len ==> start == len
    ensures index < 0 ==> start == if len + index < 0 then 0 else len + index
  {
    if index < 0 then (if len + index < 0 then 0 else len + index)
    else if index > len then len
    else index
  }

  /** A copy of `s` after `splice(index, 1)`. */
  function RemovedAt<T>(s: seq<T>, index: int): (r: seq<T>)
    ensures 0 <= index < |s| ==> |r| == |s| - 1
    ensures index >= |s| ==> r == s
    ensures index < 0 && |s| > 0 ==> |r| == |s| - 1
  {
    var k := SpliceStart(|s|, index);
    if k == |s| then s else s[..k] + s[k + 1..]
  }

  /** Removing a valid index drops exactly that element: the ones before it
      keep their positions, the ones after it move down by one. */
  lemma RemovedAtValid<T>(s: seq<T>, i: int)
    requires 0 <= i < |s|
    ensures forall j :: 0 <= j < i ==> RemovedAt(s, i)[j] == s[j]
    ensures forall j :: i <= j < |s| - 1 ==> RemovedAt(s, i)[j] == s[j + 1]
    ensures multiset(RemovedAt(s, i)) + multiset{s[i]} == multiset(s)
  {
    assert s == s[..i] + [s[i]] + s[i + 1..];
  }

  /** Every element left after a removal was in the list before. */
  lemma RemovedAtSubset<T>(s: seq<T>, index: int)
    ensures forall x :: x in RemovedAt(s, index) ==> x in s
  {
    var k := SpliceStart(|s|, index);
    if k < |s| {
      RemovedAtValid(s, k);
      forall x | x in RemovedAt(s, index) ensures x in s {
        assert multiset(RemovedAt(s, index))[x] > 0;
      }
    }
  }

  /** Removing the line just appended gives the old list back. */
  lemma RemoveLastAdded<T>(s: seq<T>, x: T)
    ensures RemovedAt(s + [x], |s|) == s
  {
    assert (s + [x])[..|s|] == s;
  }

  /** The state of the form: `formData` (the lines), `produtoSelecionado`,
      `quantidadeSelecionada`, `cliente` and `descricao`. */
  class NovaEntregaForm {
    var items: seq<Item>
    var selected: Option<ProdutoOption>
    var quantity: int
    var cliente: string
    var descricao: string

    /** The initial state: no lines, nothing selected, quantity 1. */
    constructor()
      ensures items == [] && selected == None && quantity == 1 && cliente == "" && descricao == ""
      ensures SubmitDisabled(false) && AddDisabled(false)
    {
      items := [];
      selected := None;
      quantity := 1;
      cliente := "";
      descricao := "";
    }

    /** Every line has a quantity of at least one. */
    predicate QuantitiesPositive()
      reads this
    {
      forall i :: 0 <= i < |items| ==> items[i].quantidade >= 1
    }

    /** The add button: disabled while submitting, with no product selected,
        or with a quantity below one. */
    function AddDisabled(isSubmitting: bool): (disabled: bool)
      reads this
      ensures !disabled <==> !isSubmitting && selected.Some? && quantity >= 1
    {
      isSubmitting || selected.None? || quantity < 1
    }

    /** The submit button: disabled while submitting or with no lines. */
    function SubmitDisabled(isSubmitting: bool): (disabled: bool)
      reads this
      ensures !disabled <==> !isSubmitting && |items| >= 1
    {
      isSubmitting || |items| == 0
    }

    /** The product selector's `onChange` (clearing it selects nothing). */
    method Select(option: Option<ProdutoOption>)
      modifies this
      ensures selected == option
      ensures items == old(items) && quantity == old(quantity)
      ensures cliente == old(cliente) && descricao == old(descricao)
    {
      selected := option;
    }

    /** The quantity input: whatever number was typed. */
    method SetQuantity(q: int)
      modifies this
      ensures quantity == q
      ensures items == old(items) && selected == old(selected)
      ensures cliente == old(cliente) && descricao == old(descricao)
    {
      quantity := q;
    }

    method SetCliente(value: string)
      modifies this
      ensures cliente == value
      ensures items == old(items) && selected == old(selected) && quantity == old(quantity)
      ensures descricao == old(descricao)
    {
      cliente := value;
    }

    method SetDescricao(value: string)
      modifies this
      ensures descricao == value
      ensures items == old(items) && selected == old(selected) && quantity == old(quantity)
      ensures cliente == old(cliente)
    {
      descricao := value;
    }

    /** The minus button: one less, but never below one. */
    method DecrementQuantity()
      modifies this
      ensures quantity >= 1
      ensures old(quantity) > 1 ==> quantity == old(quantity) - 1
      ensures old(quantity) <= 1 ==> quantity == 1
      ensures items == old(items) && selected == old(selected)
      ensures cliente == old(cliente) && descricao == old(descricao)
    {
      quantity := if 1 > quantity - 1 then 1 else quantity - 1;
    }

    /** The plus button. */
    method IncrementQuantity()
      modifies this
      ensures quantity == old(quantity) + 1
      ensures items == old(items) && selected == old(selected)
      ensures cliente == old(cliente) && descricao == old(descricao)
    {
      quantity := quantity + 1;
    }

    /** `addProduto`: with nothing selected nothing changes; otherwise one line
        with the selected product and quantity is appended and the selector
        is reset. Used through the enabled button only, it keeps every
        quantity positive. */
    method AddProduto()
      modifies this
      ensures old(selected).None? ==>
                items == old(items) && selected == old(selected) && quantity == old(quantity)
      ensures old(selected).Some? ==>
                items == old(items) + [Item(old(selected).value.value, old(quantity))] &&
                selected == None && quantity == 1
      ensures cliente == old(cliente) && descricao == old(descricao)
      ensures old(QuantitiesPositive()) && !old(AddDisabled(false)) ==> QuantitiesPositive()
    {
      if selected.None? {
        return;
      }
      items := items + [Item(selected.value.value, quantity)];
      selected := None;
      quantity := 1;
    }

    /** `removeProduto(index)`: the list after `splice(index, 1)`; a valid
        index removes exactly that line. */
    method RemoveProduto(index: int)
      modifies this
      ensures items == RemovedAt(old(items), index)
      ensures 0 <= index < |old(items)| ==> items == old(items)[..index] + old(items)[index + 1..]
      ensures old(QuantitiesPositive()) ==> QuantitiesPositive()
      ensures selected == old(selected) && quantity == old(quantity)
      ensures cliente == old(cliente) && descricao == old(descricao)
    {
      RemovedAtSubset(items, index);
      var newForm := items;
      newForm := RemovedAt(newForm, index);
      items := newForm;
    }

    /** The body `handleSubmit` posts, given the current time as text: the lines
        in order, status `pendente`, and the single line's fields repeated at
        the top level when there is exactly one line. */
    method BuildPayload(now: string) returns (data: Payload)
      ensures data.produtos == items
      ensures data.cliente == cliente && data.descricao == descricao && data.data == now
      ensures data.status == Pendente
      ensures data.produto_id.Some? <==> |items| == 1
      ensures data.quantidade.Some? <==> |items| == 1
      ensures |items| == 1 ==>
                data.produto_id == Some(items[0].produto_id) && data.quantidade == Some(items[0].quantidade)
      ensures !SubmitDisabled(false) ==> |data.produtos| >= 1
    {
      data := Payload(items, cliente, descricao, now, Pendente, None, None);
      if |items| == 1 {
        data := data.(produto_id := Some(items[0].produto_id), quantidade := Some(items[0].quantidade));
      }
    }

    /** Closing the success dialog clears the lines and the two text fields. */
    method CloseSuccessDialog()
      modifies this
      ensures items == [] && cliente == "" && descricao == ""
      ensures selected == old(selected) && quantity == old(quantity)
      ensures SubmitDisabled(false)
    {
      items := [];
      cliente := "";
      descricao := "";
    }
  }
}
