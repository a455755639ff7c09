/**
 * The budget list and sales list pages (app/routes/budgets._index.tsx and
 * app/routes/sales._index.tsx). Both render the same row for each budget —
 * materials, quantities, cost, sales price, profit and a status colour — and
 * keep the same detail and delete-confirmation state.
 */
module ListPages {
  import opened Wrappers
  import opened Ledger

  /** The NextUI chip colours used for statuses. */
  datatype Color = Primary | Success | Danger

  /** `STATUS_COLOR`, indexed by status id − 1. */
  const StatusColor: seq<Color> := [Primary, Color.Success, Danger]

  /** `STATUS_COLOR[status.id - 1]`; None where the index falls outside the table (`undefined`). */
  function ChipColor(statusId: int): (c: Option<Color>)
    ensures c.Some? <==> 1 <= statusId <= 3
    ensures statusId == 1 ==> c == Some(Primary)
    ensures statusId == 2 ==> c == Some(Color.Success)
    ensures statusId == 3 ==> c == Some(Danger)
  {
    if 1 <= statusId <= |StatusColor| then Some(StatusColor[statusId - 1]) else None
  }

  /** Distinct statuses in the table get distinct colours. */
  lemma ChipColorInjective(a: int, b: int)
    requires ChipColor(a).Some? && ChipColor(a) == ChipColor(b)
    ensures a == b
  {
  }

  /**
   * Σ unit price × quantity over the lines, added up from the front as the row
   * loop does. With non-negative prices and quantities it is non-negative, so
   * the profit never exceeds the sales price.
   */
  function Cost(lines: seq<LineItem>): (c: int)
    ensures lines == [] ==> c == 0
    ensures |lines| == 1 ==> c == lines[0].material.unitPrice * lines[0].quantity
    ensures (forall i :: 0 <= i < |lines| ==> lines[i].material.unitPrice >= 0 && lines[i].quantity >= 0) ==> c >= 0
  {
    if lines == [] then 0
    else Cost(lines[..|lines| - 1]) + lines[|lines| - 1].material.unitPrice * lines[|lines| - 1].quantity
  }

  lemma {:induction false} CostAppend(a: seq<LineItem>, b: seq<LineItem>)
    ensures Cost(a + b) == Cost(a) + Cost(b)
    decreases |b|
  {
    if b == [] {
      assert a + b == a;
    } else {
      var n := |b| - 1;
      assert (a + b)[..|a + b| - 1] == a + b[..n];
      CostAppend(a, b[..n]);
    }
  }

  /** The cells of one table row. */
  datatype Row = Row(id: int, name: string, materials: seq<string>, quantities: seq<int>,
                     cost: int, salesPrice: int, profit: int, color: Option<Color>)

  /**
   * The body of `data.map((budget) => …)`: a loop over the lines that adds
   * each line's unit price × quantity to `cost` and collects each line's
   * material name and quantity, then the profit and the chip colour.
   */
  method BuildRow(b: BudgetItem) returns (row: Row)
    ensures row.id == b.id && row.name == b.name && row.salesPrice == b.salesPrice
    ensures |row.materials| == |row.quantities| == |b.lines|
    ensures forall i :: 0 <= i < |b.lines| ==>
      row.materials[i] == b.lines[i].material.name && row.quantities[i] == b.lines[i].quantity
    ensures row.cost == Cost(b.lines)
    ensures row.profit == b.salesPrice - Cost(b.lines)
    ensures row.color == ChipColor(b.statusId)
  {
    var cost := 0;
    var names: seq<string> := [];
    var quantities: seq<int> := [];
    for i := 0 to |b.lines|
      invariant cost == Cost(b.lines[..i])
      invariant |names| == |quantities| == i
      invariant forall j :: 0 <= j < i ==> names[j] == b.lines[j].material.name && quantities[j] == b.lines[j].quantity
    {
      assert b.lines[..i + 1][..i] == b.lines[..i];
      cost := cost + b.lines[i].material.unitPrice * b.lines[i].quantity;
      names := names + [b.lines[i].material.name];
      quantities := quantities + [b.lines[i].quantity];
    }
    assert b.lines[..|b.lines|] == b.lines;
    row := Row(b.id, b.name, names, quantities, cost, b.salesPrice, b.salesPrice - cost, ChipColor(b.statusId));
  }

  /** Every row of the sales page is green: sales are the confirmed budgets. */
  lemma SalesRowsSuccess(s: Store, userId: int)
    requires s.Valid()
    ensures forall i :: 0 <= i < |s.SalesListItems(userId)| ==>
      ChipColor(s.SalesListItems(userId)[i].statusId) == Some(Color.Success)
  {
  }

  /** No row of the budget page is green: confirmed budgets are listed as sales instead. */
  lemma BudgetRowsNotSuccess(s: Store, userId: int)
    requires s.Valid()
    ensures forall i :: 0 <= i < |s.BudgetListItems(userId)| ==>
      ChipColor(s.BudgetListItems(userId)[i].statusId) != Some(Color.Success)
  {
    forall i | 0 <= i < |s.BudgetListItems(userId)|
      ensures ChipColor(s.BudgetListItems(userId)[i].statusId) != Some(Color.Success)
    {
      var id := s.BudgetListItems(userId)[i].statusId;
      if ChipColor(id) == Some(Color.Success) {
        ChipColorInjective(id, Confirmed);
      }
    }
  }

  /** `items.find((budget) => budget.id === id)`. */
  function Find(items: seq<BudgetItem>, id: int): (r: Option<BudgetItem>)
    ensures r.Some? <==> exists i :: 0 <= i < |items| && items[i].id == id
    ensures r.Some? ==> r.value in items && r.value.id == id
    ensures r.Some? ==> exists i :: 0 <= i < |items| && items[i] == r.value && forall j :: 0 <= j < i ==> items[j].id != id
  {
    if items == [] then None
    else if items[0].id == id then Some(items[0])
    else
      var rest := Find(items[1..], id);
      assert forall i :: 1 <= i < |items| ==> items[i] == items[1..][i - 1];
      rest
  }

  /** The React state shared by both list pages: the detail pane, the budget to delete and the modal. */
  class ListPage {
    const items: seq<BudgetItem>
    var detail: Option<BudgetItem>
    var toDelete: Option<BudgetItem>
    var isOpen: bool

    constructor (items: seq<BudgetItem>)
      ensures this.items == items && detail.None? && toDelete.None? && !isOpen
    {
      this.items := items;
      detail := None;
      toDelete := None;
      isOpen := false;
    }

    /** handleShowDetail: the id already shown closes the pane; any other id shows that budget, if listed. */
    method HandleShowDetail(id: int)
      modifies this`detail
      ensures old(detail).Some? && old(detail).value.id == id ==> detail.None?
      ensures !(old(detail).Some? && old(detail).value.id == id) ==> detail == Find(items, id)
    {
      if detail.Some? && detail.value.id == id {
        detail := None;
        return;
      }
      detail := Find(items, id);
    }

    /** handleOpenModal: remember the budget to delete and open the modal. */
    method HandleOpenModal(id: int)
      modifies this`toDelete, this`isOpen
      ensures toDelete == Find(items, id) && isOpen
    {
      toDelete := Find(items, id);
      isOpen := true;
    }

    /** handleCloseModal: forget the budget to delete and close the modal. */
    method HandleCloseModal()
      modifies this`toDelete, this`isOpen
      ensures toDelete.None? && !isOpen
    {
      toDelete := None;
      isOpen := false;
    }

    /** handleConfirmDelete: the id posted to `delete/<id>`, and nothing when no budget is pending. */
    method HandleConfirmDelete() returns (submitted: Option<int>)
      ensures submitted.Some? <==> toDelete.Some?
      ensures toDelete.Some? ==> submitted == Some(toDelete.value.id)
    {
      submitted := if toDelete.Some? then Some(toDelete.value.id) else None;
    }

    /** The effect run when the fetcher answers: the pending budget is cleared. */
    method OnFetcherData()
      modifies this`toDelete
      ensures toDelete.None?
    {
      toDelete := None;
    }
  }

  /** Pressing "Ver detalle" twice on the same row, from a closed pane, leaves the pane closed. */
  method ShowDetailTwice(p: ListPage, id: int)
    requires p.detail.None?
    modifies p
    ensures p.detail.None?
  {
    p.HandleShowDetail(id);
    p.HandleShowDetail(id);
  }

  /** After the modal is closed, confirming submits nothing. */
  method CloseThenConfirm(p: ListPage) returns (submitted: Option<int>)
    modifies p
    ensures submitted.None?
  {
    p.HandleCloseModal();
    submitted := p.HandleConfirmDelete();
  }
}
