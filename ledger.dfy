/**
 * The stock ledger of app/models/budget.server.ts: three tables (material
 * stock counters, budgets, and the lines of each budget) and the operations
 * that change them. Every operation the source wraps in one `$transaction`
 * is one method here: it either fails and leaves every table as it was, or
 * applies all of its writes.
 */
module Ledger {
  import opened Wrappers

  /** A row of the material table (only the columns the core reads or writes). */
  datatype Material = Material(name: string, unitPrice: int, stock: int)

  /** A row of the budget table. Its lines live in the lines table. */
  datatype Budget = Budget(name: string, salesPrice: int, userId: int, statusId: int)

  /**
   * A budget line: which material and how many units. The `{ id, quantity }`
   * entries the callers pass to createBudget and updateBudget have the same
   * shape, with the quantity already read as a number.
   */
  datatype Line = Line(materialId: int, quantity: int)

  /** Status 2 is "Confirmado" in the seeded status table: such budgets are sales. */
  const Confirmed := 2

  /** The status a new budget gets from the database default ("Por confirmar"). */
  const Pending := 1

  /** What Prisma reports when `update` or `delete` finds no row. */
  const RecordNotFound := "Record to update or delete does not exist."

  // ---------------------------------------------------------------- stock arithmetic

  /** The total quantity of material `k` over the lines `ls`. */
  function Demand(ls: seq<Line>, k: int): int
  {
    if ls == [] then 0
    else (if ls[0].materialId == k then ls[0].quantity else 0) + Demand(ls[1..], k)
  }

  lemma {:induction false} DemandAppend(a: seq<Line>, b: seq<Line>, k: int)
    ensures Demand(a + b, k) == Demand(a, k) + Demand(b, k)
  {
    if a == [] {
      assert a + b == b;
    } else {
      assert (a + b)[0] == a[0];
      assert (a + b)[1..] == a[1..] + b;
      DemandAppend(a[1..], b, k);
    }
  }

  /** A material that no line names has no demand. */
  lemma {:induction false} DemandAbsent(ls: seq<Line>, k: int)
    requires forall i :: 0 <= i < |ls| ==> ls[i].materialId != k
    ensures Demand(ls, k) == 0
  {
    if ls != [] {
      DemandAbsent(ls[1..], k);
    }
  }

  /** Every line names a material of `m`. */
  predicate Known(m: map<int, Material>, ls: seq<Line>)
  {
    forall i :: 0 <= i < |ls| ==> ls[i].materialId in m
  }

  /** The material table after every line of `ls` decremented its material's stock. */
  function Debited(m: map<int, Material>, ls: seq<Line>): (r: map<int, Material>)
    ensures r.Keys == m.Keys
  {
    map k | k in m :: m[k].(stock := m[k].stock - Demand(ls, k))
  }

  /** The material table after every line of `ls` incremented its material's stock. */
  function Credited(m: map<int, Material>, ls: seq<Line>): (r: map<int, Material>)
    ensures r.Keys == m.Keys
  {
    map k | k in m :: m[k].(stock := m[k].stock + Demand(ls, k))
  }

  /** One more line debits one more counter by that line's quantity. */
  lemma DebitStep(m: map<int, Material>, ls: seq<Line>, l: Line)
    requires l.materialId in m
    ensures var d := Debited(m, ls);
      Debited(m, ls + [l]) == d[l.materialId := d[l.materialId].(stock := d[l.materialId].stock - l.quantity)]
  {
    assert [l][1..] == [];
    forall k | k in m ensures Demand(ls + [l], k) == Demand(ls, k) + (if l.materialId == k then l.quantity else 0) {
      DemandAppend(ls, [l], k);
    }
  }

  /** One more line credits one more counter by that line's quantity. */
  lemma CreditStep(m: map<int, Material>, ls: seq<Line>, l: Line)
    requires l.materialId in m
    ensures var c := Credited(m, ls);
      Credited(m, ls + [l]) == c[l.materialId := c[l.materialId].(stock := c[l.materialId].stock + l.quantity)]
  {
    assert [l][1..] == [];
    forall k | k in m ensures Demand(ls + [l], k) == Demand(ls, k) + (if l.materialId == k then l.quantity else 0) {
      DemandAppend(ls, [l], k);
    }
  }

  /** Decrementing and then incrementing by the same lines restores every counter. */
  lemma CreditCancelsDebit(m: map<int, Material>, ls: seq<Line>)
    ensures Credited(Debited(m, ls), ls) == m
  {
    var r := Credited(Debited(m, ls), ls);
    assert forall k | k in m :: r[k] == m[k];
  }

  /** A debit changes only the stock of the materials that the lines name, and by their demand. */
  lemma DebitedStock(m: map<int, Material>, ls: seq<Line>, k: int)
    requires k in m
    ensures Debited(m, ls)[k].name == m[k].name && Debited(m, ls)[k].unitPrice == m[k].unitPrice
    ensures Debited(m, ls)[k].stock == m[k].stock - Demand(ls, k)
    ensures (forall i :: 0 <= i < |ls| ==> ls[i].materialId != k) ==> Debited(m, ls)[k] == m[k]
  {
    if forall i :: 0 <= i < |ls| ==> ls[i].materialId != k {
      DemandAbsent(ls, k);
    }
  }

  /** The server never checks that stock stays non-negative: a budget may take more than there is. */
  lemma StockMayGoNegative()
    ensures Debited(map[1 := Material("Hojas", 2, 5)], [Line(1, 8)])[1].stock == -3
  {
    assert Demand([Line(1, 8)], 1) == 8;
  }

  // ---------------------------------------------------------------- updateBudget's adjustment

  /** Some line of `ls` names material `k` (`oldMaterials.some(o => m.id === o.id)`). */
  predicate HasMaterial(ls: seq<Line>, k: int)
  {
    exists i :: 0 <= i < |ls| && ls[i].materialId == k
  }

  /** The quantity of the first line of `ls` naming `k` (`oldMaterials.find(...)`). */
  function FirstQuantity(ls: seq<Line>, k: int): int
    requires HasMaterial(ls, k)
  {
    if ls[0].materialId == k then ls[0].quantity
    else
      assert ls[0].materialId != k;
      assert HasMaterial(ls[1..], k) by {
        var i :| 0 <= i < |ls| && ls[i].materialId == k;
        assert ls[1..][i - 1] == ls[i];
      }
      FirstQuantity(ls[1..], k)
  }

  /** How many lines of `ls` name `k`. */
  function Occurrences(ls: seq<Line>, k: int): nat
  {
    if ls == [] then 0 else (if ls[0].materialId == k then 1 else 0) + Occurrences(ls[1..], k)
  }

  /**
   * The stock decrements updateBudget issues: the lines of `after` (the new
   * list) whose material also appears in `before` (the old list), each by its
   * new quantity minus the first old quantity of that material.
   */
  function Carried(before: seq<Line>, after: seq<Line>): (r: seq<Line>)
    ensures |r| <= |after|
    ensures forall i :: 0 <= i < |r| ==> HasMaterial(before, r[i].materialId) && HasMaterial(after, r[i].materialId)
  {
    if after == [] then []
    else
      var rest := Carried(before, after[1..]);
      assert forall i :: 0 <= i < |rest| ==> HasMaterial(after, rest[i].materialId) by {
        forall i | 0 <= i < |rest| ensures HasMaterial(after, rest[i].materialId) {
          var j :| 0 <= j < |after[1..]| && after[1..][j].materialId == rest[i].materialId;
          assert after[j + 1] == after[1..][j];
        }
      }
      if HasMaterial(before, after[0].materialId) then
        var head := Line(after[0].materialId, after[0].quantity - FirstQuantity(before, after[0].materialId));
        assert forall i :: 1 <= i < |[head] + rest| ==> ([head] + rest)[i] == rest[i - 1];
        [head] + rest
      else rest
  }

  /**
   * The net decrement updateBudget applies to material `k`: zero unless `k`
   * is in the old list, otherwise the new demand minus the first old
   * quantity once for every new line naming `k`.
   */
  lemma {:induction false} CarriedDemand(before: seq<Line>, after: seq<Line>, k: int)
    ensures Demand(Carried(before, after), k) ==
      if HasMaterial(before, k) then Demand(after, k) - Occurrences(after, k) * FirstQuantity(before, k) else 0
  {
    if after != [] {
      CarriedDemand(before, after[1..], k);
      CarriedHead(before, after, k);
      if after[0].materialId == k && HasMaterial(before, k) {
        var q, n := FirstQuantity(before, k), Occurrences(after[1..], k);
        assert (n + 1) * q == n * q + q;
      }
    }
  }

  /** Carried peels off the first new line. */
  lemma CarriedHead(before: seq<Line>, after: seq<Line>, k: int)
    requires after != []
    ensures Demand(Carried(before, after), k) == Demand(Carried(before, after[1..]), k) +
      (if after[0].materialId == k && HasMaterial(before, k) then after[0].quantity - FirstQuantity(before, k) else 0)
  {
    var rest := Carried(before, after[1..]);
    if HasMaterial(before, after[0].materialId) {
      var head := Line(after[0].materialId, after[0].quantity - FirstQuantity(before, after[0].materialId));
      assert Carried(before, after) == [head] + rest;
      assert ([head] + rest)[0] == head;
      assert ([head] + rest)[1..] == rest;
    }
  }

  /**
   * For a material listed once in each list, updateBudget changes its stock by
   * old quantity minus new quantity; a material listed in only one of them is not touched.
   */
  lemma UpdateAdjustment(before: seq<Line>, after: seq<Line>, k: int)
    ensures !HasMaterial(before, k) ==> Demand(Carried(before, after), k) == 0
    ensures !HasMaterial(after, k) ==> Demand(Carried(before, after), k) == 0
    ensures HasMaterial(before, k) && Occurrences(after, k) == 1 ==>
      Demand(Carried(before, after), k) == Demand(after, k) - FirstQuantity(before, k)
  {
    CarriedDemand(before, after, k);
    if !HasMaterial(after, k) {
      DemandAbsent(after, k);
      OccurrencesAbsent(after, k);
    }
  }

  lemma {:induction false} OccurrencesAbsent(ls: seq<Line>, k: int)
    requires !HasMaterial(ls, k)
    ensures Occurrences(ls, k) == 0
  {
    if ls != [] {
      assert ls[0].materialId != k;
      forall i | 0 <= i < |ls[1..]| ensures ls[1..][i].materialId != k {
        assert ls[1..][i] == ls[i + 1];
      }
      OccurrencesAbsent(ls[1..], k);
    }
  }

  /** Removing a material from a budget does not put its quantity back into stock. */
  lemma RemovedMaterialNotRestored()
    ensures Debited(map[1 := Material("Hojas", 2, 5)], Carried([Line(1, 3)], []))[1].stock == 5
  {
  }

  /** Adding a material to an existing budget does not take it out of stock. */
  lemma AddedMaterialNotTaken()
    ensures Debited(map[1 := Material("Hojas", 2, 5)], Carried([], [Line(1, 3)]))[1].stock == 5
  {
    assert !HasMaterial([], 1);
  }

  // ---------------------------------------------------------------- list ordering

  /**
   * The ids below `n` (and from 1 up, where the autoincrement starts) of the
   * budgets of `userId` that are sales (`sales`) or not, largest first: the
   * rows of `findMany({ where: { userId, statusId }, orderBy: { id: "desc" } })`.
   */
  function Newest(budgets: map<int, Budget>, userId: int, sales: bool, n: int): (r: seq<int>)
    ensures forall i :: 0 <= i < |r| ==> 1 <= r[i] < n && Selected(budgets, userId, sales, r[i])
    ensures forall id :: 1 <= id < n && Selected(budgets, userId, sales, id) ==> id in r
    ensures forall i, j :: 0 <= i < j < |r| ==> r[i] > r[j]
    decreases n
  {
    if n <= 1 then []
    else
      var rest := Newest(budgets, userId, sales, n - 1);
      if Selected(budgets, userId, sales, n - 1) then [n - 1] + rest else rest
  }

  /** Budget `id` exists, belongs to `userId`, and is confirmed exactly when `sales`. */
  predicate Selected(budgets: map<int, Budget>, userId: int, sales: bool, id: int)
  {
    id in budgets && budgets[id].userId == userId && (budgets[id].statusId == Confirmed) == sales
  }

  // ---------------------------------------------------------------- query results

  /** A line as a query returns it, with its material row joined in. */
  datatype LineItem = LineItem(materialId: int, quantity: int, material: Material)

  /** A budget as a query returns it, with its lines and status id. */
  datatype BudgetItem = BudgetItem(id: int, name: string, salesPrice: int, userId: int, statusId: int,
                                   lines: seq<LineItem>)

  /** The lines `ls` with their material rows joined in, in line order. */
  function Join(m: map<int, Material>, ls: seq<Line>): (r: seq<LineItem>)
    requires Known(m, ls)
    ensures |r| == |ls|
    ensures forall i :: 0 <= i < |r| ==>
      r[i].materialId == ls[i].materialId && r[i].quantity == ls[i].quantity && r[i].material == m[ls[i].materialId]
  {
    if ls == [] then [] else [LineItem(ls[0].materialId, ls[0].quantity, m[ls[0].materialId])] + Join(m, ls[1..])
  }

  // ---------------------------------------------------------------- the store

  class Store {
    var materials: map<int, Material>
    var budgets: map<int, Budget>
    /** The lines table, grouped by budget id and kept in insertion order. */
    var lines: map<int, seq<Line>>
    /** The next value of the autoincrement budget id. */
    var nextId: int

    /** Every budget has its (possibly empty) lines, every line a material, every id is in [1, nextId). */
    ghost predicate Valid()
      reads this
    {
      && lines.Keys == budgets.Keys
      && nextId >= 1
      && (forall id :: id in budgets ==> 1 <= id < nextId)
      && (forall id :: id in lines ==> Known(materials, lines[id]))
    }

    constructor (materials: map<int, Material>)
      ensures Valid()
      ensures this.materials == materials && budgets == map[] && lines == map[]
    {
      this.materials := materials;
      budgets := map[];
      lines := map[];
      nextId := 1;
    }

    /** Applies one `stock: { decrement }` update per line, in order. */
    method Debit(ls: seq<Line>)
      requires Known(materials, ls)
      modifies this`materials
      ensures materials == Debited(old(materials), ls)
    {
      ghost var m0 := materials;
      for i := 0 to |ls|
        invariant materials == Debited(m0, ls[..i])
      {
        var l := ls[i];
        assert ls[..i + 1] == ls[..i] + [l];
        DebitStep(m0, ls[..i], l);
        materials := materials[l.materialId := materials[l.materialId].(stock := materials[l.materialId].stock - l.quantity)];
      }
      assert ls[..|ls|] == ls;
    }

    /** Applies one `stock: { increment }` update per line, in order. */
    method Credit(ls: seq<Line>)
      requires Known(materials, ls)
      modifies this`materials
      ensures materials == Credited(old(materials), ls)
    {
      ghost var m0 := materials;
      for i := 0 to |ls|
        invariant materials == Credited(m0, ls[..i])
      {
        var l := ls[i];
        assert ls[..i + 1] == ls[..i] + [l];
        CreditStep(m0, ls[..i], l);
        materials := materials[l.materialId := materials[l.materialId].(stock := materials[l.materialId].stock + l.quantity)];
      }
      assert ls[..|ls|] == ls;
    }

    /**
     * createBudget: decrement the stock of every entry's material, create the
     * budget with one line per entry, in entry order. It fails, changing
     * nothing, when an entry names a material that does not exist.
     */
    method CreateBudget(name: string, entries: seq<Line>, salesPrice: int, userId: int) returns (r: Result<int>)
      requires Valid()
      modifies this
      ensures Valid()
      ensures r.Success? <==> Known(old(materials), entries)
      ensures r.Success? ==>
        && r.value == old(nextId) && r.value !in old(budgets)
        && materials == Debited(old(materials), entries)
        && budgets == old(budgets)[r.value := Budget(name, salesPrice, userId, Pending)]
        && lines == old(lines)[r.value := entries]
        && nextId == old(nextId) + 1
      ensures r.Failure? ==> unchanged(this)
    {
      if !(forall i | 0 <= i < |entries| :: entries[i].materialId in materials) {
        return Failure(RecordNotFound);
      }
      Debit(entries);
      var id := nextId;
      budgets := budgets[id := Budget(name, salesPrice, userId, Pending)];
      lines := lines[id := entries];
      nextId := nextId + 1;
      r := Success(id);
    }

    /**
     * updateBudget: delete every line of budget `id`, apply the decrements of
     * Carried(oldMaterials, materials), then store the new name, sales price,
     * owner and lines. `oldMaterials` is what the caller says the budget had.
     * Fails, changing nothing, when the budget or a new line's material does not exist.
     */
    method UpdateBudget(id: int, name: string, oldMaterials: seq<Line>, materials': seq<Line>,
                        salesPrice: int, userId: int) returns (r: Result<()>)
      requires Valid()
      modifies this
      ensures Valid()
      ensures r.Success? <==> id in old(budgets) && Known(old(materials), materials')
      ensures r.Success? ==>
        && materials == Debited(old(materials), Carried(oldMaterials, materials'))
        && budgets == old(budgets)[id := old(budgets)[id].(name := name, salesPrice := salesPrice, userId := userId)]
        && lines == old(lines)[id := materials']
        && nextId == old(nextId)
      ensures r.Failure? ==> unchanged(this)
    {
      if id !in budgets || !(forall i | 0 <= i < |materials'| :: materials'[i].materialId in materials) {
        return Failure(RecordNotFound);
      }
      var decrements := Carried(oldMaterials, materials');
      assert Known(materials, decrements) by {
        forall i | 0 <= i < |decrements| ensures decrements[i].materialId in materials {
          var j :| 0 <= j < |materials'| && materials'[j].materialId == decrements[i].materialId;
        }
      }
      lines := lines[id := []];
      Debit(decrements);
      budgets := budgets[id := budgets[id].(name := name, salesPrice := salesPrice, userId := userId)];
      lines := lines[id := materials'];
      r := Success(());
    }

    /**
     * deleteBudget: read the budget's lines, then delete the budget (its
     * lines go with it) and increment each line's material by its quantity.
     * Fails, changing nothing, when there is no such budget.
     */
    method DeleteBudget(id: int) returns (r: Result<()>)
      requires Valid()
      modifies this
      ensures Valid()
      ensures r.Success? <==> id in old(budgets)
      ensures r.Success? ==>
        && materials == Credited(old(materials), old(lines)[id])
        && budgets == old(budgets) - {id}
        && lines == old(lines) - {id}
        && nextId == old(nextId)
      ensures r.Failure? ==> unchanged(this)
    {
      var found := if id in lines then lines[id] else [];
      if id !in budgets {
        return Failure(RecordNotFound);
      }
      budgets := budgets - {id};
      lines := lines - {id};
      Credit(found);
      r := Success(());
    }

    /** updateStatusBudget: set the status of budget `id`; nothing else changes. */
    method UpdateStatusBudget(id: int, statusId: int) returns (r: Result<()>)
      requires Valid()
      modifies this`budgets
      ensures Valid()
      ensures r.Success? <==> id in old(budgets)
      ensures r.Success? ==> budgets == old(budgets)[id := old(budgets)[id].(statusId := statusId)]
      ensures r.Failure? ==> budgets == old(budgets)
    {
      if id !in budgets {
        return Failure(RecordNotFound);
      }
      budgets := budgets[id := budgets[id].(statusId := statusId)];
      r := Success(());
    }

    /** Budget `id` as the queries return it: its row, its lines with their materials. */
    function Item(id: int): (b: BudgetItem)
      reads this
      requires Valid() && id in budgets
      ensures b.id == id && b.statusId == budgets[id].statusId && b.userId == budgets[id].userId
      ensures b.name == budgets[id].name && b.salesPrice == budgets[id].salesPrice
      ensures b.lines == Join(materials, lines[id])
      ensures |b.lines| == |lines[id]|
    {
      var row := budgets[id];
      BudgetItem(id, row.name, row.salesPrice, row.userId, row.statusId, Join(materials, lines[id]))
    }

    /** getBudgetItem: an error when no id is given, otherwise the budget with that id if any. */
    function GetBudgetItem(userId: int, id: Option<int>): (r: Result<Option<BudgetItem>>)
      reads this
      requires Valid()
      ensures id.None? <==> r.Failure?
      ensures id.Some? ==> (r == Success(None) <==> id.value !in budgets)
      ensures id.Some? && id.value in budgets ==> r == Success(Some(Item(id.value)))
    {
      if id.None? then Failure("El campo 'id' es obligatorio.")
      else if id.value in budgets then Success(Some(Item(id.value)))
      else Success(None)
    }

    /** The budgets `ids`, in that order, as the queries return them. */
    function Items(ids: seq<int>): (items: seq<BudgetItem>)
      reads this
      requires Valid() && forall i :: 0 <= i < |ids| ==> ids[i] in budgets
      ensures |items| == |ids|
      ensures forall i :: 0 <= i < |ids| ==> items[i] == Item(ids[i])
    {
      if ids == [] then [] else [Item(ids[0])] + Items(ids[1..])
    }

    /** getBudgetListItems: the user's budgets whose status is not 2, newest id first. */
    function BudgetListIds(userId: int): (ids: seq<int>)
      reads this
      ensures forall i :: 0 <= i < |ids| ==>
        ids[i] in budgets && budgets[ids[i]].userId == userId && budgets[ids[i]].statusId != Confirmed
      ensures forall i, j :: 0 <= i < j < |ids| ==> ids[i] > ids[j]
    {
      Newest(budgets, userId, false, nextId)
    }

    /** getSalesListItems: the user's budgets whose status is 2, newest id first. */
    function SalesListIds(userId: int): (ids: seq<int>)
      reads this
      ensures forall i :: 0 <= i < |ids| ==>
        ids[i] in budgets && budgets[ids[i]].userId == userId && budgets[ids[i]].statusId == Confirmed
      ensures forall i, j :: 0 <= i < j < |ids| ==> ids[i] > ids[j]
    {
      Newest(budgets, userId, true, nextId)
    }

    /** The rows getBudgetListItems returns. */
    function BudgetListItems(userId: int): (items: seq<BudgetItem>)
      reads this
      requires Valid()
      ensures |items| == |BudgetListIds(userId)|
      ensures forall i :: 0 <= i < |items| ==> items[i] == Item(BudgetListIds(userId)[i])
      ensures forall i :: 0 <= i < |items| ==> items[i].statusId != Confirmed && items[i].userId == userId
      ensures forall i, j :: 0 <= i < j < |items| ==> items[i].id > items[j].id
    {
      Items(BudgetListIds(userId))
    }

    /** The rows getSalesListItems returns. */
    function SalesListItems(userId: int): (items: seq<BudgetItem>)
      reads this
      requires Valid()
      ensures |items| == |SalesListIds(userId)|
      ensures forall i :: 0 <= i < |items| ==> items[i] == Item(SalesListIds(userId)[i])
      ensures forall i :: 0 <= i < |items| ==> items[i].statusId == Confirmed && items[i].userId == userId
      ensures forall i, j :: 0 <= i < j < |items| ==> items[i].id > items[j].id
    {
      Items(SalesListIds(userId))
    }

    /** Every budget of a user is on exactly one of the two lists. */
    lemma ListsPartition(userId: int, id: int)
      requires Valid()
      ensures id in budgets && budgets[id].userId == userId ==>
        (id in BudgetListIds(userId)) != (id in SalesListIds(userId))
      ensures id in BudgetListIds(userId) || id in SalesListIds(userId) ==>
        id in budgets && budgets[id].userId == userId
    {
    }
  }

  /**
   * Deleting a budget right after creating it puts every stock counter, the
   * budget table and the lines table back as they were.
   */
  method CreateThenDelete(s: Store, name: string, entries: seq<Line>, salesPrice: int, userId: int)
    requires s.Valid() && Known(s.materials, entries)
    modifies s
    ensures s.Valid()
    ensures s.materials == old(s.materials) && s.budgets == old(s.budgets) && s.lines == old(s.lines)
  {
    var created := s.CreateBudget(name, entries, salesPrice, userId);
    var deleted := s.DeleteBudget(created.value);
    CreditCancelsDebit(old(s.materials), entries);
    assert s.budgets == old(s.budgets) by {
      assert created.value !in old(s.budgets);
    }
    assert s.lines == old(s.lines) by {
      assert created.value !in old(s.lines);
    }
  }
}
