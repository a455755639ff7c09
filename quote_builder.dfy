/**
 * The "new budget" route (app/routes/budgets.new.tsx): the server action that
 * turns the submitted form into a createBudget call, and the page state in
 * which the user collects materials and quantities before submitting.
 */
module QuoteBuilder {
  import opened Wrappers
  import opened Guards

  // ---------------------------------------------------------------- server action

  /**
   * One `{ id: materials[i], quantity: quantity[i] }` pair; the quantity is
   * absent (`undefined`) when the quantity list is shorter.
   */
  datatype Entry = Entry(id: int, quantity: Option<int>)

  /** The action's answer: a 400 with an error title, or createBudget followed by a redirect. */
  datatype Response =
    | BadRequest(title: string)
    | CreateAndRedirect(name: string, entries: seq<Entry>, userId: int, location: string)

  const NameMissing := "Asignale un nombre a tu presupuesto"
  const MaterialsMissing := "Agrega al menos un material o valida el nombre"
  const QuantitiesMissing := "Agrega al menos un material o valida la cantidad"
  const CountMismatch := "El total de materiales y cantidades no coinciden"

  /** The action's `for` loop: the i-th material id paired with the i-th quantity, one pair per material. */
  method Zip(materials: seq<int>, quantity: seq<int>) returns (entries: seq<Entry>)
    ensures |entries| == |materials|
    ensures forall i :: 0 <= i < |entries| ==>
      entries[i].id == materials[i] && entries[i].quantity == (if i < |quantity| then Some(quantity[i]) else None)
  {
    entries := [];
    for i := 0 to |materials|
      invariant |entries| == i
      invariant forall j :: 0 <= j < i ==>
        entries[j].id == materials[j] && entries[j].quantity == (if j < |quantity| then Some(quantity[j]) else None)
    {
      var q := if i < |quantity| then Some(quantity[i]) else None;
      entries := entries + [Entry(materials[i], q)];
    }
  }

  /** The four checks of the action, in source order. */
  function Rules(name: Option<string>, materials: seq<int>, quantity: seq<int>): seq<Rule>
  {
    [ Rule(name.Some? && |name.value| > 0, NameMissing),
      Rule(|materials| > 0, MaterialsMissing),
      Rule(|quantity| > 0, QuantitiesMissing),
      Rule(|materials| == |quantity|, CountMismatch) ]
  }

  /**
   * The action. `name` is the raw field (None when missing or not a string),
   * `materials` and `quantity` the two `getAll` lists, already numeric.
   * createBudget runs only when every check passes, and then receives every
   * material paired with its quantity, in form order.
   */
  method Action(userId: int, name: Option<string>, materials: seq<int>, quantity: seq<int>) returns (r: Response)
    ensures r.BadRequest? <==> FirstViolation(Rules(name, materials, quantity)).Some?
    ensures r.BadRequest? ==> FirstViolation(Rules(name, materials, quantity)) == Some(r.title)
    ensures r.CreateAndRedirect? ==>
      && r.name == name.value && r.userId == userId && r.location == "/budgets"
      && |r.entries| == |materials| == |quantity|
      && forall i :: 0 <= i < |materials| ==> r.entries[i] == Entry(materials[i], Some(quantity[i]))
  {
    var entries := Zip(materials, quantity);
    var rules := Rules(name, materials, quantity);
    if name.None? || |name.value| == 0 {
      Precedence(rules, 0);
      return BadRequest(NameMissing);
    }
    if |materials| == 0 {
      Precedence(rules, 1);
      return BadRequest(MaterialsMissing);
    }
    if |quantity| == 0 {
      Precedence(rules, 2);
      return BadRequest(QuantitiesMissing);
    }
    if |materials| != |quantity| {
      Precedence(rules, 3);
      return BadRequest(CountMismatch);
    }
    r := CreateAndRedirect(name.value, entries, userId, "/budgets");
  }

  // ---------------------------------------------------------------- page state

  /** A material row of the loader data. */
  datatype CatalogItem = CatalogItem(id: int, name: string, unitPrice: int, stock: int)

  /** A material the user has added to the budget; `quantity` is what was typed. */
  datatype Chosen = Chosen(id: int, name: string, unitPrice: int, quantity: int)

  /** What handleAddMaterial did, standing for the toast it shows. */
  datatype AddOutcome = Invalid(errors: seq<string>) | AlreadyIncluded | UnknownMaterial | Added

  const SelectMaterial := "Selecciona un material"
  const EnterQuantity := "Ingresa la cantidad"

  /**
   * The characters JavaScript's string-to-number conversion trims as white
   * space or line terminators: a value made of one of them alone converts to 0.
   */
  predicate IsSpace(c: char)
  {
    var n := c as int;
    || n == 0x09 || n == 0x0A || n == 0x0B || n == 0x0C || n == 0x0D || n == 0x20 || n == 0xA0
    || n == 0x1680 || (0x2000 <= n <= 0x200A) || n == 0x2028 || n == 0x2029 || n == 0x202F
    || n == 0x205F || n == 0x3000 || n == 0xFEFF
  }

  /**
   * `const [idSelected] = material; +idSelected`: the number denoted by the
   * FIRST CHARACTER of the selected value, None standing for NaN (an empty
   * value gives `+undefined`). A lone blank coerces to 0.
   */
  function SelectionKey(material: string): (k: Option<int>)
    ensures k.Some? ==> 0 <= k.value <= 9
    ensures |material| > 0 && '0' <= material[0] <= '9' ==> k == Some(material[0] as int - '0' as int)
    ensures |material| > 0 && IsSpace(material[0]) ==> k == Some(0)
    ensures |material| > 0 && !('0' <= material[0] <= '9') && !IsSpace(material[0]) ==> k.None?
    ensures |material| == 0 ==> k.None?
  {
    if |material| == 0 then None
    else if '0' <= material[0] <= '9' then Some(material[0] as int - '0' as int)
    else if IsSpace(material[0]) then Some(0)
    else None
  }

  /** `data.find((m) => m.id === key)`: the first catalog row with that id; NaN matches nothing. */
  function FindCatalog(data: seq<CatalogItem>, key: Option<int>): (r: Option<CatalogItem>)
    ensures r.Some? <==> key.Some? && exists i :: 0 <= i < |data| && data[i].id == key.value
    ensures r.Some? ==> r.value in data && r.value.id == key.value
    ensures r.Some? ==> exists i :: 0 <= i < |data| && data[i] == r.value && forall j :: 0 <= j < i ==> data[j].id != key.value
  {
    if key.None? || data == [] then None
    else if data[0].id == key.value then Some(data[0])
    else
      var rest := FindCatalog(data[1..], key);
      assert forall i :: 1 <= i < |data| ==> data[i] == data[1..][i - 1];
      rest
  }

  /** Some chosen row has id `key` (`materials.find((m) => m.id === key)` is truthy). */
  predicate Includes(materials: seq<Chosen>, key: Option<int>)
  {
    key.Some? && exists i :: 0 <= i < |materials| && materials[i].id == key.value
  }

  /** The errors `validate` lists, in order; the add is refused when there is any. */
  function ValidationErrors(material: string, quantity: Option<int>): (errors: seq<string>)
    ensures errors == [] <==> material != "" && quantity.Some?
    ensures SelectMaterial in errors <==> material == ""
    ensures EnterQuantity in errors <==> quantity.None?
    ensures |errors| <= 2
    ensures |errors| == 2 ==> errors == [SelectMaterial, EnterQuantity]
  {
    (if material == "" then [SelectMaterial] else []) + (if quantity.None? then [EnterQuantity] else [])
  }

  /**
   * The guard of the quantity input's onChange: the typed value (None for the
   * empty string, which `+` reads as 0) is kept only when the selected
   * material's stock is known and non-zero and the value does not exceed it.
   */
  function QuantityAccepted(stock: Option<int>, value: Option<int>): (ok: bool)
    ensures ok ==> stock.Some? && stock.value != 0 && (value.Some? ==> value.value <= stock.value)
    ensures stock.Some? && stock.value != 0 && value.Some? && value.value <= stock.value ==> ok
    ensures value.None? ==> (ok <==> stock.Some? && stock.value > 0)
  {
    stock.Some? && stock.value != 0 && (if value.Some? then value.value else 0) <= stock.value
  }

  /** The cap has only an upper bound: any negative number is accepted when the stock is positive. */
  lemma NegativeQuantityAccepted(stock: int, value: int)
    requires stock > 0 && value < 0
    ensures QuantityAccepted(Some(stock), Some(value))
  {
  }

  /** Ids of `materials` are pairwise distinct. */
  predicate DistinctIds(materials: seq<Chosen>)
  {
    forall i, j :: 0 <= i < j < |materials| ==> materials[i].id != materials[j].id
  }

  /** `materials.filter((m) => m.id !== id)`. */
  function Without(materials: seq<Chosen>, id: int): (r: seq<Chosen>)
    ensures forall c :: c in r <==> c in materials && c.id != id
    ensures |r| <= |materials|
  {
    if materials == [] then []
    else
      var rest := Without(materials[1..], id);
      assert forall c :: c in materials <==> c == materials[0] || c in materials[1..];
      if materials[0].id == id then rest else [materials[0]] + rest
  }

  /** A filter that drops nothing returns its input. */
  lemma {:induction false} WithoutAbsent(materials: seq<Chosen>, id: int)
    requires forall i :: 0 <= i < |materials| ==> materials[i].id != id
    ensures Without(materials, id) == materials
  {
    if materials != [] {
      WithoutAbsent(materials[1..], id);
      assert [materials[0]] + materials[1..] == materials;
    }
  }

  /** With distinct ids, deleting the row at `k` keeps all other rows in their order. */
  lemma {:induction false} WithoutRemovesOne(materials: seq<Chosen>, k: nat)
    requires k < |materials| && DistinctIds(materials)
    ensures Without(materials, materials[k].id) == materials[..k] + materials[k + 1..]
  {
    var id := materials[k].id;
    var tail := materials[1..];
    assert DistinctIds(tail) by {
      forall i, j | 0 <= i < j < |tail| ensures tail[i].id != tail[j].id {
        assert tail[i] == materials[i + 1] && tail[j] == materials[j + 1];
      }
    }
    if k == 0 {
      forall i | 0 <= i < |tail| ensures tail[i].id != id {
        assert tail[i] == materials[i + 1];
      }
      WithoutAbsent(tail, id);
      assert Without(materials, id) == Without(tail, id);
      assert materials[..0] + materials[1..] == tail;
    } else {
      assert materials[0].id != id;
      assert tail[k - 1] == materials[k];
      WithoutRemovesOne(tail, k - 1);
      assert Without(materials, id) == [materials[0]] + Without(tail, id);
      assert tail[..k - 1] == materials[1..k];
      assert tail[k..] == materials[k + 1..];
      calc {
        [materials[0]] + (materials[1..k] + materials[k + 1..]);
        ([materials[0]] + materials[1..k]) + materials[k + 1..];
        { assert materials[..k] == [materials[0]] + materials[1..k]; }
        materials[..k] + materials[k + 1..];
      }
    }
  }

  /** Deleting rows keeps the remaining ids distinct. */
  lemma {:induction false} WithoutKeepsDistinct(materials: seq<Chosen>, id: int)
    requires DistinctIds(materials)
    ensures DistinctIds(Without(materials, id))
  {
    if materials != [] {
      var tail := materials[1..];
      assert DistinctIds(tail) by {
        forall i, j | 0 <= i < j < |tail| ensures tail[i].id != tail[j].id {
          assert tail[i] == materials[i + 1] && tail[j] == materials[j + 1];
        }
      }
      WithoutKeepsDistinct(tail, id);
      var rest := Without(tail, id);
      if materials[0].id != id {
        forall i | 0 <= i < |rest| ensures rest[i].id != materials[0].id {
          assert rest[i] in tail;
          var j :| 0 <= j < |tail| && tail[j] == rest[i];
          assert tail[j] == materials[j + 1];
        }
        var r := [materials[0]] + rest;
        forall i, j | 0 <= i < j < |r| ensures r[i].id != r[j].id {
          assert r[j] == rest[j - 1];
          if i > 0 { assert r[i] == rest[i - 1]; }
        }
      }
    }
  }

  /** A row of the chosen-materials table; `subtotal` is quantity × unit price. */
  datatype Row = Row(key: int, material: string, quantity: int, unitPrice: int, subtotal: int)

  /** The `rows` memo: one row per chosen material, in list order. */
  function Rows(materials: seq<Chosen>): (rows: seq<Row>)
    ensures |rows| == |materials|
    ensures forall i :: 0 <= i < |rows| ==>
      rows[i] == Row(materials[i].id, materials[i].name, materials[i].quantity, materials[i].unitPrice,
                     materials[i].quantity * materials[i].unitPrice)
  {
    if materials == [] then []
    else
      var m := materials[0];
      [Row(m.id, m.name, m.quantity, m.unitPrice, m.quantity * m.unitPrice)] + Rows(materials[1..])
  }

  /** The sum of the subtotal column. */
  function SubtotalSum(rows: seq<Row>): int
  {
    if rows == [] then 0 else rows[0].subtotal + SubtotalSum(rows[1..])
  }

  /** `materials.reduce((sum, m) => sum + m.quantity * m.unitPrice, acc)`: a left fold. */
  function Reduce(acc: int, materials: seq<Chosen>): (r: int)
    ensures r == acc + SubtotalSum(Rows(materials))
    decreases materials
  {
    if materials == [] then acc
    else
      assert Rows(materials)[1..] == Rows(materials[1..]);
      Reduce(acc + materials[0].quantity * materials[0].unitPrice, materials[1..])
  }

  /** The `total` shown under the table: it equals the sum of the row subtotals. */
  function Total(materials: seq<Chosen>): (t: int)
    ensures t == SubtotalSum(Rows(materials))
  {
    Reduce(0, materials)
  }

  /**
   * Selecting material "12" looks up material 1: only the first character of
   * the selected id is used as the key.
   */
  lemma TwoDigitIdSelectsOther()
    ensures FindCatalog([CatalogItem(1, "Hojas", 10, 500), CatalogItem(12, "Tinta", 30, 20)], SelectionKey("12"))
         == Some(CatalogItem(1, "Hojas", 10, 500))
  {
  }

  /** `c` copies the id, name and unit price of some loader row. */
  predicate FromCatalog(data: seq<CatalogItem>, c: Chosen)
  {
    exists j :: 0 <= j < |data| && data[j].id == c.id && data[j].name == c.name && data[j].unitPrice == c.unitPrice
  }

  /** The React state of the page. `quantity` None stands for the empty string. */
  class NewBudgetPage {
    const data: seq<CatalogItem>
    var materials: seq<Chosen>
    var selected: set<string>
    var material: string
    var quantity: Option<int>

    /** The chosen rows have distinct ids and each copies a row of the loader data. */
    ghost predicate Valid()
      reads this
    {
      && DistinctIds(materials)
      && forall i :: 0 <= i < |materials| ==> FromCatalog(data, materials[i])
    }

    constructor (data: seq<CatalogItem>)
      ensures Valid()
      ensures this.data == data && materials == [] && selected == {} && material == "" && quantity.None?
    {
      this.data := data;
      materials := [];
      selected := {};
      material := "";
      quantity := None;
    }

    /** handleSelectionChange: the select's value becomes both the selection and `material`. */
    method HandleSelectionChange(value: string)
      modifies this`selected, this`material
      ensures selected == {value} && material == value
    {
      selected := {value};
      material := value;
    }

    /** The `stock` memo: the stock of the loader row found with the first-character key. */
    function Stock(): (s: Option<int>)
      reads this
      ensures s.Some? <==> SelectionKey(material).Some? && exists i :: 0 <= i < |data| && data[i].id == SelectionKey(material).value
      ensures s.Some? ==> exists i :: 0 <= i < |data| && Some(data[i].id) == SelectionKey(material) && data[i].stock == s.value
    {
      var mat := FindCatalog(data, SelectionKey(material));
      if mat.Some? then Some(mat.value.stock) else None
    }

    /** The quantity input's onChange: the typed value is kept only if the cap accepts it. */
    method OnQuantityChange(value: Option<int>)
      modifies this`quantity
      ensures quantity == if QuantityAccepted(Stock(), value) then value else old(quantity)
    {
      var stock := Stock();
      if stock.None? || stock.value == 0 || (if value.Some? then value.value else 0) > stock.value {
        return;
      }
      quantity := value;
    }

    /**
     * handleAddMaterial: refuse on validation errors, on an id already in the
     * list and on an id missing from the loader data; otherwise append one row
     * and clear the selection, the material and the quantity.
     */
    method HandleAddMaterial() returns (outcome: AddOutcome)
      requires Valid()
      modifies this`materials, this`selected, this`material, this`quantity
      ensures Valid()
      ensures ValidationErrors(old(material), old(quantity)) != [] ==>
        outcome == Invalid(ValidationErrors(old(material), old(quantity)))
      ensures outcome != Added ==>
        materials == old(materials) && selected == old(selected) && material == old(material) && quantity == old(quantity)
      ensures outcome == AlreadyIncluded <==>
        ValidationErrors(old(material), old(quantity)) == [] && Includes(old(materials), SelectionKey(old(material)))
      ensures outcome == Added <==>
        && ValidationErrors(old(material), old(quantity)) == []
        && !Includes(old(materials), SelectionKey(old(material)))
        && FindCatalog(data, SelectionKey(old(material))).Some?
      ensures outcome == UnknownMaterial <==>
        && ValidationErrors(old(material), old(quantity)) == []
        && !Includes(old(materials), SelectionKey(old(material)))
        && FindCatalog(data, SelectionKey(old(material))).None?
      ensures outcome == Added ==>
        var mat := FindCatalog(data, SelectionKey(old(material))).value;
        && materials == old(materials) + [Chosen(mat.id, mat.name, mat.unitPrice, old(quantity).value)]
        && selected == {} && material == "" && quantity.None?
    {
      var errors := ValidationErrors(material, quantity);
      if errors != [] {
        return Invalid(errors);
      }
      var key := SelectionKey(material);
      if Includes(materials, key) {
        return AlreadyIncluded;
      }
      var mat := FindCatalog(data, key);
      if mat.None? {
        return UnknownMaterial;
      }
      var row := Chosen(mat.value.id, mat.value.name, mat.value.unitPrice, quantity.value);
      assert forall i :: 0 <= i < |materials| ==> materials[i].id != row.id;
      ghost var j :| 0 <= j < |data| && data[j] == mat.value;
      materials := materials + [row];
      assert materials[|materials| - 1] == row;
      selected := {};
      material := "";
      quantity := None;
      outcome := Added;
    }

    /** handleDeleteMaterial: drop every row with that id, keep the rest in order. */
    method HandleDeleteMaterial(id: int)
      requires Valid()
      modifies this`materials
      ensures Valid()
      ensures materials == Without(old(materials), id)
    {
      ghost var before := materials;
      WithoutKeepsDistinct(before, id);
      materials := Without(materials, id);
      forall i | 0 <= i < |materials|
        ensures FromCatalog(data, materials[i])
      {
        assert materials[i] in before;
        var k :| 0 <= k < |before| && before[k] == materials[i];
      }
    }
  }
}
