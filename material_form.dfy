/** The "new material" form's server action (app/routes/materials.new.tsx). */
module MaterialForm {
  import opened Wrappers
  import opened Guards

  /** The record handed to createMaterial. */
  datatype NewMaterial = NewMaterial(name: string, price: int, stock: int, userId: int)

  datatype Response = BadRequest(title: string) | CreateAndRedirect(material: NewMaterial, location: string)

  const NameRequired := "Nombre es requerido"
  const PriceRequired := "Precio es requerido"
  const StockRequired := "Cantidad es requerido"

  /** The checks in source order; `price` and `stock` are the fields after `+` (missing is 0). */
  function Rules(name: Option<string>, price: int, stock: int): seq<Rule>
  {
    [ Rule(name.Some? && |name.value| > 0, NameRequired),
      Rule(price > 0, PriceRequired),
      Rule(stock > 0, StockRequired) ]
  }

  function Action(userId: int, name: Option<string>, price: int, stock: int): (r: Response)
    ensures r.BadRequest? <==> FirstViolation(Rules(name, price, stock)).Some?
    ensures r.BadRequest? ==> FirstViolation(Rules(name, price, stock)) == Some(r.title)
    ensures r.CreateAndRedirect? ==>
      r.location == "/materials" && r.material == NewMaterial(name.value, price, stock, userId)
  {
    var rules := Rules(name, price, stock);
    if name.None? || |name.value| == 0 then Precedence(rules, 0); BadRequest(NameRequired)
    else if price <= 0 then Precedence(rules, 1); BadRequest(PriceRequired)
    else if stock <= 0 then Precedence(rules, 2); BadRequest(StockRequired)
    else CreateAndRedirect(NewMaterial(name.value, price, stock, userId), "/materials")
  }
}
