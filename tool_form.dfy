/**
 * The "new tool" form (app/routes/tools.new.tsx): the server action's guard
 * chain and the total-price preview shown while typing.
 */
module ToolForm {
  import opened Wrappers
  import opened Guards

  /** The record handed to createTool. */
  datatype Tool = Tool(name: string, quantity: int, unitPrice: int, totalPrice: int, userId: int)

  /** What the action answers: a 400 with an error title, or createTool followed by a redirect. */
  datatype Response = BadRequest(title: string) | CreateAndRedirect(tool: Tool, location: string)

  const NameRequired := "Nombre es requerido"
  const QuantityRequired := "Cantidad es requerido"
  const UnitPriceRequired := "Precio unitario es requerido"
  const TotalPriceRequired := "Precio total es requerido"

  /**
   * `name` is the raw form field (None when it is missing or not a string);
   * the three numbers are the fields after `+` coercion (a missing field is 0).
   */
  predicate NameGiven(name: Option<string>) { name.Some? && |name.value| > 0 }

  /** The checks of the action, in the order the source performs them. */
  function Rules(name: Option<string>, quantity: int, unitPrice: int, totalPrice: int): seq<Rule>
  {
    [ Rule(NameGiven(name), NameRequired),
      Rule(quantity > 0, QuantityRequired),
      Rule(unitPrice > 0, UnitPriceRequired),
      Rule(totalPrice > 0, TotalPriceRequired) ]
  }

  /** The action: an early-return guard chain, then createTool and a redirect to /tools. */
  function Action(userId: int, name: Option<string>, quantity: int, unitPrice: int, totalPrice: int): (r: Response)
    ensures r.BadRequest? <==> FirstViolation(Rules(name, quantity, unitPrice, totalPrice)).Some?
    ensures r.BadRequest? ==> FirstViolation(Rules(name, quantity, unitPrice, totalPrice)) == Some(r.title)
    ensures r.CreateAndRedirect? ==>
      r.location == "/tools" && r.tool == Tool(name.value, quantity, unitPrice, totalPrice, userId)
  {
    var rules := Rules(name, quantity, unitPrice, totalPrice);
    if !NameGiven(name) then Precedence(rules, 0); BadRequest(NameRequired)
    else if quantity <= 0 then Precedence(rules, 1); BadRequest(QuantityRequired)
    else if unitPrice <= 0 then Precedence(rules, 2); BadRequest(UnitPriceRequired)
    else if totalPrice <= 0 then Precedence(rules, 3); BadRequest(TotalPriceRequired)
    else CreateAndRedirect(Tool(name.value, quantity, unitPrice, totalPrice, userId), "/tools")
  }

  /** The server stores the submitted total as is: it is never compared with quantity × unitPrice. */
  lemma TotalNotRecomputed()
    ensures Action(1, Some("Guillotina"), 2, 3, 1).CreateAndRedirect?
    ensures Action(1, Some("Guillotina"), 2, 3, 1).tool.totalPrice != 2 * 3
  {
  }

  /** Decimal digits of a positive number, as `n + ""` prints it. */
  function Decimal(n: nat): (s: string)
    requires n > 0
    ensures |s| > 0 && s[0] != '0'
    ensures forall i :: 0 <= i < |s| ==> '0' <= s[i] <= '9'
    decreases n
  {
    var d := [('0' as int + n % 10) as char];
    if n < 10 then d else Decimal(n / 10) + d
  }

  /** The number a string of decimal digits denotes. */
  function DigitsValue(s: string): nat
    requires forall i :: 0 <= i < |s| ==> '0' <= s[i] <= '9'
  {
    if s == [] then 0 else DigitsValue(s[..|s| - 1]) * 10 + (s[|s| - 1] as int - '0' as int)
  }

  /** Printing a positive number and reading its digits back gives the number. */
  lemma {:induction false} DecimalRoundTrip(n: nat)
    requires n > 0
    ensures DigitsValue(Decimal(n)) == n
  {
    var s := Decimal(n);
    if n >= 10 {
      DecimalRoundTrip(n / 10);
      assert s[..|s| - 1] == Decimal(n / 10);
    }
  }

  /**
   * The read-only "Precio Total" field. The two inputs hold `parseInt` of what
   * was typed (None when that is NaN); the field shows their product when both
   * are positive and "0" otherwise.
   */
  function TotalPrice(quantity: Option<int>, price: Option<int>): (s: string)
    ensures forall i :: 0 <= i < |s| ==> '0' <= s[i] <= '9'
    ensures s == "0" <==> !(quantity.Some? && price.Some? && quantity.value > 0 && price.value > 0)
    ensures s != "0" ==> DigitsValue(s) == quantity.value * price.value
  {
    if quantity.Some? && price.Some? && quantity.value > 0 && price.value > 0 then
      var p := quantity.value * price.value;
      DecimalRoundTrip(p);
      Decimal(p)
    else "0"
  }
}
