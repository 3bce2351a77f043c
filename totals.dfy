/**
 * The derived numbers of the order page: per-line calories and price
 * (quantity times the label's value), their totals, and the forEach loops in
 * updateOrderSummary and payOrder that accumulate them.
 */
module Totals {
  import opened Wrappers
  import opened Labels
  import opened Keyed
  import opened Sums
  import opened Cart

  /** A missing (or empty) price label is worth 0, as `order.price ? … : null` makes it. */
  function PriceValue(price: Option<string>): (r: nat)
    ensures price == None || price == Some("") ==> r == 0
  {
    match price
    case None => 0
    case Some(text) => LabelValue(text)
  }

  function LineCalories(l: CartLine): nat { l.quantity * LabelValue(l.calories) }

  function LinePrice(l: CartLine): nat { l.quantity * PriceValue(l.price) }

  function TotalCalories(cart: seq<CartLine>): nat { SumOf(cart, LineCalories) }

  function TotalPrice(cart: seq<CartLine>): nat { SumOf(cart, LinePrice) }

  /** One row of the order summary: "name × quantity", its calories and its price. */
  datatype SummaryRow = SummaryRow(name: string, quantity: nat, calories: nat, price: nat)

  datatype Summary = Summary(rows: seq<SummaryRow>, totalCalories: nat, totalPrice: nat)

  /** updateOrderSummary: one row per cart line, in cart order, and the two totals. */
  method Summarize(cart: seq<CartLine>) returns (s: Summary)
    ensures |s.rows| == |cart|
    ensures forall i | 0 <= i < |cart| ::
      s.rows[i] == SummaryRow(cart[i].name, cart[i].quantity, LineCalories(cart[i]), LinePrice(cart[i]))
    ensures s.totalCalories == TotalCalories(cart)
    ensures s.totalPrice == TotalPrice(cart)
  {
    var totalCalories, totalPrice := 0, 0;
    var rows: seq<SummaryRow> := [];
    for i := 0 to |cart|
      invariant |rows| == i
      invariant forall k | 0 <= k < i ::
        rows[k] == SummaryRow(cart[k].name, cart[k].quantity, LineCalories(cart[k]), LinePrice(cart[k]))
      invariant totalCalories == TotalCalories(cart[..i])
      invariant totalPrice == TotalPrice(cart[..i])
    {
      var line := cart[i];
      var calForItem := LineCalories(line);
      var priceForItem := LinePrice(line);
      assert cart[..i + 1][..i] == cart[..i];
      assert TotalCalories(cart[..i + 1]) == TotalCalories(cart[..i]) + calForItem;
      assert TotalPrice(cart[..i + 1]) == TotalPrice(cart[..i]) + priceForItem;
      totalCalories := totalCalories + calForItem;
      totalPrice := totalPrice + priceForItem;
      rows := rows + [SummaryRow(line.name, line.quantity, calForItem, priceForItem)];
    }
    assert cart[..|cart|] == cart;
    s := Summary(rows, totalCalories, totalPrice);
  }

  /** The amount payOrder asks the user to confirm. */
  method PaymentTotal(cart: seq<CartLine>) returns (total: nat)
    ensures total == TotalPrice(cart)
  {
    total := 0;
    for i := 0 to |cart|
      invariant total == TotalPrice(cart[..i])
    {
      assert cart[..i + 1][..i] == cart[..i];
      total := total + LinePrice(cart[i]);
    }
    assert cart[..|cart|] == cart;
  }

  /**
   * The line that absorbs an added dish: the existing line of that name
   * when there is one (the labels passed in are then ignored), the new line
   * otherwise.
   */
  function AbsorbingLine(cart: seq<CartLine>, name: string, calories: string, price: Option<string>): CartLine {
    match Find(cart, LineName, name)
    case Some(i) => cart[i]
    case None => CartLine(name, calories, price, 1)
  }

  lemma MulSucc(q: nat, v: nat)
    ensures (q + 1) * v == q * v + v
  {
  }

  /** Adding a dish raises the price total by one portion at the absorbing line's price. */
  lemma AddLineTotalPrice(cart: seq<CartLine>, name: string, calories: string, price: Option<string>)
    ensures TotalPrice(AddLine(cart, name, calories, price))
         == TotalPrice(cart) + PriceValue(AbsorbingLine(cart, name, calories, price).price)
  {
    match Find(cart, LineName, name)
    case Some(i) =>
      var bumped := cart[i].(quantity := cart[i].quantity + 1);
      MulSucc(cart[i].quantity, PriceValue(cart[i].price));
      SumOfUpdate(cart, i, bumped, LinePrice);
    case None =>
      var line := CartLine(name, calories, price, 1);
      assert [line][..0] == [];
      SumOfAppend(cart, [line], LinePrice);
  }

  /** Adding a dish raises the calorie total by one portion at the absorbing line's calories. */
  lemma AddLineTotalCalories(cart: seq<CartLine>, name: string, calories: string, price: Option<string>)
    ensures TotalCalories(AddLine(cart, name, calories, price))
         == TotalCalories(cart) + LabelValue(AbsorbingLine(cart, name, calories, price).calories)
  {
    match Find(cart, LineName, name)
    case Some(i) =>
      var bumped := cart[i].(quantity := cart[i].quantity + 1);
      MulSucc(cart[i].quantity, LabelValue(cart[i].calories));
      SumOfUpdate(cart, i, bumped, LineCalories);
    case None =>
      var line := CartLine(name, calories, price, 1);
      assert [line][..0] == [];
      SumOfAppend(cart, [line], LineCalories);
  }

  /** Removing a dish takes exactly its lines out of the price total. */
  lemma RemoveLineTotal(cart: seq<CartLine>, name: string)
    ensures TotalPrice(RemoveLine(cart, name)) + TotalPrice(Only(cart, LineName, name)) == TotalPrice(cart)
  {
    SumOfWithout(cart, LineName, name, LinePrice);
  }

  /** Removing a dish takes exactly its lines out of the calorie total. */
  lemma RemoveLineTotalCalories(cart: seq<CartLine>, name: string)
    ensures TotalCalories(RemoveLine(cart, name)) + TotalCalories(Only(cart, LineName, name)) == TotalCalories(cart)
  {
    SumOfWithout(cart, LineName, name, LineCalories);
  }

  /** Two soups at "50 ₽" and one salad at "30 ₽" cost 130. */
  lemma ExampleTotal()
    ensures TotalPrice([CartLine("Суп", "120 ккал", Some("50 ₽"), 2),
                        CartLine("Салат", "80 ккал", Some("30 ₽"), 1)]) == 130
  {
    LabelValueOfDecimal(50, " ₽");
    LabelValueOfDecimal(30, " ₽");
    assert Decimal(50) + " ₽" == "50 ₽";
    assert Decimal(30) + " ₽" == "30 ₽";
    var cart := [CartLine("Суп", "120 ккал", Some("50 ₽"), 2), CartLine("Салат", "80 ккал", Some("30 ₽"), 1)];
    assert LinePrice(cart[0]) == 100;
    assert LinePrice(cart[1]) == 30;
    assert cart[..1][..0] == [];
    assert cart[..1] == [cart[0]];
    assert SumOf(cart[..1], LinePrice) == 100;
    assert cart[..|cart| - 1] == cart[..1];
  }
}
