/**
 * The module-level state of js/app.js behind the cafeteria pages: the cart
 * (`orders`), the favourites and the placed orders, with the operations the
 * pages call. Each list is a field the operations reassign, as the script
 * reassigns its module-level variables. The persisted copies in localStorage
 * are not kept apart: these fields are those blobs.
 */
module AppState {
  import opened Wrappers
  import opened Keyed
  import opened Cart
  import opened Totals

  datatype Status = Pending | Paid

  /** A placed order: a snapshot of the cart with the delivery choices made for it. */
  datatype PlacedOrder = PlacedOrder(id: int, date: string, time: string, delivery: string,
                                     items: seq<CartLine>, timestamp: string, status: Status)

  function OrderId(o: PlacedOrder): int { o.id }

  /** Date, time slot and delivery mode must all be chosen (JavaScript's `!value` on strings). */
  predicate FieldsComplete(date: string, time: string, delivery: string) {
    date != "" && time != "" && delivery != ""
  }

  datatype PlaceOutcome = Placed | PlaceMissingFields

  /** What payOrder reports: its two refusals, or the amount it asked to confirm and the answer. */
  datatype PayOutcome = EmptyCart | PayMissingFields | PaymentDeclined(amount: nat) | PaymentDone(amount: nat)

  class Store {
    var orders: seq<CartLine>
    var favorites: seq<Favorite>
    var placedOrders: seq<PlacedOrder>

    ghost predicate Valid()
      reads this
    {
      ValidCart(orders) && ValidFavorites(favorites)
      && forall k | 0 <= k < |placedOrders| :: ValidCart(placedOrders[k].items)
    }

    /** Start from the saved blobs, which only these operations ever wrote. */
    constructor (savedOrders: seq<CartLine>, savedFavorites: seq<Favorite>, savedPlaced: seq<PlacedOrder>)
      requires ValidCart(savedOrders) && ValidFavorites(savedFavorites)
      requires forall k | 0 <= k < |savedPlaced| :: ValidCart(savedPlaced[k].items)
      ensures Valid()
      ensures orders == savedOrders && favorites == savedFavorites && placedOrders == savedPlaced
    {
      orders := savedOrders;
      favorites := savedFavorites;
      placedOrders := savedPlaced;
    }

    predicate IsInFavorites(dishName: string)
      reads this
      ensures IsInFavorites(dishName) <==> exists i | 0 <= i < |favorites| :: favorites[i].name == dishName
    {
      InFavorites(favorites, dishName)
    }

    predicate IsInOrders(dishName: string)
      reads this
      ensures IsInOrders(dishName) <==> exists i | 0 <= i < |orders| :: orders[i].name == dishName
    {
      InCart(orders, dishName)
    }

    method AddToFavorites(dishName: string, calories: string, price: Option<string>)
      requires Valid()
      modifies this
      ensures Valid()
      ensures favorites == AddFavorite(old(favorites), dishName, calories, price)
      ensures old(IsInFavorites(dishName)) ==> favorites == old(favorites)
      ensures IsInFavorites(dishName)
      ensures orders == old(orders) && placedOrders == old(placedOrders)
    {
      AddFavoriteIdempotent(favorites, dishName, calories, price, calories, price);
      AddFavoriteKeepsValid(favorites, dishName, calories, price);
      if !IsInFavorites(dishName) {
        favorites := favorites + [Favorite(dishName, calories, price)];
      }
    }

    method RemoveFromFavorites(dishName: string)
      requires Valid()
      modifies this
      ensures Valid()
      ensures favorites == RemoveFavorite(old(favorites), dishName)
      ensures !IsInFavorites(dishName)
      ensures old(!IsInFavorites(dishName)) ==> favorites == old(favorites)
      ensures orders == old(orders) && placedOrders == old(placedOrders)
    {
      RemoveFavoriteKeepsValid(favorites, dishName);
      if !IsInFavorites(dishName) {
        WithoutAbsent(favorites, FavoriteName, dishName);
      }
      favorites := RemoveFavorite(favorites, dishName);
    }

    method AddToOrders(dishName: string, calories: string, price: Option<string>)
      requires Valid()
      modifies this
      ensures Valid()
      ensures orders == AddLine(old(orders), dishName, calories, price)
      ensures IsInOrders(dishName)
      ensures QuantityOf(orders, dishName) == old(QuantityOf(orders, dishName)) + 1
      ensures favorites == old(favorites) && placedOrders == old(placedOrders)
    {
      AddLineKeepsValid(orders, dishName, calories, price);
      AddLineMembership(orders, dishName, calories, price, dishName);
      AddLineQuantity(orders, dishName, calories, price, dishName);
      var existing := Find(orders, LineName, dishName);
      match existing
      case Some(i) =>
        orders := orders[i := orders[i].(quantity := orders[i].quantity + 1)];
      case None =>
        orders := orders + [CartLine(dishName, calories, price, 1)];
    }

    method RemoveFromOrders(dishName: string)
      requires Valid()
      modifies this
      ensures Valid()
      ensures orders == RemoveLine(old(orders), dishName)
      ensures !IsInOrders(dishName) && QuantityOf(orders, dishName) == 0
      ensures old(!IsInOrders(dishName)) ==> orders == old(orders)
      ensures favorites == old(favorites) && placedOrders == old(placedOrders)
    {
      RemoveLineKeepsValid(orders, dishName);
      RemoveLineMembership(orders, dishName, dishName);
      RemoveLineQuantity(orders, dishName, dishName);
      if !IsInOrders(dishName) {
        WithoutAbsent(orders, LineName, dishName);
      }
      orders := RemoveLine(orders, dishName);
    }

    /**
     * placeOrder: with all three choices made, the cart becomes a pending
     * placed order and is emptied; otherwise nothing changes. An empty cart
     * is not refused here.
     */
    method PlaceOrder(date: string, time: string, delivery: string, id: int, timestamp: string)
      returns (outcome: PlaceOutcome)
      requires Valid()
      modifies this
      ensures Valid()
      ensures outcome == if FieldsComplete(date, time, delivery) then Placed else PlaceMissingFields
      ensures outcome == Placed ==>
        placedOrders == old(placedOrders) + [PlacedOrder(id, date, time, delivery, old(orders), timestamp, Pending)]
        && orders == []
      ensures outcome == PlaceMissingFields ==> orders == old(orders) && placedOrders == old(placedOrders)
      ensures favorites == old(favorites)
    {
      if !FieldsComplete(date, time, delivery) {
        return PlaceMissingFields;
      }
      placedOrders := placedOrders + [PlacedOrder(id, date, time, delivery, orders, timestamp, Pending)];
      orders := [];
      outcome := Placed;
    }

    /**
     * payOrder: refuses an empty cart, then missing choices; otherwise asks
     * to confirm the cart's total price. On confirmation the cart becomes a
     * paid placed order and is emptied; on decline nothing changes.
     */
    method PayOrder(date: string, time: string, delivery: string, confirmed: bool, id: int, timestamp: string)
      returns (outcome: PayOutcome)
      requires Valid()
      modifies this
      ensures Valid()
      ensures outcome ==
        if old(orders) == [] then EmptyCart
        else if !FieldsComplete(date, time, delivery) then PayMissingFields
        else if confirmed then PaymentDone(TotalPrice(old(orders)))
        else PaymentDeclined(TotalPrice(old(orders)))
      ensures outcome.PaymentDone? ==>
        placedOrders == old(placedOrders) + [PlacedOrder(id, date, time, delivery, old(orders), timestamp, Paid)]
        && orders == []
      ensures !outcome.PaymentDone? ==> orders == old(orders) && placedOrders == old(placedOrders)
      ensures favorites == old(favorites)
    {
      if |orders| == 0 {
        return EmptyCart;
      }
      if !FieldsComplete(date, time, delivery) {
        return PayMissingFields;
      }
      var totalPrice := PaymentTotal(orders);
      if !confirmed {
        return PaymentDeclined(totalPrice);
      }
      placedOrders := placedOrders + [PlacedOrder(id, date, time, delivery, orders, timestamp, Paid)];
      orders := [];
      outcome := PaymentDone(totalPrice);
    }

    /** cancelOrder: the cart becomes empty; placed orders and favourites stay. */
    method CancelOrder()
      requires Valid()
      modifies this
      ensures Valid()
      ensures orders == []
      ensures favorites == old(favorites) && placedOrders == old(placedOrders)
    {
      orders := [];
    }

    /**
     * cancelPlacedOrder: on confirmation, drop every placed order with this
     * id, whatever its status; an unknown id or a decline changes nothing.
     */
    method CancelPlacedOrder(orderId: int, confirmed: bool)
      requires Valid()
      modifies this
      ensures Valid()
      ensures placedOrders == if confirmed then Without(old(placedOrders), OrderId, orderId) else old(placedOrders)
      ensures forall k | 0 <= k < |placedOrders| :: placedOrders[k].id != orderId || !confirmed
      ensures (forall k | 0 <= k < |old(placedOrders)| :: old(placedOrders)[k].id != orderId) ==>
        placedOrders == old(placedOrders)
      ensures orders == old(orders) && favorites == old(favorites)
    {
      if confirmed {
        if forall k | 0 <= k < |placedOrders| :: placedOrders[k].id != orderId {
          WithoutAbsent(placedOrders, OrderId, orderId);
        }
        var kept := Without(placedOrders, OrderId, orderId);
        forall k | 0 <= k < |kept| ensures ValidCart(kept[k].items) {
          var j :| 0 <= j < |placedOrders| && placedOrders[j] == kept[k];
        }
        placedOrders := kept;
      }
    }
  }
}
