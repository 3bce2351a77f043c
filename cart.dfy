/**
 * The cart ("orders") and the favourites list as values: lines keyed by dish
 * name, the add and remove operations of js/app.js on them, and what those
 * operations preserve.
 */
module Cart {
  import opened Wrappers
  import opened Keyed
  import opened Sums

  /** One dish in the cart; `price` is None when the record carries no price label. */
  datatype CartLine = CartLine(name: string, calories: string, price: Option<string>, quantity: nat)

  datatype Favorite = Favorite(name: string, calories: string, price: Option<string>)

  function LineName(l: CartLine): string { l.name }

  function FavoriteName(f: Favorite): string { f.name }

  /** isInOrders: some line of the cart has this dish name. */
  predicate InCart(cart: seq<CartLine>, name: string)
    ensures InCart(cart, name) <==> exists i | 0 <= i < |cart| :: cart[i].name == name
  {
    HasKey(cart, LineName, name)
  }

  /** isInFavorites: some favourite has this dish name. */
  predicate InFavorites(favs: seq<Favorite>, name: string)
    ensures InFavorites(favs, name) <==> exists i | 0 <= i < |favs| :: favs[i].name == name
  {
    HasKey(favs, FavoriteName, name)
  }

  /** Dish names are unique in the cart and no line has quantity 0. */
  predicate ValidCart(cart: seq<CartLine>) {
    UniqueKeys(cart, LineName) && forall i | 0 <= i < |cart| :: cart[i].quantity >= 1
  }

  predicate ValidFavorites(favs: seq<Favorite>) {
    UniqueKeys(favs, FavoriteName)
  }

  /** How many portions of `name` the cart holds, over all its lines. */
  function QuantityOf(cart: seq<CartLine>, name: string): nat {
    SumOf(cart, (l: CartLine) => if l.name == name then l.quantity else 0)
  }

  /** addToOrders: bump the first line with this name, or append a line of quantity 1. */
  function AddLine(cart: seq<CartLine>, name: string, calories: string, price: Option<string>): (r: seq<CartLine>)
    ensures InCart(r, name)
    ensures |r| == if InCart(cart, name) then |cart| else |cart| + 1
  {
    match Find(cart, LineName, name)
    case Some(i) =>
      var r := cart[i := cart[i].(quantity := cart[i].quantity + 1)];
      assert LineName(r[i]) == name;
      r
    case None =>
      var r := cart + [CartLine(name, calories, price, 1)];
      assert LineName(r[|cart|]) == name;
      r
  }

  /** removeFromOrders: keep the lines whose name differs. */
  function RemoveLine(cart: seq<CartLine>, name: string): (r: seq<CartLine>)
    ensures !InCart(r, name)
    ensures |r| <= |cart|
  {
    Without(cart, LineName, name)
  }

  /** addToFavorites: append only when the name is not yet a favourite. */
  function AddFavorite(favs: seq<Favorite>, name: string, calories: string, price: Option<string>): (r: seq<Favorite>)
    ensures InFavorites(r, name)
    ensures InFavorites(favs, name) ==> r == favs
    ensures !InFavorites(favs, name) ==> r == favs + [Favorite(name, calories, price)]
    ensures |r| == if InFavorites(favs, name) then |favs| else |favs| + 1
  {
    if InFavorites(favs, name) then favs
    else
      var r := favs + [Favorite(name, calories, price)];
      assert FavoriteName(r[|favs|]) == name;
      r
  }

  /** removeFromFavorites: keep the favourites whose name differs. */
  function RemoveFavorite(favs: seq<Favorite>, name: string): (r: seq<Favorite>)
    ensures !InFavorites(r, name)
    ensures |r| <= |favs|
  {
    Without(favs, FavoriteName, name)
  }

  /** Adding either bumps exactly the first line of that name, or appends one new line. */
  lemma AddLineShape(cart: seq<CartLine>, name: string, calories: string, price: Option<string>)
    ensures var r := AddLine(cart, name, calories, price);
      if InCart(cart, name) then
        exists i | 0 <= i < |cart| && cart[i].name == name ::
          (forall j | 0 <= j < i :: cart[j].name != name)
          && |r| == |cart| && r[i] == cart[i].(quantity := cart[i].quantity + 1)
          && forall j | 0 <= j < |cart| && j != i :: r[j] == cart[j]
      else
        r == cart + [CartLine(name, calories, price, 1)]
  {
  }

  /** addToOrders keeps dish names unique and every quantity at least 1. */
  lemma AddLineKeepsValid(cart: seq<CartLine>, name: string, calories: string, price: Option<string>)
    requires ValidCart(cart)
    ensures ValidCart(AddLine(cart, name, calories, price))
  {
  }

  /** Membership after adding: the added name is in, every other name is as before. */
  lemma AddLineMembership(cart: seq<CartLine>, name: string, calories: string, price: Option<string>, other: string)
    ensures InCart(AddLine(cart, name, calories, price), other) <==> InCart(cart, other) || other == name
  {
    var r := AddLine(cart, name, calories, price);
    if InCart(cart, other) {
      var j := Find(cart, LineName, other).value;
      assert LineName(r[j]) == other;
    }
    if other == name && !InCart(cart, name) {
      assert LineName(r[|cart|]) == name;
    }
    if InCart(r, other) {
      var j := Find(r, LineName, other).value;
      if j < |cart| && cart[j].name == other {
        assert LineName(cart[j]) == other;
      }
    }
  }

  /** addToOrders adds exactly one portion of the named dish and none of any other. */
  lemma AddLineQuantity(cart: seq<CartLine>, name: string, calories: string, price: Option<string>, other: string)
    ensures QuantityOf(AddLine(cart, name, calories, price), other)
         == QuantityOf(cart, other) + (if other == name then 1 else 0)
  {
    var f := (l: CartLine) => if l.name == other then l.quantity else 0;
    match Find(cart, LineName, name)
    case Some(i) =>
      SumOfUpdate(cart, i, cart[i].(quantity := cart[i].quantity + 1), f);
    case None =>
      SumOfAppend(cart, [CartLine(name, calories, price, 1)], f);
      assert SumOf([CartLine(name, calories, price, 1)], f) == f(CartLine(name, calories, price, 1)) by {
        assert [CartLine(name, calories, price, 1)][..0] == [];
      }
  }

  /** removeFromOrders leaves no portion of the named dish and every other dish as it was. */
  lemma {:induction false} RemoveLineQuantity(cart: seq<CartLine>, name: string, other: string)
    ensures QuantityOf(RemoveLine(cart, name), other) == if other == name then 0 else QuantityOf(cart, other)
  {
    var f := (l: CartLine) => if l.name == other then l.quantity else 0;
    if cart != [] {
      var head := if cart[0].name == name then [] else [cart[0]];
      assert RemoveLine(cart, name) == head + RemoveLine(cart[1..], name);
      SumOfAppend(head, RemoveLine(cart[1..], name), f);
      assert cart == [cart[0]] + cart[1..];
      SumOfAppend([cart[0]], cart[1..], f);
      assert [cart[0]][..0] == [];
      if head != [] {
        assert head[..0] == [];
      }
      RemoveLineQuantity(cart[1..], name, other);
    }
  }

  /** removeFromOrders keeps the cart invariant. */
  lemma RemoveLineKeepsValid(cart: seq<CartLine>, name: string)
    requires ValidCart(cart)
    ensures ValidCart(RemoveLine(cart, name))
  {
    WithoutUnique(cart, LineName, name);
  }

  /** Membership after removing: the removed name is out, every other name is as before. */
  lemma RemoveLineMembership(cart: seq<CartLine>, name: string, other: string)
    ensures InCart(RemoveLine(cart, name), other) <==> InCart(cart, other) && other != name
  {
  }

  /** Removing a dish that was just added as a new line gives back the cart before the add. */
  lemma RemoveAfterAddLine(cart: seq<CartLine>, name: string, calories: string, price: Option<string>)
    requires !InCart(cart, name)
    ensures RemoveLine(AddLine(cart, name, calories, price), name) == cart
  {
    var line := CartLine(name, calories, price, 1);
    WithoutAppend(cart, [line], LineName, name);
    WithoutAbsent(cart, LineName, name);
    assert [line][1..] == [];
  }

  /** addToFavorites is idempotent, and the name is a favourite afterwards. */
  lemma AddFavoriteIdempotent(favs: seq<Favorite>, name: string, calories: string, price: Option<string>,
                              calories2: string, price2: Option<string>)
    ensures InFavorites(AddFavorite(favs, name, calories, price), name)
    ensures AddFavorite(AddFavorite(favs, name, calories, price), name, calories2, price2)
         == AddFavorite(favs, name, calories, price)
  {
  }

  /** addToFavorites keeps favourite names unique. */
  lemma AddFavoriteKeepsValid(favs: seq<Favorite>, name: string, calories: string, price: Option<string>)
    requires ValidFavorites(favs)
    ensures ValidFavorites(AddFavorite(favs, name, calories, price))
  {
  }

  /** removeFromFavorites keeps names unique and takes the name out. */
  lemma RemoveFavoriteKeepsValid(favs: seq<Favorite>, name: string)
    requires ValidFavorites(favs)
    ensures ValidFavorites(RemoveFavorite(favs, name))
    ensures !InFavorites(RemoveFavorite(favs, name), name)
  {
    WithoutUnique(favs, FavoriteName, name);
  }

  /** Toggling a favourite on and then off again restores the list. */
  lemma RemoveAfterAddFavorite(favs: seq<Favorite>, name: string, calories: string, price: Option<string>)
    requires !InFavorites(favs, name)
    ensures RemoveFavorite(AddFavorite(favs, name, calories, price), name) == favs
  {
    var fav := Favorite(name, calories, price);
    WithoutAppend(favs, [fav], FavoriteName, name);
    WithoutAbsent(favs, FavoriteName, name);
    assert [fav][1..] == [];
  }
}
