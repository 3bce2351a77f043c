# TvoiObed cafeteria app: verified model of the cart store and page navigation

TvoiObed is a single-page school-cafeteria web app (js/app.js). The only
logic in it that is not DOM templating is the in-memory state behind the
pages:

* the **store**: the cart (`orders`, one line per dish with a quantity), the
  favourites list and the list of placed orders, with the operations the
  pages call (add/remove a dish, toggle a favourite, place or pay an order,
  clear the cart, cancel a placed order), and the numbers derived from
  display labels ("100 ₽", "150 ккал") for the order summary and the
  payment prompt;
* the **page switcher** (`switchPage`): a small state machine that runs at
  most one animated transition at a time, keeps only the last request made
  during a transition, and follows it once the transition's timer fires.

Modules:

| file | module | what it holds |
|---|---|---|
| wrappers.dfy | `Wrappers` | `Option` (missing price label, failed lookup, empty queue slot) |
| labels.dfy | `Labels` | the `/(\d+)/` + `parseInt` label value, decimal rendering, round trip |
| keyed.dfy | `Keyed` | `find`/`some` and `filter` by key on lists of records |
| sums.dfy | `Sums` | sums accumulated over a list |
| cart.dfy | `Cart` | cart lines and favourites as values; add/remove functions and their laws |
| totals.dfy | `Totals` | per-line and total calories/price; the two accumulator loops |
| app_state.dfy | `AppState` | class `Store` with the three lists as fields and the page operations |
| navigation.dfy | `Navigation` | `Request`/`Settle` on navigation states, their laws, class `Navigator` |

The store and the navigator are classes whose methods reassign their fields,
as the script reassigns its module-level variables; each method's contract
ties the new state to a function of the old one (`AddLine`, `RemoveLine`,
`Request`, `Settle`, ...), and the lemmas beside those functions carry what
the source promises: unique dish names and quantities of at least 1, exactly
one more portion per add, removal by key that keeps the order of the rest,
idempotent favourites, totals that are sums of quantity × label value, and
navigation that ends on the last rendered page requested during a transition.

Environment values become parameters: the confirmation modal is the
`confirmed` argument of `PayOrder` and `CancelPlacedOrder`; `Date.now()` ids
and ISO timestamps are the `id` and `timestamp` arguments; the transition
timer is the `Navigator.Complete` method; the set of pages that have an
element in the document is the navigator's `rendered` set.

A request for 'today' followed by 'orders' before the first transition ends
commits 'today' and runs its initializer, then moves on to 'orders'
(js/app.js:916-927; `Navigation.TodayThenOrders`).

## Model

| member | source | states |
|---|---|---|
| Labels.LabelValue | js/app.js:165-166 | the value of a label, the first maximal digit run or 0; pinned down completely by LabelValueOfSplit and LabelValueNoDigits |
| Labels.LeadingDigits | js/app.js:165 | the digit run the regular expression captures is the longest all-digit prefix: a prefix, all digits, not followed by a digit |
| Labels.LabelValueOfSplit | js/app.js:165-166 | for any label made of a digit-free prefix, a non-empty digit run and a rest not starting with a digit, the label's value is the value of that run |
| Labels.LabelValueNoDigits | js/app.js:97-98 | a label with no digit (including the empty label) is worth 0 |
| Labels.LabelValueOfDecimal | js/app.js:97-98 | the parser's partner for labels written as a decimal number and a unit ("50 ₽", the "0 ₽" default of js/app.js:969): such a label reads back as that number; ExampleTotal uses it |
| Labels.DecimalValue | js/app.js:97-98 | the decimal rendering of n denotes n |
| Keyed.Find | js/app.js:54 | `find`: the index of the first element with the key, or None exactly when no element has it |
| Keyed.Without | js/app.js:66 | `filter` by key: every survivor was in the input with another key, and every input element with another key survives |
| Keyed.WithoutAppend | js/app.js:45 | filtering distributes over concatenation, so survivors keep their relative order |
| Keyed.WithoutAbsent | js/app.js:671 | filtering out a key no element has leaves the list unchanged |
| Keyed.WithoutUnique | js/app.js:45 | filtering keeps keys unique |
| Cart.InCart | js/app.js:29-31 | isInOrders: some line of the cart carries the name |
| Cart.InFavorites | js/app.js:24-26 | isInFavorites: some favourite carries the name |
| Cart.AddLine | js/app.js:52-62 | addToOrders on the cart value: the name is in the result, the length grows by one exactly when the name was absent; AddLineShape, AddLineQuantity, AddLineMembership and AddLineKeepsValid carry the rest |
| Cart.RemoveLine | js/app.js:65-69 | removeFromOrders on the cart value: the name is gone and nothing is added; RemoveLineQuantity, RemoveLineMembership and RemoveLineKeepsValid carry the rest |
| Cart.AddFavorite | js/app.js:34-41 | addToFavorites on the list value: the name is a favourite afterwards, an existing favourite leaves the list unchanged, otherwise `Favorite(name, calories, price)` is appended at the end |
| Cart.RemoveFavorite | js/app.js:44-49 | removeFromFavorites on the list value: the name is no longer a favourite and nothing is added; RemoveAfterAddFavorite and RemoveFavoriteKeepsValid carry the rest |
| Cart.AddLineShape | js/app.js:52-62 | addToOrders either bumps exactly the first line of that name by one and leaves every other line alone, or appends one line of quantity 1 |
| Cart.AddLineKeepsValid | js/app.js:52-62 | addToOrders keeps dish names unique and every quantity at least 1 |
| Cart.AddLineMembership | js/app.js:29-31 | after addToOrders, isInOrders holds for the added name and is unchanged for every other name |
| Cart.AddLineQuantity | js/app.js:52-62 | addToOrders adds exactly one portion of the named dish and none of any other |
| Cart.RemoveLineQuantity | js/app.js:65-69 | removeFromOrders leaves no portion of the named dish and every other dish's quantity as it was |
| Cart.RemoveLineKeepsValid | js/app.js:65-69 | removeFromOrders keeps names unique and quantities at least 1 |
| Cart.RemoveLineMembership | js/app.js:65-69 | after removeFromOrders, isInOrders is false for the name and unchanged for every other name |
| Cart.RemoveAfterAddLine | js/app.js:52-69 | removing a dish that was just added as a new line restores the cart |
| Cart.AddFavoriteIdempotent | js/app.js:34-41 | addToFavorites makes the name a favourite, and adding it again changes nothing |
| Cart.AddFavoriteKeepsValid | js/app.js:34-41 | addToFavorites keeps favourite names unique |
| Cart.RemoveFavoriteKeepsValid | js/app.js:44-49 | removeFromFavorites keeps names unique and leaves the name not a favourite |
| Cart.RemoveAfterAddFavorite | js/app.js:34-49 | adding a new favourite and removing it again restores the list |
| Totals.PriceValue | js/app.js:171-172 | a missing or empty price label is worth 0; otherwise the label's value |
| Totals.TotalPrice | js/app.js:168-174 | sum over the cart of quantity × price value; Summarize and PaymentTotal compute it, AddLineTotalPrice and RemoveLineTotal relate it to the cart operations |
| Totals.TotalCalories | js/app.js:163-167 | sum over the cart of quantity × calorie value; Summarize computes it, AddLineTotalCalories and RemoveLineTotalCalories relate it to the cart operations |
| Totals.Summarize | js/app.js:159-174 | the summary loop yields one row per line in cart order showing name, quantity, quantity × calorie value and quantity × price value, and totals equal to the sums over the cart |
| Totals.PaymentTotal | js/app.js:468-473 | the amount payOrder asks to confirm is the sum over the cart of quantity × price value |
| Totals.AddLineTotalPrice | js/app.js:52-62 | adding a dish raises the price total by one portion at the absorbing line's price (an existing line keeps its own label) |
| Totals.AddLineTotalCalories | js/app.js:52-62 | adding a dish raises the calorie total by one portion at the absorbing line's calories |
| Totals.RemoveLineTotal | js/app.js:65-69 | removing a dish lowers the price total by exactly the price total of the lines carrying its name |
| Totals.RemoveLineTotalCalories | js/app.js:65-69 | removing a dish lowers the calorie total by exactly the calorie total of the lines carrying its name |
| Keyed.SumOfWithout | js/app.js:66 | the filter splits any per-line sum into what it keeps plus what it drops |
| Totals.ExampleTotal | js/app.js:168-174 | two portions at "50 ₽" and one at "30 ₽" total 130 |
| AppState.Store.constructor | js/app.js:10-11 | the store starts from the saved cart and favourites |
| AppState.Store.IsInFavorites | js/app.js:24-26 | isInFavorites over the store's favourites: some entry carries the name |
| AppState.Store.IsInOrders | js/app.js:29-31 | isInOrders over the store's cart: some line carries the name |
| AppState.Store.AddToFavorites | js/app.js:34-41 | favourites become AddFavorite of the old ones; unchanged if already present; the name is a favourite afterwards; nothing else changes |
| AppState.Store.RemoveFromFavorites | js/app.js:44-49 | favourites lose exactly that name; unchanged if absent; nothing else changes |
| AppState.Store.AddToOrders | js/app.js:52-62 | the cart becomes AddLine of the old cart, holds the dish, with one more portion of it; invariant kept; nothing else changes |
| AppState.Store.RemoveFromOrders | js/app.js:65-69 | the cart loses exactly the lines of that name; unchanged if absent; nothing else changes |
| AppState.Store.PlaceOrder | js/app.js:321-357 | with a missing date, time or delivery nothing changes; otherwise one pending record carrying the old cart is appended, earlier records stay, and the cart is emptied; an empty cart is not refused |
| AppState.Store.PayOrder | js/app.js:448-520 | an empty cart, then missing fields, are refused without change; otherwise the confirmation amount is the cart's total price; on confirm one paid record with the old cart is appended and the cart emptied; on decline nothing changes |
| AppState.Store.CancelOrder | js/app.js:418-423 | the cart becomes empty; favourites and placed orders stay |
| AppState.Store.CancelPlacedOrder | js/app.js:662-685 | on confirm, exactly the records with that id are dropped (others keep their order); an unknown id or a decline changes nothing |
| Navigation.PageIndex | js/app.js:858-859 | `pageOrder.indexOf`: the position of the page in the fixed order, or -1 exactly when it is not there |
| Navigation.PageIndexOfPosition | js/app.js:815 | each of the seven pages' index is its position in the order |
| Navigation.InitializerOf | js/app.js:820-840 | a page has a view refresh exactly when it is favorites, today, orders, my-orders or profile |
| Navigation.Request | js/app.js:842-867 | switchPage on a state: keeps the invariant; while switching it changes only the queued slot, to the request; RequestCases gives all four paths |
| Navigation.Settle | js/app.js:913-929 | the timer firing: keeps the invariant and makes the old target the current page; SettleCases says when a follow-up starts |
| Navigation.RequestCases | js/app.js:842-867 | idle and same page: no-op; while switching: only the queued slot changes, to the new request; idle, another page, both rendered: a transition from the current page to it starts with an empty queue; otherwise no-op; the invariant is kept |
| Navigation.SettleCases | js/app.js:913-929 | the target becomes the current page; a new transition starts iff the queued page is set, non-empty, different from the page reached and rendered, and then heads for it with an empty queue |
| Navigation.RequestsWhileSwitching | js/app.js:846-850 | any burst of requests during a transition leaves only the last one queued and changes nothing else |
| Navigation.ConvergesToLastRequest | js/app.js:842-929 | after a burst of requests during a transition, the first completion reaches the old target and, unless that is the last page requested, heads for it; the next completion settles on it |
| Navigation.DirectionFollowsPageOrder | js/app.js:858-860 | a transition between two pages of the order is forward iff the target's index is at least the current page's |
| Navigation.TodayThenOrders | js/app.js:842-929 | from home, 'today' then 'orders' before the first completion: the first completion lands on 'today' and starts 'today' to 'orders'; the second lands on 'orders' and is idle |
| Navigation.Navigator.constructor | js/app.js:814-817 | the switcher starts on 'home', idle, with nothing queued |
| Navigation.Navigator.SwitchPage | js/app.js:842-867 | the new state is Request of the old one; while switching neither the current page nor the target changes |
| Navigation.Navigator.Complete | js/app.js:913-929 | the new state is Settle of the old one; the current page is the old target; the initializer run is that page's |

## Left out

- DOM rendering (updateOrdersDisplay, updateFavoritesDisplay, updateMyOrdersDisplay, initFavoriteButtons, the CSS classes of switchPage): rendering only; `InitializerOf` names which refresh runs.
- localStorage persistence and JSON (de)serialisation: the stored blobs are the Store's fields; `placeOrder`, `payOrder` and `cancelPlacedOrder` re-read `placedOrders` from storage, which equals the field here.
- Timers and animations (the 420 ms transition, staggered fades in cancelOrder, the 10 ms re-initialisation): only the state reached when a timer fires is modelled; cancelOrder is the cart becoming empty.
- Clock values: `Date.now()` ids and ISO timestamps are parameters; the newest-first sort of the my-orders page (js/app.js:600) is display order only.
- The confirmation modal, notifications, theme toggle, mobile menu, custom dropdowns and profile form: event wiring; the modal's answer is the `confirmed` argument.
- Reading the date, time and delivery controls (`data-value || value`): the model takes the resolved strings.
- The calendar widget (js/app.js:1102-1340): JavaScript `Date` local-time arithmetic.
- The per-order total on the my-orders page (js/app.js:633-637) is `TotalPrice` of the record's items; it has no separate member.
- Labels.LabelValueOfSplit: numbers are unbounded, so `parseInt`'s precision loss on digit runs longer than about 15 digits is not modelled.
- A calories label that is missing (which makes `order.calories.match` throw) cannot occur: calories is always a string here. Only ASCII 0-9 count as digits, as JavaScript's `\d` does.
- AppState.Store.CancelPlacedOrder: ids are integers compared exactly; the loose `!=` between the button's string attribute and the numeric id is not modelled.
- Navigation.Navigator.SwitchPage: `switchPage(undefined)` (a nav item without `data-page`) is not modelled; page ids are strings, and the empty string stands for a falsy queued value.
