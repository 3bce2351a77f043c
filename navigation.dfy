/**
 * Page switching in js/app.js (switchPage): at most one animated
 * transition is in flight; a request that arrives meanwhile only overwrites
 * the single queued slot (the last request wins); when the transition's
 * timer fires the target page is committed, its initializer runs, and the
 * queued page, if any and different, is switched to next.
 */
module Navigation {
  import opened Wrappers

  /** The fixed page order that decides the slide direction. */
  const PageOrder: seq<string> := ["home", "today", "orders", "my-orders", "favorites", "profile", "settings"]

  /** pageOrder.indexOf: the page's position, or -1 when it is not in the order. */
  function PageIndex(page: string): (i: int)
    ensures -1 <= i < |PageOrder|
    ensures i >= 0 ==> PageOrder[i] == page
    ensures i == -1 <==> page !in PageOrder
  {
    if page == "home" then 0
    else if page == "today" then 1
    else if page == "orders" then 2
    else if page == "my-orders" then 3
    else if page == "favorites" then 4
    else if page == "profile" then 5
    else if page == "settings" then 6
    else -1
  }

  /** The seven page names are distinct, so each one's index is its position. */
  lemma PageIndexOfPosition(i: nat)
    requires i < |PageOrder|
    ensures PageIndex(PageOrder[i]) == i
  {
  }

  /** Which view refresh runPageInitializers performs once a page is reached. */
  datatype Initializer = NoInitializer | FavoritesPage | FavoriteButtons | OrdersDisplay | MyOrdersDisplay | ProfilePage

  function InitializerOf(page: string): (init: Initializer)
    ensures init == NoInitializer <==> page !in {"favorites", "today", "orders", "my-orders", "profile"}
  {
    if page == "favorites" then FavoritesPage
    else if page == "today" then FavoriteButtons
    else if page == "orders" then OrdersDisplay
    else if page == "my-orders" then MyOrdersDisplay
    else if page == "profile" then ProfilePage
    else NoInitializer
  }

  /**
   * The navigation state: the page shown, whether a transition is in flight,
   * the queued request, and the target and direction of the transition in
   * flight (kept from the last transition while idle).
   */
  datatype NavState = NavState(current: string, switching: bool, queued: Option<string>, target: string, forward: bool)

  /** JavaScript truthiness of the queued slot: neither null nor the empty string. */
  predicate Truthy(queued: Option<string>) {
    queued.Some? && queued.value != ""
  }

  /**
   * switchPage(page). `rendered` is the set of pages that have an element in
   * the document; a request involving any other page is dropped.
   */
  function Request(s: NavState, page: string, rendered: set<string>): (r: NavState)
    ensures Inv(s, rendered) ==> Inv(r, rendered)
    ensures s.switching ==> r.current == s.current && r.target == s.target && r.queued == Some(page)
  {
    if s.current == page && !s.switching then s
    else if s.switching then s.(queued := Some(page))
    else if s.current !in rendered || page !in rendered then s
    else NavState(s.current, true, None, page, PageIndex(page) >= PageIndex(s.current))
  }

  /** The transition timer fires: commit the target, then follow a pending queued request. */
  function Settle(s: NavState, rendered: set<string>): (r: NavState)
    requires s.switching
    ensures Inv(s, rendered) ==> Inv(r, rendered)
    ensures r.current == s.target
  {
    var landed := s.(current := s.target, switching := false);
    if Truthy(landed.queued) && landed.queued.value != landed.current
    then Request(landed.(queued := None), landed.queued.value, rendered)
    else landed
  }

  /** Requests issued one after the other, with no timer firing in between. */
  function RequestAll(s: NavState, pages: seq<string>, rendered: set<string>): NavState
    decreases |pages|
  {
    if pages == [] then s else RequestAll(Request(s, pages[0], rendered), pages[1..], rendered)
  }

  /**
   * While a transition is in flight it goes somewhere else, between two
   * rendered pages, in the direction their order gives.
   */
  predicate Inv(s: NavState, rendered: set<string>) {
    s.switching ==>
      s.target != s.current && s.current in rendered && s.target in rendered
      && s.forward == (PageIndex(s.target) >= PageIndex(s.current))
  }

  /** The three cases of a request. */
  lemma RequestCases(s: NavState, page: string, rendered: set<string>)
    requires Inv(s, rendered)
    ensures var r := Request(s, page, rendered);
      Inv(r, rendered)
      && (!s.switching && page == s.current ==> r == s)
      && (s.switching ==> r == s.(queued := Some(page)))
      && (!s.switching && page != s.current && page in rendered && s.current in rendered ==>
            r.switching && r.current == s.current && r.target == page && r.queued == None)
      && (!s.switching && page != s.current && !(page in rendered && s.current in rendered) ==> r == s)
  {
  }

  /**
   * Completion: the target becomes the current page, and a new transition
   * starts exactly when the queued page is set, differs from the page just
   * reached and is rendered; it then heads for the queued page.
   */
  lemma SettleCases(s: NavState, rendered: set<string>)
    requires s.switching && Inv(s, rendered)
    ensures var r := Settle(s, rendered);
      Inv(r, rendered)
      && r.current == s.target
      && (r.switching <==> Truthy(s.queued) && s.queued.value != s.target && s.queued.value in rendered)
      && (r.switching ==> r.target == s.queued.value && r.queued == None)
      && (!r.switching ==>
            r.queued == if Truthy(s.queued) && s.queued.value != s.target then None else s.queued)
  {
  }

  /** Any burst of requests during a transition only leaves the last one queued. */
  lemma {:induction false} RequestsWhileSwitching(s: NavState, pages: seq<string>, rendered: set<string>)
    requires s.switching
    decreases |pages|
    ensures RequestAll(s, pages, rendered) == if pages == [] then s else s.(queued := Some(pages[|pages| - 1]))
  {
    if pages != [] {
      var s1 := Request(s, pages[0], rendered);
      RequestsWhileSwitching(s1, pages[1..], rendered);
      if |pages| > 1 {
        assert pages[1..][|pages[1..]| - 1] == pages[|pages| - 1];
      }
    }
  }

  /**
   * The user always ends up on the last page asked for: after a burst of
   * requests during a transition, one completion reaches the transition's
   * target and, unless that already is the last page asked for, heads for
   * it; the next completion reaches it and stops.
   */
  lemma ConvergesToLastRequest(s: NavState, pages: seq<string>, rendered: set<string>)
    requires s.switching && Inv(s, rendered)
    requires pages != [] && pages[|pages| - 1] in rendered && pages[|pages| - 1] != ""
    ensures RequestAll(s, pages, rendered).switching
    ensures var last := pages[|pages| - 1];
      var first := Settle(RequestAll(s, pages, rendered), rendered);
      first.current == s.target
      && (last == s.target ==> !first.switching)
      && (last != s.target ==>
            first.switching && first.target == last
            && Settle(first, rendered).current == last && !Settle(first, rendered).switching)
  {
    RequestsWhileSwitching(s, pages, rendered);
    SettleCases(RequestAll(s, pages, rendered), rendered);
  }

  /** The slide goes forward exactly when the target does not come before the current page. */
  lemma DirectionFollowsPageOrder(s: NavState, i: nat, j: nat, rendered: set<string>)
    requires i < |PageOrder| && j < |PageOrder| && i != j
    requires !s.switching && s.current == PageOrder[j]
    requires PageOrder[i] in rendered && PageOrder[j] in rendered
    ensures Request(s, PageOrder[i], rendered).switching
    ensures Request(s, PageOrder[i], rendered).forward <==> i >= j
  {
  }

  function AllPages(): set<string> {
    set p | p in PageOrder
  }

  /**
   * From home, 'today' and then 'orders' before the first transition ends:
   * the first completion commits 'today' (running its initializer) and
   * starts 'today' to 'orders'; the second settles on 'orders'.
   */
  lemma TodayThenOrders()
    ensures var s0 := NavState("home", false, None, "home", true);
      var s1 := Request(Request(s0, "today", AllPages()), "orders", AllPages());
      s1.switching && s1.current == "home" && s1.target == "today"
      && Settle(s1, AllPages()).current == "today"
      && Settle(s1, AllPages()).switching && Settle(s1, AllPages()).target == "orders"
      && Settle(Settle(s1, AllPages()), AllPages()).current == "orders"
      && !Settle(Settle(s1, AllPages()), AllPages()).switching
  {
  }

  class Navigator {
    const rendered: set<string>
    var currentPage: string
    var isPageSwitching: bool
    var queuedPageId: Option<string>
    var target: string
    var forward: bool

    function State(): NavState
      reads this
    {
      NavState(currentPage, isPageSwitching, queuedPageId, target, forward)
    }

    ghost predicate Valid()
      reads this
    {
      Inv(State(), rendered)
    }

    /** The script starts on 'home' with nothing in flight. */
    constructor (renderedPages: set<string>)
      ensures Valid() && rendered == renderedPages
      ensures currentPage == "home" && !isPageSwitching && queuedPageId == None
    {
      rendered := renderedPages;
      currentPage := "home";
      isPageSwitching := false;
      queuedPageId := None;
      target := "home";
      forward := true;
    }

    method SwitchPage(page: string)
      requires Valid()
      modifies this
      ensures Valid()
      ensures State() == Request(old(State()), page, rendered)
      ensures old(isPageSwitching) ==> currentPage == old(currentPage) && target == old(target)
    {
      RequestCases(State(), page, rendered);
      if currentPage == page && !isPageSwitching {
        return;
      }
      if isPageSwitching {
        queuedPageId := Some(page);
        return;
      }
      if currentPage !in rendered || page !in rendered {
        return;
      }
      var isForward := PageIndex(page) >= PageIndex(currentPage);
      isPageSwitching := true;
      queuedPageId := None;
      target := page;
      forward := isForward;
    }

    /** The transition timer fires; returns the initializer run for the page reached. */
    method Complete() returns (init: Initializer)
      requires Valid() && isPageSwitching
      modifies this
      ensures Valid()
      ensures State() == Settle(old(State()), rendered)
      ensures currentPage == old(target)
      ensures init == InitializerOf(old(target))
    {
      SettleCases(State(), rendered);
      var page := target;
      currentPage := page;
      isPageSwitching := false;
      init := InitializerOf(page);
      if queuedPageId.Some? && queuedPageId.value != "" && queuedPageId.value != currentPage {
        var nextQueued := queuedPageId.value;
        queuedPageId := None;
        SwitchPage(nextQueued);
      }
    }
  }
}
