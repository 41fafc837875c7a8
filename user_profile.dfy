/**
 * The profile page (src/pages/UserProfile.tsx): the order list's search and
 * status filter, the status label and colour tables, and the three loads (the
 * user always, the orders only on the orders tab, the addresses only on the
 * addresses tab), with a 401 on the user load dropping the token.
 */
module UserProfile {
  import opened Outcomes
  import opened Seqs
  import opened Text

  datatype OrderLine = OrderLine(name: string)
  datatype Order = Order(id: string, status: string, items: Option<seq<OrderLine>>, total: real)
  datatype User = User(id: string, discordUsername: string)

  // ---------------------------------------------------------------------------
  // Status tables

  const Statuses: seq<string> := ["PROCESSING", "WAITING_FOR_PAYMENT", "PAID", "SHIPPED", "DELIVERED", "CANCELED"]

  /** `statusMap[status]`: the label of a known status. */
  function StatusMapLookup(status: string): Option<string> {
    if status == "PROCESSING" then Some("Processing")
    else if status == "WAITING_FOR_PAYMENT" then Some("Waiting for Payment")
    else if status == "PAID" then Some("Paid")
    else if status == "SHIPPED" then Some("Shipped")
    else if status == "DELIVERED" then Some("Delivered")
    else if status == "CANCELED" then Some("Canceled")
    else None
  }

  /** The badge text: `statusMap[status] || status`. */
  function StatusLabel(status: string): string {
    StatusMapLookup(status).GetOr(status)
  }

  function StatusColor(status: string): string {
    if status == "DELIVERED" then "bg-green-500"
    else if status == "SHIPPED" then "bg-blue-500"
    else if status == "PAID" then "bg-purple-500"
    else if status == "PROCESSING" then "bg-yellow-500"
    else if status == "WAITING_FOR_PAYMENT" then "bg-orange-500"
    else if status == "CANCELED" then "bg-red-500"
    else "bg-gray-500"
  }

  /** Each of the six statuses has its fixed label; any other status is shown as it is. */
  lemma StatusLabels(status: string)
    ensures StatusLabel("PROCESSING") == "Processing"
    ensures StatusLabel("WAITING_FOR_PAYMENT") == "Waiting for Payment"
    ensures StatusLabel("PAID") == "Paid"
    ensures StatusLabel("SHIPPED") == "Shipped"
    ensures StatusLabel("DELIVERED") == "Delivered"
    ensures StatusLabel("CANCELED") == "Canceled"
    ensures status !in Statuses ==> StatusLabel(status) == status
    ensures status in Statuses <==> StatusMapLookup(status).Some?
  {
  }

  /** The six statuses get six different colours, none of them gray; anything else is gray. */
  lemma StatusColorsDistinct(status: string)
    ensures forall i, j :: 0 <= i < j < |Statuses| ==> StatusColor(Statuses[i]) != StatusColor(Statuses[j])
    ensures status in Statuses <==> StatusColor(status) != "bg-gray-500"
  {
  }

  // ---------------------------------------------------------------------------
  // Search and filter

  predicate SomeItemMatches(items: seq<OrderLine>, search: string) {
    exists i :: 0 <= i < |items| && MatchesIgnoringCase(items[i].name, search)
  }

  /** The search text is found in the id or, when the order has items, in an item's name
      (both sides lower-cased); the status filter is "all" or the exact status. */
  predicate OrderMatches(o: Order, search: string, statusFilter: string) {
    (MatchesIgnoringCase(o.id, search) || (o.items.Some? && SomeItemMatches(o.items.value, search)))
    && (statusFilter == "all" || o.status == statusFilter)
  }

  function FilteredOrders(orders: seq<Order>, search: string, statusFilter: string): seq<Order> {
    Filter(orders, (o: Order) => OrderMatches(o, search, statusFilter))
  }

  /** The list shown keeps exactly the matching orders, every copy of each, in their order. */
  lemma {:induction false} FilteredOrdersSpec(orders: seq<Order>, search: string, statusFilter: string)
    ensures IsSubsequence(FilteredOrders(orders, search, statusFilter), orders)
    ensures forall o :: o in FilteredOrders(orders, search, statusFilter) <==>
      o in orders && OrderMatches(o, search, statusFilter)
    ensures forall o ::
      multiset(FilteredOrders(orders, search, statusFilter))[o] ==
      (if OrderMatches(o, search, statusFilter) then multiset(orders)[o] else 0)
  {
    FilterIsSubsequence(orders, (o: Order) => OrderMatches(o, search, statusFilter));
    FilterMultiplicity(orders, (o: Order) => OrderMatches(o, search, statusFilter));
  }

  /** With an empty search and the "all" filter every order is shown. */
  lemma {:induction false} EmptySearchShowsAll(orders: seq<Order>)
    ensures FilteredOrders(orders, "", "all") == orders
  {
    forall o | o in orders
      ensures OrderMatches(o, "", "all")
    {
      EmptySearchMatches(o.id);
    }
    FilterKeepsAll(orders, (o: Order) => OrderMatches(o, "", "all"));
  }

  /** Choosing a status shows only orders with that status. */
  lemma {:induction false} StatusFilterSelects(orders: seq<Order>, search: string, status: string)
    requires status != "all"
    ensures forall o :: o in FilteredOrders(orders, search, status) ==> o.status == status
  {
    FilteredOrdersSpec(orders, search, status);
  }

  // ---------------------------------------------------------------------------
  // Loading

  datatype Endpoint = UsersMe | Orders | Addresses

  const DiscordLogin := "http://localhost:3000/api/auth/discord"

  /** What the loads change: the user, the stored token, a full-page redirect, the orders, the
      addresses, the three loading flags, and the requests sent. Addresses are kept as text. */
  datatype ProfileState = ProfileState(
    user: Option<User>, token: Option<string>, redirect: Option<string>, loadingUser: bool,
    orders: seq<Order>, loadingOrders: bool, addresses: seq<string>, loadingAddresses: bool,
    requests: seq<Endpoint>)

  const Initial := ProfileState(None, None, None, true, [], true, [], true, [])

  /** `fetchUser`: ok shows the user; 401 drops the token and redirects to the Discord login;
      anything else changes nothing but the loading flag. */
  function FetchUserEffect(st: ProfileState, resp: Response<User>): ProfileState {
    var sent := st.(requests := st.requests + [UsersMe], loadingUser := false);
    match resp
    case Ok(u) => sent.(user := Some(u))
    case NotOk(status) => if status == 401 then sent.(token := None, redirect := Some(DiscordLogin)) else sent
    case Threw => sent
  }

  /** `fetchOrders`: nothing at all off the orders tab; on it, ok replaces the orders, and the
      loading flag clears whatever the outcome. */
  function FetchOrdersEffect(st: ProfileState, activeTab: string, resp: Response<seq<Order>>): ProfileState {
    if activeTab != "orders" then st
    else
      var sent := st.(requests := st.requests + [Orders], loadingOrders := false);
      if resp.Ok? then sent.(orders := resp.body) else sent
  }

  /** `fetchAddresses`: the same, on the addresses tab. */
  function FetchAddressesEffect(st: ProfileState, activeTab: string, resp: Response<seq<string>>): ProfileState {
    if activeTab != "addresses" then st
    else
      var sent := st.(requests := st.requests + [Addresses], loadingAddresses := false);
      if resp.Ok? then sent.(addresses := resp.body) else sent
  }

  /** Orders are requested exactly when the orders tab is active, and addresses exactly when
      the addresses tab is; off their tab the loads change nothing. */
  lemma TabGatedLoads(st: ProfileState, activeTab: string, orders: Response<seq<Order>>, addresses: Response<seq<string>>)
    ensures FetchOrdersEffect(st, activeTab, orders).requests
      == st.requests + (if activeTab == "orders" then [Orders] else [])
    ensures FetchAddressesEffect(st, activeTab, addresses).requests
      == st.requests + (if activeTab == "addresses" then [Addresses] else [])
    ensures activeTab != "orders" ==> FetchOrdersEffect(st, activeTab, orders) == st
    ensures activeTab != "addresses" ==> FetchAddressesEffect(st, activeTab, addresses) == st
    ensures activeTab == "orders" ==> !FetchOrdersEffect(st, activeTab, orders).loadingOrders
  {
  }

  /** A 401 on the user load removes the token and redirects; no other outcome touches the token. */
  lemma UnauthorisedDropsToken(st: ProfileState, resp: Response<User>)
    ensures var st' := FetchUserEffect(st, resp);
      && (resp == NotOk(401) ==> st'.token.None? && st'.redirect == Some(DiscordLogin) && st'.user == st.user)
      && (resp != NotOk(401) ==> st'.token == st.token && st'.redirect == st.redirect)
      && (resp.Ok? ==> st'.user == Some(resp.body))
      && (!resp.Ok? ==> st'.user == st.user)
      && !st'.loadingUser
  {
  }

  /** Loading orders on any tab other than "orders" leaves `loadingOrders` as it was, so a
      page that never visits the orders tab keeps it set. */
  lemma OrdersStayLoadingOffTab(activeTab: string, resp: Response<seq<Order>>)
    requires activeTab != "orders"
    ensures FetchOrdersEffect(Initial, activeTab, resp).loadingOrders
  {
  }
}
