/**
 * The admin orders table (src/pages/admin/AdminOrders.tsx). Loading maps every
 * backend order to a table row (items parsed, date cut to ten characters,
 * fallbacks for the address), looks up the distinct user ids in one batch
 * request, and names each row's customer by the Discord user name found, or
 * by the user id. The table is then searched by id or customer and filtered by
 * a status label, which `FilterStatus` maps back to the backend status.
 */
module AdminOrders {
  import opened Outcomes
  import opened Seqs
  import opened Text
  import opened OrderData

  datatype RawOrder = RawOrder(
    id: string, userId: string, status: string, total: real, shippingFee: Option<real>,
    createdAt: Option<string>, address: Option<string>, items: Items)

  /** A row of the table before the customer is known. */
  datatype MappedOrder = MappedOrder(
    id: string, userId: string, status: string, total: real, shippingFee: Option<real>,
    date: string, itemsCount: nat, address: string, items: Items)

  datatype AdminOrder = AdminOrder(order: MappedOrder, customer: string)

  /** One user of the batch answer; `discordUsername` may be missing or null. */
  datatype BatchUser = BatchUser(id: string, discordUsername: Option<string>)

  // ---------------------------------------------------------------------------
  // Mapping

  /** `createdAt ? createdAt.slice(0, 10) : "-"`. */
  function DateOf(createdAt: Option<string>): (d: string)
    ensures createdAt.None? || createdAt.value == "" ==> d == "-"
    ensures createdAt.Some? && createdAt.value != "" ==>
      |d| <= 10 && |d| <= |createdAt.value| && d == createdAt.value[..|d|] && (|createdAt.value| >= 10 ==> |d| == 10)
      && (|createdAt.value| < 10 ==> d == createdAt.value)
  {
    if createdAt.None? || createdAt.value == "" then "-"
    else if |createdAt.value| <= 10 then createdAt.value
    else createdAt.value[..10]
  }

  /** `address || "-"`. */
  function AddressOf(address: Option<string>): (a: string)
    ensures a == "-" <==> address.None? || address.value == "" || address.value == "-"
    ensures a != "-" ==> address == Some(a)
  {
    if address.None? || address.value == "" then "-" else address.value
  }

  function MapOrder(o: RawOrder, parse: Parser): (m: MappedOrder)
    ensures m.id == o.id && m.userId == o.userId && m.status == o.status
    ensures m.total == o.total && m.shippingFee == o.shippingFee
    ensures m.items == NormaliseItems(o.items, parse) && m.itemsCount == ItemsCount(m.items)
    ensures m.date == DateOf(o.createdAt) && m.address == AddressOf(o.address)
  {
    var items := NormaliseItems(o.items, parse);
    MappedOrder(o.id, o.userId, o.status, o.total, o.shippingFee,
                DateOf(o.createdAt), ItemsCount(items), AddressOf(o.address), items)
  }

  function MapOrders(orders: seq<RawOrder>, parse: Parser): (r: seq<MappedOrder>)
    ensures |r| == |orders|
    ensures forall i :: 0 <= i < |orders| ==> r[i] == MapOrder(orders[i], parse)
  {
    if orders == [] then [] else [MapOrder(orders[0], parse)] + MapOrders(orders[1..], parse)
  }

  // ---------------------------------------------------------------------------
  // Customers

  function UserIdsOf(orders: seq<MappedOrder>): (ids: seq<string>)
    ensures |ids| == |orders|
    ensures forall i :: 0 <= i < |orders| ==> ids[i] == orders[i].userId
  {
    if orders == [] then [] else [orders[0].userId] + UserIdsOf(orders[1..])
  }

  /** `Array.from(new Set(userIds))`: the user ids without repeats, in first-seen order. */
  function UserIds(orders: seq<MappedOrder>): seq<string> {
    Dedup(UserIdsOf(orders))
  }

  /** The batch request names every order's user exactly once, and nothing else; it is
      empty only for an empty table. */
  lemma {:induction false} UserIdsSpec(orders: seq<MappedOrder>)
    ensures Distinct(UserIds(orders))
    ensures forall i :: 0 <= i < |orders| ==> orders[i].userId in UserIds(orders)
    ensures forall id :: id in UserIds(orders) ==> exists i :: 0 <= i < |orders| && orders[i].userId == id
    ensures |UserIds(orders)| == 0 <==> orders == []
  {
    var ids := UserIdsOf(orders);
    forall i | 0 <= i < |orders|
      ensures orders[i].userId in UserIds(orders)
    {
      assert ids[i] == orders[i].userId;
    }
    if orders != [] {
      assert orders[0].userId in UserIds(orders);
    }
  }

  /** The `userMap` that the `reduce` builds: users in order, a later user with the same id
      overwriting an earlier one. */
  function UserMap(users: seq<BatchUser>): map<string, Option<string>>
  {
    if users == [] then map[]
    else
      var last := users[|users| - 1];
      UserMap(users[..|users| - 1])[last.id := last.discordUsername]
  }

  /** An id maps to the name of the last user with that id: a later user overwrites an
      earlier one. */
  lemma {:induction false} UserMapLastWins(users: seq<BatchUser>, k: nat)
    requires k < |users|
    requires forall j :: k < j < |users| ==> users[j].id != users[k].id
    ensures users[k].id in UserMap(users) && UserMap(users)[users[k].id] == users[k].discordUsername
    decreases |users|
  {
    if k < |users| - 1 {
      var init := users[..|users| - 1];
      assert init[k] == users[k];
      forall j | k < j < |init|
        ensures init[j].id != init[k].id
      {
        assert init[j] == users[j];
      }
      UserMapLastWins(init, k);
    }
  }

  /** The map's keys are exactly the users' ids. */
  lemma {:induction false} UserMapDomain(users: seq<BatchUser>)
    ensures forall id :: id in UserMap(users) <==> exists j :: 0 <= j < |users| && users[j].id == id
    decreases |users|
  {
    if users != [] {
      var init := users[..|users| - 1];
      UserMapDomain(init);
      forall id | id in UserMap(users)
        ensures exists j :: 0 <= j < |users| && users[j].id == id
      {
        if id != users[|users| - 1].id {
          assert id in UserMap(init);
          var j :| 0 <= j < |init| && init[j].id == id;
          assert users[j] == init[j];
        }
      }
      forall id | exists j :: 0 <= j < |users| && users[j].id == id
        ensures id in UserMap(users)
      {
        var j :| 0 <= j < |users| && users[j].id == id;
        if j < |init| {
          assert init[j] == users[j];
        }
      }
    }
  }

  /** `users.reduce((acc, u) => { acc[u.id] = u.discordUsername; return acc; }, {})`. */
  method BuildUserMap(users: seq<BatchUser>) returns (m: map<string, Option<string>>)
    ensures m == UserMap(users)
  {
    m := map[];
    for i := 0 to |users|
      invariant m == UserMap(users[..i])
    {
      assert users[..i + 1][..i] == users[..i];
      m := m[users[i].id := users[i].discordUsername];
    }
    assert users[..|users|] == users;
  }

  /** `userMap[userId] || userId`. */
  function Customer(userMap: map<string, Option<string>>, userId: string): (c: string)
    ensures c != userId ==> userId in userMap && userMap[userId] == Some(c) && c != ""
    ensures userId in userMap && userMap[userId].Some? && userMap[userId].value != "" ==>
      c == userMap[userId].value
  {
    if userId in userMap && userMap[userId].Some? && userMap[userId].value != "" then userMap[userId].value
    else userId
  }

  function WithCustomers(orders: seq<MappedOrder>, userMap: map<string, Option<string>>): (r: seq<AdminOrder>)
    ensures |r| == |orders|
    ensures forall i :: 0 <= i < |orders| ==>
      r[i].order == orders[i] && r[i].customer == Customer(userMap, orders[i].userId)
  {
    if orders == [] then []
    else [AdminOrder(orders[0], Customer(userMap, orders[0].userId))] + WithCustomers(orders[1..], userMap)
  }

  // ---------------------------------------------------------------------------
  // Loading

  /**
   * `fetchOrdersAndUsers`: the rows shown and the batch request sent (if any). A failed or
   * thrown order request shows no rows; so does a thrown batch request. The batch is sent
   * only when there is at least one user id, and a batch answer that is not ok leaves every
   * customer named by user id.
   */
  function Loaded(resp: Response<seq<RawOrder>>, users: Response<seq<BatchUser>>, parse: Parser)
    : (seq<AdminOrder>, Option<seq<string>>)
  {
    match resp
    case Ok(data) =>
      var mapped := MapOrders(data, parse);
      var ids := UserIds(mapped);
      if |ids| == 0 then (WithCustomers(mapped, map[]), None)
      else
        (match users
         case Ok(us) => (WithCustomers(mapped, UserMap(us)), Some(ids))
         case NotOk(_) => (WithCustomers(mapped, map[]), Some(ids))
         case Threw => ([], Some(ids)))
    case _ => ([], None)
  }

  /** Any failure of the order request, or a thrown batch request, shows an empty table. */
  lemma LoadFailureShowsNothing(resp: Response<seq<RawOrder>>, users: Response<seq<BatchUser>>, parse: Parser)
    ensures !resp.Ok? ==> Loaded(resp, users, parse) == ([], None)
    ensures resp.Ok? && users.Threw? ==> Loaded(resp, users, parse).0 == []
  {
  }

  /** The batch request is sent exactly when some order was loaded, and names `UserIds`. */
  lemma {:induction false} BatchOnlyWhenNeeded(resp: Response<seq<RawOrder>>, users: Response<seq<BatchUser>>, parse: Parser)
    ensures Loaded(resp, users, parse).1.Some? <==> resp.Ok? && resp.body != []
    ensures Loaded(resp, users, parse).1.Some? ==>
      Loaded(resp, users, parse).1.value == UserIds(MapOrders(resp.body, parse))
  {
    if resp.Ok? {
      UserIdsSpec(MapOrders(resp.body, parse));
    }
  }

  /** A successful load shows one row per backend order, in the same order, each with its
      mapped fields and its customer from the batch answer. */
  lemma LoadedRows(resp: Response<seq<RawOrder>>, users: Response<seq<BatchUser>>, parse: Parser, i: nat)
    requires resp.Ok? && !users.Threw? && i < |resp.body|
    ensures var rows := Loaded(resp, users, parse).0;
      && |rows| == |resp.body|
      && rows[i].order == MapOrder(resp.body[i], parse)
      && (users.Ok? ==> rows[i].customer == Customer(UserMap(users.body), resp.body[i].userId))
      && (users.NotOk? ==> rows[i].customer == resp.body[i].userId)
  {
    UserIdsSpec(MapOrders(resp.body, parse));
  }

  // ---------------------------------------------------------------------------
  // Status tables and the table filter

  datatype StatusStyle = StatusStyle(caption: string, color: string)

  /** `statusMap[status]`. */
  function StatusInfo(status: string): Option<StatusStyle> {
    if status == "PROCESSING" then Some(StatusStyle("Awaiting merchant confirmation", "bg-yellow-500"))
    else if status == "WAITING_FOR_PAYMENT" then Some(StatusStyle("Awaiting payment", "bg-orange-500"))
    else if status == "PAID" then Some(StatusStyle("Paid", "bg-blue-500"))
    else if status == "SHIPPED" then Some(StatusStyle("Shipped", "bg-purple-500"))
    else if status == "DELIVERED" then Some(StatusStyle("Delivered", "bg-green-500"))
    else if status == "CANCELED" then Some(StatusStyle("Cancelled", "bg-red-500"))
    else None
  }

  function StatusColor(status: string): string {
    if StatusInfo(status).Some? then StatusInfo(status).value.color else "bg-gray-500"
  }

  function StatusLabel(status: string): string {
    if StatusInfo(status).Some? then StatusInfo(status).value.caption else status
  }

  /** `filterMap[value]`: the backend status a filter label selects. */
  function FilterStatus(value: string): Option<string> {
    if value == "all" then Some("all")
    else if value == "Awaiting merchant confirmation" then Some("PROCESSING")
    else if value == "Awaiting payment" then Some("WAITING_FOR_PAYMENT")
    else if value == "Paid" then Some("PAID")
    else if value == "Shipped" then Some("SHIPPED")
    else if value == "Delivered" then Some("DELIVERED")
    else if value == "Cancelled" then Some("CANCELED")
    else None
  }

  /** The filter table inverts the label table: a status's label selects that status ... */
  lemma LabelSelectsItsStatus(status: string)
    requires StatusInfo(status).Some?
    ensures FilterStatus(StatusInfo(status).value.caption) == Some(status)
  {
  }

  /** ... and every filter label other than "all" is the label of the status it selects. */
  lemma FilterLabelIsStatusLabel(value: string)
    requires value != "all" && FilterStatus(value).Some?
    ensures StatusInfo(FilterStatus(value).value).Some?
    ensures StatusInfo(FilterStatus(value).value).value.caption == value
  {
  }

  /** An unknown status is shown as it is, in gray; a known one never in gray. */
  lemma StatusFallbacks(status: string)
    ensures StatusInfo(status).None? ==> StatusLabel(status) == status && StatusColor(status) == "bg-gray-500"
    ensures StatusInfo(status).Some? ==> StatusColor(status) != "bg-gray-500" && StatusLabel(status) != ""
  {
  }

  /** The search text is in the id or in a non-empty customer name (lower-cased), and the
      filter is "all" or selects the row's status. */
  predicate RowMatches(row: AdminOrder, search: string, statusFilter: string) {
    (MatchesIgnoringCase(row.order.id, search)
      || (row.customer != "" && MatchesIgnoringCase(row.customer, search)))
    && (statusFilter == "all" || FilterStatus(statusFilter) == Some(row.order.status))
  }

  function FilteredOrders(rows: seq<AdminOrder>, search: string, statusFilter: string): seq<AdminOrder> {
    Filter(rows, (r: AdminOrder) => RowMatches(r, search, statusFilter))
  }

  /** The table keeps exactly the matching rows, every copy of each, in their order; choosing a status's label
      keeps exactly the matching rows with that status. */
  lemma {:induction false} FilteredOrdersSpec(rows: seq<AdminOrder>, search: string, statusFilter: string)
    ensures IsSubsequence(FilteredOrders(rows, search, statusFilter), rows)
    ensures forall r :: r in FilteredOrders(rows, search, statusFilter) <==>
      r in rows && RowMatches(r, search, statusFilter)
    ensures forall r ::
      multiset(FilteredOrders(rows, search, statusFilter))[r] ==
      (if RowMatches(r, search, statusFilter) then multiset(rows)[r] else 0)
  {
    FilterIsSubsequence(rows, (r: AdminOrder) => RowMatches(r, search, statusFilter));
    FilterMultiplicity(rows, (r: AdminOrder) => RowMatches(r, search, statusFilter));
  }

  lemma {:induction false} LabelFilterSelectsStatus(rows: seq<AdminOrder>, search: string, status: string)
    requires StatusInfo(status).Some?
    ensures forall r :: r in FilteredOrders(rows, search, StatusInfo(status).value.caption) ==> r.order.status == status
  {
    LabelSelectsItsStatus(status);
    FilteredOrdersSpec(rows, search, StatusInfo(status).value.caption);
  }

  /** `order.total + (order.shippingFee || 0)`. */
  function DisplayedTotal(row: AdminOrder): real {
    row.order.total + row.order.shippingFee.GetOr(0.0)
  }

  /** A row without a fee shows its bare total. */
  lemma DisplayedTotalWithoutFee(row: AdminOrder)
    requires row.order.shippingFee.None?
    ensures DisplayedTotal(row) == row.order.total
  {
  }

  // ---------------------------------------------------------------------------
  // The page

  class AdminOrdersPage {
    var orders: seq<AdminOrder>
    var loading: bool
    var batchRequests: seq<seq<string>>

    constructor ()
      ensures orders == [] && loading && batchRequests == []
    {
      orders, loading, batchRequests := [], true, [];
    }

    method Load(resp: Response<seq<RawOrder>>, users: Response<seq<BatchUser>>, parse: Parser)
      modifies this
      ensures orders == Loaded(resp, users, parse).0 && !loading
      ensures var batch := Loaded(resp, users, parse).1;
        batchRequests == old(batchRequests) + (if batch.Some? then [batch.value] else [])
    {
      loading := true;
      if !resp.Ok? {
        orders := [];
        loading := false;
        return;
      }
      var mapped := MapOrders(resp.body, parse);
      var ids := UserIds(mapped);
      var userMap: map<string, Option<string>> := map[];
      if |ids| > 0 {
        batchRequests := batchRequests + [ids];
        if users.Threw? {
          orders := [];
          loading := false;
          return;
        }
        if users.Ok? {
          userMap := BuildUserMap(users.body);
        }
      }
      orders := WithCustomers(mapped, userMap);
      loading := false;
    }
  }
}
