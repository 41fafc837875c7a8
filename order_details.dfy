/**
 * The order page (src/pages/OrderDetails.tsx): it loads one order (normalising
 * its items) and the current user; admins can edit and save the shipping fee,
 * and the order's owner can cancel it while it is still PROCESSING or
 * WAITING_FOR_PAYMENT. The status heading, the description and the total
 * shown are derived from the order.
 */
module OrderDetails {
  import opened Outcomes
  import opened Text
  import opened OrderData

  datatype User = User(id: string, role: string)
  datatype Order = Order(id: string, userId: string, status: string, items: Items, total: real, shippingFee: real)

  /** A request that changes an order: the admin's fee update, or the owner's cancellation. */
  datatype Update = ShippingFeeUpdate(orderId: string, shippingFee: real) | StatusUpdate(orderId: string, status: string)

  // ---------------------------------------------------------------------------
  // Who may do what

  predicate IsAdmin(user: Option<User>) {
    user.Some? && user.value.role == "ADMIN"
  }

  predicate IsUserOrder(user: Option<User>, order: Option<Order>) {
    user.Some? && order.Some? && user.value.id == order.value.userId
  }

  predicate Cancellable(status: string) {
    status == "PROCESSING" || status == "WAITING_FOR_PAYMENT"
  }

  /** The cancel button is rendered only for the owner of a cancellable order. */
  predicate CanCancel(user: Option<User>, order: Option<Order>) {
    IsUserOrder(user, order) && Cancellable(order.value.status)
  }

  /** Only the owner may cancel, and only from the two early statuses; an admin who does not
      own the order is not offered the cancel button, and a paid order can never be cancelled. */
  lemma CancelRules(user: Option<User>, order: Option<Order>)
    ensures CanCancel(user, order) ==> user.Some? && order.Some? && user.value.id == order.value.userId
    ensures CanCancel(user, order) ==> order.value.status in {"PROCESSING", "WAITING_FOR_PAYMENT"}
    ensures order.Some? && order.value.status in {"PAID", "SHIPPED", "DELIVERED", "CANCELED"} ==> !CanCancel(user, order)
    ensures IsAdmin(user) && order.Some? && user.value.id != order.value.userId ==> !CanCancel(user, order)
  {
  }

  // ---------------------------------------------------------------------------
  // Text and totals

  /** The status heading: the first character upper-cased, the rest lower-cased. */
  function StatusTitle(status: string): (t: string)
    ensures |t| == |status|
    ensures |status| > 0 ==> t[0] == UpperChar(status[0]) && t[1..] == Lower(status[1..])
  {
    if status == [] then [] else [UpperChar(status[0])] + Lower(status[1..])
  }

  lemma UpperCharIsIdempotent(c: char)
    ensures UpperChar(UpperChar(c)) == UpperChar(c)
  {
  }

  /** The heading of a heading is itself. */
  lemma StatusTitleIsIdempotent(status: string)
    ensures StatusTitle(StatusTitle(status)) == StatusTitle(status)
  {
    if status != [] {
      var t := StatusTitle(status);
      UpperCharIsIdempotent(status[0]);
      LowerIsIdempotent(status[1..]);
      assert t[1..] == Lower(status[1..]);
    }
  }

  lemma LowerCharOfCased(c: char)
    ensures LowerChar(UpperChar(c)) == LowerChar(c) && LowerChar(LowerChar(c)) == LowerChar(c)
    ensures !('A' <= LowerChar(c) <= 'Z')
  {
  }

  /** The heading changes only the case of the status: lower-cased, the two read the same, and
      no ASCII capital is left after the first character. */
  lemma StatusTitleOnlyChangesCase(status: string)
    ensures Lower(StatusTitle(status)) == Lower(status)
    ensures forall i :: 1 <= i < |status| ==> !('A' <= StatusTitle(status)[i] <= 'Z')
  {
    var t := StatusTitle(status);
    forall i | 0 <= i < |status|
      ensures LowerChar(t[i]) == LowerChar(status[i])
      ensures i >= 1 ==> !('A' <= t[i] <= 'Z')
    {
      LowerCharOfCased(status[i]);
      if i >= 1 {
        assert t[i] == t[1..][i - 1] == Lower(status[1..])[i - 1] == LowerChar(status[i]);
      }
    }
    assert Lower(t) == Lower(status);
  }

  function StatusDescription(status: string): string {
    if status == "PROCESSING" then "Your order is being processed"
    else if status == "SHIPPED" then "Your order has been shipped"
    else if status == "DELIVERED" then "Your order has been delivered"
    else if status == "PAID" then "Payment confirmed, preparing for shipment"
    else "Status updated"
  }

  /** Four statuses have their own description; every other one, WAITING_FOR_PAYMENT and
      CANCELED included, reads "Status updated". */
  lemma DescriptionFallsBack(status: string)
    ensures StatusDescription(status) == "Status updated" <==>
      status !in {"PROCESSING", "SHIPPED", "DELIVERED", "PAID"}
  {
  }

  /** The bold total: the order's total plus, for an admin, the fee being edited, and for
      everyone else the order's own fee. */
  function DisplayedTotal(order: Order, user: Option<User>, editShippingFee: real): real {
    order.total + (if IsAdmin(user) then editShippingFee else order.shippingFee)
  }

  /** A non-admin always sees the stored fee; an admin sees the stored fee until editing it. */
  lemma DisplayedTotalFee(order: Order, user: Option<User>, editShippingFee: real)
    ensures !IsAdmin(user) ==> DisplayedTotal(order, user, editShippingFee) == order.total + order.shippingFee
    ensures IsAdmin(user) ==> DisplayedTotal(order, user, editShippingFee) - order.total == editShippingFee
    ensures DisplayedTotal(order, user, order.shippingFee) == order.total + order.shippingFee
  {
  }

  // ---------------------------------------------------------------------------
  // Loading and saving

  /** `order` after the load: the body with its items normalised when the answer is ok with a
      non-null body; null when not ok, when the body is null, or when anything threw. */
  function Fetched(resp: Response<Body<Order>>, parse: Parser): (r: Option<Order>)
    ensures r.Some? <==> resp.Ok? && resp.body.Value?
    ensures r.Some? ==> r.value == resp.body.v.(items := NormaliseItems(resp.body.v.items, parse))
  {
    match resp
    case Ok(Value(d)) => Some(d.(items := NormaliseItems(d.items, parse)))
    case _ => None
  }

  /** `order` after a save or a cancel: replaced by the answer only when it is ok and its body
      was read (a null body clears it); kept when not ok or when the request threw. */
  function Replaced(current: Option<Order>, resp: Response<Body<Order>>): (r: Option<Order>)
    ensures resp.Ok? && resp.body.Value? ==> r == Some(resp.body.v)
    ensures resp.Ok? && resp.body.Null? ==> r == None
    ensures resp.Ok? && resp.body.Unreadable? ==> r == current
    ensures !resp.Ok? ==> r == current
  {
    match resp
    case Ok(Value(updated)) => Some(updated)
    case Ok(Null) => None
    case _ => current
  }

  /** A failed load never leaves an order on the page. */
  lemma FailedLoadShowsNoOrder(resp: Response<Body<Order>>, parse: Parser)
    requires !resp.Ok?
    ensures Fetched(resp, parse) == None
  {
  }

  class OrderPage {
    var order: Option<Order>
    var user: Option<User>
    var loading: bool
    var editTotal: real
    var editShippingFee: real
    var saving: bool
    var updates: seq<Update>

    constructor ()
      ensures order == None && user == None && loading && !saving && updates == []
    {
      order, user, loading := None, None, true;
      editTotal, editShippingFee, saving, updates := 0.0, 0.0, false, [];
    }

    /** `fetchOrder`; on success the editable total and fee start from the order's. */
    method FetchOrder(resp: Response<Body<Order>>, parse: Parser)
      modifies this
      ensures order == Fetched(resp, parse) && !loading
      ensures order.Some? ==> editTotal == order.value.total && editShippingFee == order.value.shippingFee
      ensures order.None? ==> editTotal == old(editTotal) && editShippingFee == old(editShippingFee)
      ensures user == old(user) && saving == old(saving) && updates == old(updates)
    {
      match resp {
        case Ok(Value(data)) =>
          var normalised := data.(items := NormaliseItems(data.items, parse));
          order := Some(normalised);
          editTotal := normalised.total;
          editShippingFee := normalised.shippingFee;
        case _ =>
          order := None;
      }
      loading := false;
    }

    /** `fetchUser`: an ok answer replaces the user; anything else is ignored. */
    method FetchUser(resp: Response<Body<User>>)
      modifies this
      ensures resp.Ok? && resp.body.Value? ==> user == Some(resp.body.v)
      ensures resp.Ok? && resp.body.Null? ==> user == None
      ensures !resp.Ok? || resp.body.Unreadable? ==> user == old(user)
      ensures order == old(order) && loading == old(loading) && saving == old(saving) && updates == old(updates)
      ensures editShippingFee == old(editShippingFee)
    {
      if resp.Ok? {
        match resp.body {
          case Value(u) => user := Some(u);
          case Null => user := None;
          case Unreadable =>
        }
      }
    }

    /** Typing in the fee input, which only admins see and which is disabled while saving. */
    method EditShippingFee(fee: real)
      requires IsAdmin(user) && order.Some? && !saving
      modifies this
      ensures editShippingFee == fee
      ensures order == old(order) && user == old(user) && saving == old(saving) && updates == old(updates)
    {
      editShippingFee := fee;
    }

    /** "Save Changes": send only the edited fee; replace the order only as `Replaced` says;
        `saving` is off again afterwards whatever happened. */
    method SaveShippingFee(resp: Response<Body<Order>>)
      requires IsAdmin(user) && order.Some? && !saving
      modifies this
      ensures updates == old(updates) + [ShippingFeeUpdate(old(order).value.id, old(editShippingFee))]
      ensures order == Replaced(old(order), resp) && !saving
      ensures user == old(user) && editShippingFee == old(editShippingFee)
    {
      saving := true;
      updates := updates + [ShippingFeeUpdate(order.value.id, editShippingFee)];
      order := Replaced(order, resp);
      saving := false;
    }

    /** "Confirm Cancel": request status CANCELED for the owner's cancellable order. */
    method CancelOrder(resp: Response<Body<Order>>)
      requires CanCancel(user, order)
      modifies this
      ensures updates == old(updates) + [StatusUpdate(old(order).value.id, "CANCELED")]
      ensures order == Replaced(old(order), resp) && !saving
      ensures user == old(user) && editShippingFee == old(editShippingFee)
    {
      saving := true;
      updates := updates + [StatusUpdate(order.value.id, "CANCELED")];
      order := Replaced(order, resp);
      saving := false;
    }
  }
}
