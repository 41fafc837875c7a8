/**
 * The checkout page (src/pages/Checkout.tsx): a two-step wizard (shipping form,
 * then payment) over the server cart. Shipping and tax are both 0, so the total
 * is the subtotal. Placing the order empties the local "cart" entry and goes to
 * the profile's orders tab, but only when the server accepted the order.
 */
module Checkout {
  import opened Outcomes
  import opened Cart

  datatype ShippingInfo = ShippingInfo(
    firstName: string, lastName: string, email: string, phone: string,
    address: string, city: string, state: string, zipCode: string, country: string)

  /** The eight inputs of the shipping form. The page has no input for `country`. */
  datatype Field = FirstName | LastName | Email | Phone | Address | City | State | ZipCode

  const InitialShipping := ShippingInfo("", "", "", "", "", "", "", "", "United States")

  function Get(info: ShippingInfo, f: Field): string {
    match f
    case FirstName => info.firstName
    case LastName => info.lastName
    case Email => info.email
    case Phone => info.phone
    case Address => info.address
    case City => info.city
    case State => info.state
    case ZipCode => info.zipCode
  }

  /** `setShippingInfo({...shippingInfo, [f]: v})`: one input's change handler. */
  function WithField(info: ShippingInfo, f: Field, v: string): (r: ShippingInfo)
    ensures Get(r, f) == v
    ensures forall g :: g != f ==> Get(r, g) == Get(info, g)
    ensures r.country == info.country
  {
    match f
    case FirstName => info.(firstName := v)
    case LastName => info.(lastName := v)
    case Email => info.(email := v)
    case Phone => info.(phone := v)
    case Address => info.(address := v)
    case City => info.(city := v)
    case State => info.(state := v)
    case ZipCode => info.(zipCode := v)
  }

  const ShippingCost: real := 0.0
  const Tax: real := 0.0

  function OrderTotal(lines: seq<CartLine>): real {
    Subtotal(lines) + ShippingCost + Tax
  }

  /** The total charged is the plain sum of price times quantity over the cart lines. */
  lemma {:induction false} TotalIsSumOfLines(lines: seq<CartLine>)
    ensures OrderTotal(lines) == Subtotal(lines) == Sum(lines)
  {
    SubtotalIsSum(lines);
  }

  /** The cart after the cart request: `data.items || []` when ok; otherwise unchanged. */
  function AfterFetch(current: seq<CartLine>, resp: Response<Option<seq<CartLine>>>): seq<CartLine> {
    match resp
    case Ok(data) => data.GetOr([])
    case _ => current
  }

  /** A response without an `items` field gives an empty cart. */
  lemma MissingItemsGiveEmptyCart(current: seq<CartLine>)
    ensures AfterFetch(current, Ok(None)) == []
  {
  }

  /** A navigation, with the router state the page passes (`{ tab: "orders" }`). */
  datatype Navigation = Navigation(path: string, tab: Option<string>)

  class CheckoutPage {
    var step: int
    var items: seq<CartLine>
    var shipping: ShippingInfo
    /** The local "cart" entry; None while this page has not written it. */
    var mirror: Option<seq<CartLine>>
    /** The shipping information of every order request sent. */
    var orderRequests: seq<ShippingInfo>
    var navigations: seq<Navigation>

    /** The wizard is on step 1 or step 2, and the country is never edited. */
    ghost predicate Valid()
      reads this
    {
      (step == 1 || step == 2) && shipping.country == "United States"
    }

    constructor ()
      ensures Valid() && step == 1 && items == [] && shipping == InitialShipping
      ensures mirror == None && orderRequests == [] && navigations == []
    {
      step, items, shipping := 1, [], InitialShipping;
      mirror, orderRequests, navigations := None, [], [];
    }

    method LoadCart(resp: Response<Option<seq<CartLine>>>)
      requires Valid()
      modifies this
      ensures Valid() && items == AfterFetch(old(items), resp)
      ensures step == old(step) && shipping == old(shipping) && mirror == old(mirror)
      ensures orderRequests == old(orderRequests) && navigations == old(navigations)
    {
      items := AfterFetch(items, resp);
    }

    /** "Continue to Payment", shown on step 1. */
    method ContinueToPayment()
      requires Valid() && step == 1
      modifies this
      ensures Valid() && step == 2
      ensures items == old(items) && shipping == old(shipping) && mirror == old(mirror)
      ensures orderRequests == old(orderRequests) && navigations == old(navigations)
    {
      step := 2;
    }

    /** "Back to Shipping", shown on step 2. */
    method BackToShipping()
      requires Valid() && step == 2
      modifies this
      ensures Valid() && step == 1
      ensures items == old(items) && shipping == old(shipping) && mirror == old(mirror)
      ensures orderRequests == old(orderRequests) && navigations == old(navigations)
    {
      step := 1;
    }

    /** Typing in one of the shipping inputs, which are shown on step 1. */
    method EditField(f: Field, v: string)
      requires Valid() && step == 1
      modifies this
      ensures Valid() && shipping == WithField(old(shipping), f, v)
      ensures step == old(step) && items == old(items) && mirror == old(mirror)
      ensures orderRequests == old(orderRequests) && navigations == old(navigations)
    {
      shipping := WithField(shipping, f, v);
    }

    /** `handlePlaceOrder` ("Place Order", shown on step 2): post the shipping information;
        on an ok answer empty the local cart entry and go to the profile's orders tab;
        otherwise change nothing else. */
    method PlaceOrder(resp: Response<()>)
      requires Valid() && step == 2
      modifies this
      ensures Valid() && orderRequests == old(orderRequests) + [old(shipping)]
      ensures resp.Ok? ==>
        mirror == Some([]) && navigations == old(navigations) + [Navigation("/profile", Some("orders"))]
      ensures !resp.Ok? ==> mirror == old(mirror) && navigations == old(navigations)
      ensures step == old(step) && items == old(items) && shipping == old(shipping)
    {
      orderRequests := orderRequests + [shipping];
      if resp.Ok? {
        mirror := Some([]);
        navigations := navigations + [Navigation("/profile", Some("orders"))];
      }
    }
  }
}
