/**
 * The cart page (src/pages/ShoppingCart.tsx): it loads the cart, looks up each
 * product's stock, lets the user change a line's quantity or remove a line, and
 * after every change the server accepted it writes the new list to the local
 * "cart" entry that the header badge reads.
 *
 * Each handler is specified by a pure effect function on `CartState`; the page
 * class's methods are proved to perform exactly that effect.
 */
module ShoppingCart {
  import opened Outcomes
  import opened Seqs
  import opened Cart

  /** A cart line once the page has attached the product's stock to it (`{ ...item, stock }`). */
  datatype CartItem = CartItem(line: CartLine, stock: int)

  /** One line of the cart response with the outcome of its product lookup. */
  datatype FetchedLine = FetchedLine(line: CartLine, lookup: Response<int>)

  /** A request the page sends to the cart API. */
  datatype CartRequest = PutQuantity(productId: string, quantity: int) | DeleteItem(productId: string)

  /**
   * What the handlers change: the list shown (`cartItems`), the local "cart"
   * entry (None while this page has not written it), and the requests sent.
   */
  datatype CartState = CartState(items: seq<CartItem>, mirror: Option<seq<CartItem>>, requests: seq<CartRequest>)

  // ---------------------------------------------------------------------------
  // Loading

  /** The stock a line gets: the looked-up stock, or 0 when the lookup was not ok or threw. */
  function StockOf(lookup: Response<int>): int {
    match lookup
    case Ok(stock) => stock
    case _ => 0
  }

  /** The cart response's lines with their stock attached, in the same order. */
  function Stocked(lines: seq<FetchedLine>): (items: seq<CartItem>)
    ensures |items| == |lines|
    ensures forall i :: 0 <= i < |lines| ==>
      items[i].line == lines[i].line && items[i].stock == StockOf(lines[i].lookup)
  {
    if lines == [] then []
    else [CartItem(lines[0].line, StockOf(lines[0].lookup))] + Stocked(lines[1..])
  }

  /** `cartItems` after the cart request: the stocked lines of `data.items || []` when ok,
      the empty list when not ok, and the previous list when the request threw. */
  function AfterFetch(current: seq<CartItem>, resp: Response<Option<seq<FetchedLine>>>): seq<CartItem> {
    match resp
    case Ok(data) => Stocked(data.GetOr([]))
    case NotOk(_) => []
    case Threw => current
  }

  // ---------------------------------------------------------------------------
  // Lookups and list updates

  /** `cartItems.find(i => i.productId === productId)`: the first line with that product. */
  function FindItem(items: seq<CartItem>, productId: string): (r: Option<CartItem>)
    ensures r.None? <==> forall i :: 0 <= i < |items| ==> items[i].line.productId != productId
    ensures r.Some? ==> exists k :: (0 <= k < |items| && items[k] == r.value
      && r.value.line.productId == productId
      && forall m :: 0 <= m < k ==> items[m].line.productId != productId)
  {
    if items == [] then None
    else if items[0].line.productId == productId then Some(items[0])
    else
      var r := FindItem(items[1..], productId);
      if r.Some? then
        var k :| 0 <= k < |items[1..]| && items[1..][k] == r.value
          && r.value.line.productId == productId
          && forall m :: 0 <= m < k ==> items[1..][m].line.productId != productId;
        assert items[k + 1] == r.value;
        r
      else r
  }

  /** `prevItems.map(...)` of a successful update: every line of `productId` gets `quantity`. */
  function SetQuantity(items: seq<CartItem>, productId: string, quantity: int): (r: seq<CartItem>)
    ensures |r| == |items|
    ensures forall i :: 0 <= i < |items| && items[i].line.productId != productId ==> r[i] == items[i]
    ensures forall i :: 0 <= i < |items| && items[i].line.productId == productId ==>
      r[i].line == items[i].line.(quantity := quantity) && r[i].stock == items[i].stock
  {
    if items == [] then []
    else
      var first := if items[0].line.productId == productId
        then items[0].(line := items[0].line.(quantity := quantity))
        else items[0];
      [first] + SetQuantity(items[1..], productId, quantity)
  }

  /** `prevItems.filter(item => item.productId !== productId)`. */
  function Without(items: seq<CartItem>, productId: string): seq<CartItem> {
    Filter(items, (x: CartItem) => x.line.productId != productId)
  }

  // ---------------------------------------------------------------------------
  // The handlers' effects

  /** `removeItem`: send the DELETE; only an ok answer drops the lines and rewrites the mirror. */
  function RemoveEffect(st: CartState, productId: string, resp: Response<()>): CartState {
    var sent := st.(requests := st.requests + [DeleteItem(productId)]);
    if resp.Ok? then
      var updated := Without(st.items, productId);
      sent.(items := updated, mirror := Some(updated))
    else sent
  }

  /** `updateQuantity`: ignore an unknown product, remove below 1, refuse above the stock,
      otherwise send the PUT and, when it is ok, set the quantity and rewrite the mirror. */
  function UpdateEffect(st: CartState, productId: string, newQuantity: int, resp: Response<()>): CartState {
    match FindItem(st.items, productId)
    case None => st
    case Some(item) =>
      if newQuantity < 1 then RemoveEffect(st, productId, resp)
      else if newQuantity > item.stock then st
      else
        var sent := st.(requests := st.requests + [PutQuantity(productId, newQuantity)]);
        if resp.Ok? then
          var updated := SetQuantity(st.items, productId, newQuantity);
          sent.(items := updated, mirror := Some(updated))
        else sent
  }

  // ---------------------------------------------------------------------------
  // Derived values shown by the page

  function Lines(items: seq<CartItem>): (lines: seq<CartLine>)
    ensures |lines| == |items|
    ensures forall i :: 0 <= i < |items| ==> lines[i] == items[i].line
  {
    if items == [] then [] else [items[0].line] + Lines(items[1..])
  }

  function ItemsSubtotal(items: seq<CartItem>): real {
    Subtotal(Lines(items))
  }

  /** Shipping is free above 100 and 20 otherwise (so a subtotal of exactly 100 pays 20). */
  function ShippingFee(subtotal: real): real {
    if subtotal > 100.0 then 0.0 else 20.0
  }

  const Tax: real := 0.0

  function Total(items: seq<CartItem>): real {
    ItemsSubtotal(items) + ShippingFee(ItemsSubtotal(items)) + Tax
  }

  function InStock(items: seq<CartItem>): seq<CartItem> {
    Filter(items, (x: CartItem) => x.stock > 0)
  }

  function OutOfStock(items: seq<CartItem>): seq<CartItem> {
    Filter(items, (x: CartItem) => x.stock == 0)
  }

  /** The "+" button of a line is disabled once its quantity reaches the stock. */
  predicate PlusDisabled(item: CartItem) {
    item.line.quantity >= item.stock
  }

  // ---------------------------------------------------------------------------
  // Properties

  /** Changing the quantity of a product that is not in the cart changes nothing. */
  lemma UpdateUnknownProductIsNoop(st: CartState, productId: string, newQuantity: int, resp: Response<()>)
    requires forall i :: 0 <= i < |st.items| ==> st.items[i].line.productId != productId
    ensures UpdateEffect(st, productId, newQuantity, resp) == st
  {
  }

  /** A quantity below 1 for a product in the cart is exactly a removal of that product. */
  lemma UpdateBelowOneRemoves(st: CartState, productId: string, newQuantity: int, resp: Response<()>)
    requires exists i :: 0 <= i < |st.items| && st.items[i].line.productId == productId
    requires newQuantity < 1
    ensures UpdateEffect(st, productId, newQuantity, resp) == RemoveEffect(st, productId, resp)
  {
  }

  /** A quantity above the stock of the product's first line is refused without a request. */
  lemma UpdateAboveStockRefused(st: CartState, productId: string, newQuantity: int, resp: Response<()>)
    requires FindItem(st.items, productId).Some?
    requires newQuantity >= 1 && newQuantity > FindItem(st.items, productId).value.stock
    ensures UpdateEffect(st, productId, newQuantity, resp) == st
  {
  }

  /** An accepted update sends one PUT and sets the new quantity on the product's lines only:
      length, order and every other line are kept, and the mirror equals the new list. */
  lemma UpdateAccepted(st: CartState, productId: string, newQuantity: int, resp: Response<()>)
    requires FindItem(st.items, productId).Some?
    requires 1 <= newQuantity <= FindItem(st.items, productId).value.stock
    ensures var st' := UpdateEffect(st, productId, newQuantity, resp);
      && st'.requests == st.requests + [PutQuantity(productId, newQuantity)]
      && (resp.Ok? ==> |st'.items| == |st.items| && st'.mirror == Some(st'.items))
      && (resp.Ok? ==> forall i :: 0 <= i < |st.items| ==>
            if st.items[i].line.productId == productId
            then st'.items[i] == st.items[i].(line := st.items[i].line.(quantity := newQuantity))
            else st'.items[i] == st.items[i])
      && (!resp.Ok? ==> st'.items == st.items && st'.mirror == st.mirror)
  {
  }

  /** A successful removal keeps exactly the lines of other products, every copy of each, in
      their order, and writes them to the mirror; a failed one only records the request. */
  lemma {:induction false} RemoveKeepsOthers(st: CartState, productId: string, resp: Response<()>)
    ensures var st' := RemoveEffect(st, productId, resp);
      && st'.requests == st.requests + [DeleteItem(productId)]
      && (resp.Ok? ==> IsSubsequence(st'.items, st.items) && st'.mirror == Some(st'.items))
      && (resp.Ok? ==> forall x :: x in st'.items <==> x in st.items && x.line.productId != productId)
      && (resp.Ok? ==> forall x ::
            multiset(st'.items)[x] == (if x.line.productId != productId then multiset(st.items)[x] else 0))
      && (!resp.Ok? ==> st'.items == st.items && st'.mirror == st.mirror)
  {
    FilterIsSubsequence(st.items, (x: CartItem) => x.line.productId != productId);
    FilterMultiplicity(st.items, (x: CartItem) => x.line.productId != productId);
  }

  /** After every change the server accepted, the mirror equals the list shown. */
  lemma AcceptedChangeSyncsMirror(st: CartState, productId: string, newQuantity: int, resp: Response<()>)
    requires resp.Ok?
    ensures var st' := RemoveEffect(st, productId, resp); st'.mirror == Some(st'.items)
    ensures var st' := UpdateEffect(st, productId, newQuantity, resp);
      st'.requests != st.requests ==> st'.mirror == Some(st'.items)
  {
  }

  /** Clicking an enabled "+" on the first line of a product is never refused for stock:
      it always sends the PUT with the next quantity. */
  lemma PlusEnabledIsNeverRefused(st: CartState, item: CartItem, resp: Response<()>)
    requires FindItem(st.items, item.line.productId) == Some(item)
    requires !PlusDisabled(item) && item.line.quantity >= 0
    ensures UpdateEffect(st, item.line.productId, item.line.quantity + 1, resp).requests
      == st.requests + [PutQuantity(item.line.productId, item.line.quantity + 1)]
  {
  }

  /** A line whose product lookup was not ok or threw gets stock 0. */
  lemma FailedLookupGetsNoStock(lines: seq<FetchedLine>, i: nat)
    requires i < |lines| && !lines[i].lookup.Ok?
    ensures Stocked(lines)[i].stock == 0
  {
  }

  /** A line with stock 0 is listed as out of stock and not as in stock. */
  lemma ZeroStockIsOutOfStock(items: seq<CartItem>, i: nat)
    requires i < |items| && items[i].stock == 0
    ensures items[i] in OutOfStock(items) && items[i] !in InStock(items)
  {
  }

  /** The in-stock and out-of-stock lists are disjoint subsequences of the cart, and
      together they hold every line whose stock is not negative. */
  lemma {:induction false} StockListsPartition(items: seq<CartItem>)
    ensures forall x :: !(x in InStock(items) && x in OutOfStock(items))
    ensures forall x :: x in items && x.stock >= 0 ==> x in InStock(items) || x in OutOfStock(items)
    ensures IsSubsequence(InStock(items), items) && IsSubsequence(OutOfStock(items), items)
    ensures (forall x :: x in items ==> x.stock >= 0) ==> |InStock(items)| + |OutOfStock(items)| == |items|
  {
    FilterIsSubsequence(items, (x: CartItem) => x.stock > 0);
    FilterIsSubsequence(items, (x: CartItem) => x.stock == 0);
    if forall x :: x in items ==> x.stock >= 0 {
      FilterPartition(items, (x: CartItem) => x.stock > 0, (x: CartItem) => x.stock == 0);
    }
  }

  /** The shipping rule and the total: free shipping exactly when the subtotal exceeds 100,
      otherwise 20; the total is the subtotal plus shipping. */
  lemma ShippingRule(items: seq<CartItem>)
    ensures ShippingFee(ItemsSubtotal(items)) == 0.0 <==> ItemsSubtotal(items) > 100.0
    ensures ItemsSubtotal(items) <= 100.0 ==> ShippingFee(ItemsSubtotal(items)) == 20.0
    ensures Total(items) == ItemsSubtotal(items) + ShippingFee(ItemsSubtotal(items))
  {
  }

  lemma ItemsSubtotalCons(x: CartItem, rest: seq<CartItem>)
    ensures ItemsSubtotal([x] + rest) == LineTotal(x.line) + ItemsSubtotal(rest)
  {
    assert Lines([x] + rest) == [x.line] + Lines(rest);
    SubtotalAppend([x.line], Lines(rest));
    assert [x.line][..0] == [];
  }

  /** The summary charges out-of-stock lines too: with no negative stock, the subtotal is the
      in-stock subtotal plus the out-of-stock subtotal. */
  lemma {:induction false} SubtotalSplitsByStock(items: seq<CartItem>)
    requires forall x :: x in items ==> x.stock >= 0
    ensures ItemsSubtotal(items) == ItemsSubtotal(InStock(items)) + ItemsSubtotal(OutOfStock(items))
  {
    if items != [] {
      var x, rest := items[0], items[1..];
      assert items == [x] + rest;
      SubtotalSplitsByStock(rest);
      ItemsSubtotalCons(x, rest);
      if x.stock > 0 {
        assert InStock(items) == [x] + InStock(rest);
        ItemsSubtotalCons(x, InStock(rest));
      } else {
        assert OutOfStock(items) == [x] + OutOfStock(rest);
        ItemsSubtotalCons(x, OutOfStock(rest));
      }
    }
  }

  // ---------------------------------------------------------------------------
  // The page

  class CartPage {
    var items: seq<CartItem>
    var mirror: Option<seq<CartItem>>
    var requests: seq<CartRequest>
    var navigations: seq<string>
    var loading: bool

    function State(): CartState
      reads this
    {
      CartState(items, mirror, requests)
    }

    constructor ()
      ensures items == [] && mirror == None && requests == [] && navigations == [] && loading
    {
      items, mirror, requests, navigations, loading := [], None, [], [], true;
    }

    /** `fetchCart`: without a token, go to /login; otherwise replace the list as `AfterFetch` says. */
    method FetchCart(token: Option<string>, resp: Response<Option<seq<FetchedLine>>>)
      modifies this
      ensures token.None? ==> items == old(items) && navigations == old(navigations) + ["/login"]
      ensures token.Some? ==> items == AfterFetch(old(items), resp) && navigations == old(navigations)
      ensures mirror == old(mirror) && requests == old(requests) && !loading
    {
      loading := true;
      if token.None? {
        navigations := navigations + ["/login"];
      } else {
        items := AfterFetch(items, resp);
      }
      loading := false;
    }

    method RemoveItem(productId: string, resp: Response<()>)
      modifies this
      ensures State() == RemoveEffect(old(State()), productId, resp)
      ensures navigations == old(navigations) && loading == old(loading)
    {
      requests := requests + [DeleteItem(productId)];
      if resp.Ok? {
        var updated := Without(items, productId);
        items := updated;
        mirror := Some(updated);
      }
    }

    /** `currentQuantity` is passed by the buttons but not used, as in the page. */
    method UpdateQuantity(productId: string, currentQuantity: int, newQuantity: int, resp: Response<()>)
      modifies this
      ensures State() == UpdateEffect(old(State()), productId, newQuantity, resp)
      ensures navigations == old(navigations) && loading == old(loading)
    {
      var found := FindItem(items, productId);
      if found.None? {
        return;
      }
      if newQuantity < 1 {
        RemoveItem(productId, resp);
        return;
      }
      if newQuantity > found.value.stock {
        return;
      }
      requests := requests + [PutQuantity(productId, newQuantity)];
      if resp.Ok? {
        var updated := SetQuantity(items, productId, newQuantity);
        items := updated;
        mirror := Some(updated);
      }
    }
  }
}
