/**
 * The product page (src/pages/ProductDetails.tsx): a quantity stepper clamped to
 * [1, stock], and the "Add to Cart" and "Buy Now" actions. Adding needs a login
 * token, posts one cart line, refreshes the local "cart" entry from the server
 * cart, and returns the added item, or nothing on any failure; "Buy Now" goes to
 * checkout only when an item came back.
 */
module ProductDetails {
  import opened Outcomes
  import opened Cart

  datatype Product = Product(id: string, name: string, price: real, stock: int, imageUrl: Option<string>)

  function Min(a: int, b: int): int { if a <= b then a else b }
  function Max(a: int, b: int): int { if a >= b then a else b }

  /** The "−" handler: `Math.max(1, quantity - 1)`. */
  function Decremented(quantity: int): int { Max(1, quantity - 1) }

  /** The "+" handler: `Math.min(product.stock, quantity + 1)`. */
  function Incremented(quantity: int, stock: int): int { Min(stock, quantity + 1) }

  predicate MinusDisabled(quantity: int) { quantity <= 1 }
  predicate PlusDisabled(quantity: int, stock: int) { quantity >= stock }

  /** The add and buy buttons are rendered only for a product in stock. */
  predicate PurchaseOffered(p: Product) { p.stock > 0 }

  /** The stepper never leaves [1, max(1, stock)]: an enabled "−" lowers by one but not below 1,
      an enabled "+" raises by one but not above the stock. */
  lemma StepperStaysInRange(quantity: int, stock: int)
    requires 1 <= quantity <= Max(1, stock)
    ensures Decremented(quantity) >= 1
    ensures !MinusDisabled(quantity) ==> Decremented(quantity) == quantity - 1
    ensures !PlusDisabled(quantity, stock) ==>
      Incremented(quantity, stock) == quantity + 1 && 1 <= Incremented(quantity, stock) <= Max(1, stock)
  {
  }

  /** In an in-stock product, "+" is disabled exactly at the stock. */
  lemma PlusDisabledAtStock(quantity: int, p: Product)
    requires PurchaseOffered(p) && 1 <= quantity <= p.stock
    ensures PlusDisabled(quantity, p.stock) <==> quantity == p.stock
  {
  }

  const Placeholder := "/placeholder.svg"

  /** `product.imageUrl || '/placeholder.svg'`: an absent or empty URL gives the placeholder. */
  function ImageOf(p: Product): string {
    match p.imageUrl
    case Some(url) => if url != "" then url else Placeholder
    case None => Placeholder
  }

  /** The body of the add-to-cart request. */
  function RequestLine(p: Product, quantity: int): CartLine {
    CartLine(p.id, p.name, p.price, quantity, ImageOf(p))
  }

  /** What adding to the cart leaves behind: the local "cart" entry (None while unwritten),
      the cart lines posted and the paths navigated to. */
  datatype Outputs = Outputs(mirror: Option<seq<CartLine>>, posted: seq<CartLine>, navigations: seq<string>)

  function NavigateTo(out: Outputs, target: Option<string>): Outputs {
    if target.Some? then out.(navigations := out.navigations + [target.value]) else out
  }

  /** The tail of `addToCart` once the cart refresh is done: read the post's body,
      navigate if asked, and return the item (JSON `null` returns nothing). */
  function Finish(out: Outputs, body: Body<CartLine>, navigateTo: Option<string>): (Outputs, Option<CartLine>) {
    match body
    case Unreadable => (out, None)
    case Null => (NavigateTo(out, navigateTo), None)
    case Value(item) => (NavigateTo(out, navigateTo), Some(item))
  }

  /**
   * `addToCart(navigateTo)`: without a token go to /login and send nothing; otherwise post
   * `line`. A post that is not ok or throws returns nothing. After an ok post the server cart
   * is fetched: ok writes `items || []` to the local entry, not ok skips the write, and a
   * throw abandons the call with nothing returned.
   */
  function AddToCart(out: Outputs, line: CartLine, navigateTo: Option<string>, token: Option<string>,
                     post: Response<Body<CartLine>>, cart: Response<Option<seq<CartLine>>>): (Outputs, Option<CartLine>)
  {
    if token.None? then (out.(navigations := out.navigations + ["/login"]), None)
    else
      var sent := out.(posted := out.posted + [line]);
      match post
      case Ok(body) =>
        (match cart
         case Ok(items) => Finish(sent.(mirror := Some(items.GetOr([]))), body, navigateTo)
         case NotOk(_) => Finish(sent, body, navigateTo)
         case Threw => (sent, None))
      case _ => (sent, None)
  }

  /** `handleBuyNow`: add without navigating, then go to /checkout only if an item came back. */
  function BuyNow(out: Outputs, line: CartLine, token: Option<string>,
                  post: Response<Body<CartLine>>, cart: Response<Option<seq<CartLine>>>): Outputs
  {
    var (after, added) := AddToCart(out, line, None, token, post, cart);
    if added.Some? then after.(navigations := after.navigations + ["/checkout"]) else after
  }

  /** Without a token nothing is posted, the page goes to /login, and nothing is returned. */
  lemma NoTokenSendsNothing(out: Outputs, line: CartLine, navigateTo: Option<string>,
                            post: Response<Body<CartLine>>, cart: Response<Option<seq<CartLine>>>)
    ensures var (after, added) := AddToCart(out, line, navigateTo, None, post, cart);
      after.posted == out.posted && after.mirror == out.mirror
      && after.navigations == out.navigations + ["/login"] && added.None?
  {
  }

  /** An item is returned exactly when there is a token, the post is ok with a non-null
      readable body, and the cart refresh did not throw; a failed post leaves the local
      entry and the navigations as they were. */
  lemma AddedOnlyOnSuccess(out: Outputs, line: CartLine, navigateTo: Option<string>, token: Option<string>,
                           post: Response<Body<CartLine>>, cart: Response<Option<seq<CartLine>>>)
    ensures var (after, added) := AddToCart(out, line, navigateTo, token, post, cart);
      && (added.Some? <==> token.Some? && post.Ok? && post.body.Value? && !cart.Threw?)
      && (added.Some? ==> added.value == post.body.v)
      && (token.Some? && !post.Ok? ==> after == out.(posted := out.posted + [line]))
      && (token.Some? ==> after.posted == out.posted + [line])
  {
  }

  /** "Buy Now" goes to /checkout exactly when an item was added, and never otherwise. */
  lemma BuyNowNeedsAddedItem(out: Outputs, line: CartLine, token: Option<string>,
                             post: Response<Body<CartLine>>, cart: Response<Option<seq<CartLine>>>)
    ensures var (after, added) := AddToCart(out, line, None, token, post, cart);
      BuyNow(out, line, token, post, cart).navigations
        == after.navigations + (if added.Some? then ["/checkout"] else [])
    ensures var (after, added) := AddToCart(out, line, None, token, post, cart);
      token.Some? ==> after.navigations == out.navigations
  {
  }

  class ProductPage {
    var product: Option<Product>
    var loading: bool
    var quantity: int
    var mirror: Option<seq<CartLine>>
    var posted: seq<CartLine>
    var navigations: seq<string>

    function Outs(): Outputs
      reads this
    {
      Outputs(mirror, posted, navigations)
    }

    ghost predicate Valid()
      reads this
    {
      quantity >= 1
    }

    constructor ()
      ensures Valid() && quantity == 1 && product == None && loading
      ensures mirror == None && posted == [] && navigations == []
    {
      product, loading, quantity := None, true, 1;
      mirror, posted, navigations := None, [], [];
    }

    /** Loading the product: an ok answer shows it; anything else shows "Product Not Found". */
    method FetchProduct(resp: Response<Product>)
      requires Valid()
      modifies this
      ensures Valid() && !loading && quantity == old(quantity)
      ensures product == (if resp.Ok? then Some(resp.body) else None)
      ensures Outs() == old(Outs())
    {
      loading := true;
      product := if resp.Ok? then Some(resp.body) else None;
      loading := false;
    }

    /** A click on "−"; a disabled button receives no click. */
    method PressMinus()
      requires Valid()
      modifies this
      ensures Valid()
      ensures quantity == if MinusDisabled(old(quantity)) then old(quantity) else Decremented(old(quantity))
      ensures product == old(product) && Outs() == old(Outs())
    {
      if !MinusDisabled(quantity) {
        quantity := Decremented(quantity);
      }
    }

    /** A click on "+"; a disabled button receives no click. */
    method PressPlus()
      requires Valid() && product.Some?
      modifies this
      ensures Valid() && product == old(product) && Outs() == old(Outs())
      ensures quantity == if PlusDisabled(old(quantity), product.value.stock) then old(quantity)
        else Incremented(old(quantity), product.value.stock)
      ensures old(quantity) <= Max(1, product.value.stock) ==> quantity <= Max(1, product.value.stock)
    {
      if !PlusDisabled(quantity, product.value.stock) {
        quantity := Incremented(quantity, product.value.stock);
      }
    }

    method AddToCartAction(navigateTo: Option<string>, token: Option<string>,
                           post: Response<Body<CartLine>>, cart: Response<Option<seq<CartLine>>>)
      returns (added: Option<CartLine>)
      requires Valid() && product.Some?
      modifies this
      ensures Valid() && product == old(product) && quantity == old(quantity)
      ensures (Outs(), added) == AddToCart(old(Outs()), RequestLine(product.value, quantity), navigateTo, token, post, cart)
    {
      var line := RequestLine(product.value, quantity);
      if token.None? {
        navigations := navigations + ["/login"];
        return None;
      }
      posted := posted + [line];
      if !post.Ok? {
        return None;
      }
      match cart {
        case Threw =>
          return None;
        case NotOk(_) =>
        case Ok(items) =>
          mirror := Some(items.GetOr([]));
      }
      match post.body {
        case Unreadable =>
          return None;
        case Null =>
          added := None;
        case Value(item) =>
          added := Some(item);
      }
      if navigateTo.Some? {
        navigations := navigations + [navigateTo.value];
      }
    }

    /** "Add to Cart": add, then go to /cart. */
    method HandleAddToCart(token: Option<string>, post: Response<Body<CartLine>>, cart: Response<Option<seq<CartLine>>>)
      requires Valid() && product.Some? && PurchaseOffered(product.value)
      modifies this
      ensures Valid() && product == old(product) && quantity == old(quantity)
      ensures Outs() == AddToCart(old(Outs()), RequestLine(product.value, quantity), Some("/cart"), token, post, cart).0
    {
      var _ := AddToCartAction(Some("/cart"), token, post, cart);
    }

    /** "Buy Now". */
    method HandleBuyNow(token: Option<string>, post: Response<Body<CartLine>>, cart: Response<Option<seq<CartLine>>>)
      requires Valid() && product.Some? && PurchaseOffered(product.value)
      modifies this
      ensures Valid() && product == old(product) && quantity == old(quantity)
      ensures Outs() == BuyNow(old(Outs()), RequestLine(product.value, quantity), token, post, cart)
    {
      var added := AddToCartAction(None, token, post, cart);
      if added.Some? {
        navigations := navigations + ["/checkout"];
      }
    }
  }
}
