/**
 * The `items` field of an order as the backend sends it, shared by the order
 * page and the admin orders page: either a list of lines, a JSON string that
 * holds the list, or something else (absent, or another JSON value). Both
 * pages replace a string by its parse, or by the empty list when it does not
 * parse. `JSON.parse` is a parameter: the model does not decode JSON.
 */
module OrderData {
  import opened Outcomes

  datatype OrderItem = OrderItem(productId: string, name: string, price: real, quantity: int)

  datatype Items = List(lines: seq<OrderItem>) | Text(raw: string) | Other

  /** `JSON.parse` on an items string: None when it throws. */
  type Parser = string -> Option<Items>

  /** `typeof items === "string" ? (JSON.parse(items), or [] if it throws) : items`. */
  function NormaliseItems(items: Items, parse: Parser): (r: Items)
    ensures !items.Text? ==> r == items
    ensures items.Text? && parse(items.raw).Some? ==> r == parse(items.raw).value
    ensures items.Text? && parse(items.raw).None? ==> r == List([])
    ensures r.Text? ==> items.Text? && parse(items.raw) == Some(r)
  {
    match items
    case Text(raw) => parse(raw).GetOr(List([]))
    case _ => items
  }

  /** `Array.isArray(items) ? items.length : 0`. */
  function ItemsCount(items: Items): (n: nat)
    ensures items.List? ==> n == |items.lines|
    ensures !items.List? ==> n == 0
  {
    if items.List? then |items.lines| else 0
  }

  /** A string that parses to a list counts that list's lines. */
  lemma ParsedItemsCount(raw: string, parse: Parser, lines: seq<OrderItem>)
    requires parse(raw) == Some(List(lines))
    ensures NormaliseItems(Text(raw), parse) == List(lines)
    ensures ItemsCount(NormaliseItems(Text(raw), parse)) == |lines|
  {
  }

  /** A string that does not parse counts as no items. */
  lemma UnparsableItemsCountZero(raw: string, parse: Parser)
    requires parse(raw).None?
    ensures ItemsCount(NormaliseItems(Text(raw), parse)) == 0
  {
  }
}
