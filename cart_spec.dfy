/** The persisted shopping cart of features/cart.js, as values.
    The "cart" key of localStorage is either absent or holds an ordered list of
    `{ "id", "quantity" }` records. `addToCart` and `removeFromCart` work on a parsed
    copy and write it back only when they change something; `clearCart` deletes the
    key; the loaders only read it. This module gives each handler's effect on the
    record as a function; module Cart runs the same steps imperatively and is proved
    to agree. */
module CartSpec {

  datatype Option<+T> = None | Some(value: T)

  /** One record of the stored list. */
  datatype Item = Item(id: string, quantity: int)

  /** How a handler ended: it ran to completion, or a TypeError escaped it. */
  datatype Status = Completed | TypeError

  /** What the cart page shows: the "cart-empty" paragraph, or one cost cell per
      line followed by the total row. */
  datatype CartView = EmptyNotice | Listing(costs: seq<int>, total: int)

  /** The list every reader works on: a missing record reads as the empty list. */
  function Items(r: Option<seq<Item>>): seq<Item>
  {
    if r.Some? then r.value else []
  }

  /** Some record of `s` carries `id`. */
  predicate Contains(s: seq<Item>, id: string)
  {
    exists j :: 0 <= j < |s| && s[j].id == id
  }

  /** `findIndex` with the test `product["id"] === id`: the first position holding
      `id`, or -1 when there is none. */
  function FindIndex(s: seq<Item>, id: string): (r: int)
    ensures -1 <= r < |s|
    ensures r == -1 <==> !Contains(s, id)
    ensures r != -1 ==> s[r].id == id && forall j :: 0 <= j < r ==> s[j].id != id
  {
    if s == [] then -1
    else if s[0].id == id then 0
    else
      var k := FindIndex(s[1..], id);
      assert forall j :: 0 < j < |s| ==> s[j] == s[1..][j - 1];
      if k == -1 then -1 else k + 1
  }

  /** The store's invariant: no record at zero or below, no id twice. */
  predicate WellFormed(s: seq<Item>)
  {
    (forall j :: 0 <= j < |s| ==> s[j].quantity > 0) &&
    (forall i, j :: 0 <= i < j < |s| ==> s[i].id != s[j].id)
  }

  /** Every id of `t` already occurs in `s`. */
  predicate IdsWithin(t: seq<Item>, s: seq<Item>)
  {
    forall j :: 0 <= j < |t| ==> Contains(s, t[j].id)
  }

  /** The sum of `w` over the records, accumulated front to back as the loops do. */
  function SumOf(s: seq<Item>, w: Item -> int): int
  {
    if s == [] then 0 else SumOf(s[..|s| - 1], w) + w(s[|s| - 1])
  }

  function Quantity(it: Item): int
  {
    it.quantity
  }

  /** The cost of one line, quantity times unit price. */
  function LineCost(price: string -> int): Item -> int
  {
    (it: Item) => it.quantity * price(it.id)
  }

  /** The value the cart-counter badge must show: the sum of the stored quantities. */
  function Counter(r: Option<seq<Item>>): (c: int)
    ensures r.None? ==> c == 0
    ensures WellFormed(Items(r)) ==> c >= |Items(r)|
    ensures WellFormed(Items(r)) ==> (c == 0 <==> Items(r) == [])
  {
    if WellFormed(Items(r)) then QuantitiesCoverLines(Items(r)); SumOf(Items(r), Quantity)
    else SumOf(Items(r), Quantity)
  }

  /** With every quantity positive, the summed quantities are at least the number
      of lines. */
  lemma {:induction false} QuantitiesCoverLines(s: seq<Item>)
    requires forall j :: 0 <= j < |s| ==> s[j].quantity > 0
    ensures SumOf(s, Quantity) >= |s|
  {
    if s != [] {
      QuantitiesCoverLines(s[..|s| - 1]);
    }
  }

  /** The sum of a column of numbers, front to back. */
  function SumInts(xs: seq<int>): int
  {
    if xs == [] then 0 else SumInts(xs[..|xs| - 1]) + xs[|xs| - 1]
  }

  /** The cart total: the sum of the line costs, in cart order. */
  function Total(s: seq<Item>, price: string -> int): int
  {
    SumOf(s, LineCost(price))
  }

  /** The cost column of the cart table. */
  function LineCosts(s: seq<Item>, price: string -> int): seq<int>
  {
    seq(|s|, k requires 0 <= k < |s| => LineCost(price)(s[k]))
  }

  /** What `loadCartTable` renders for the list `s`. */
  function View(s: seq<Item>, price: string -> int): (v: CartView)
    ensures v.EmptyNotice? <==> s == []
    ensures v.Listing? ==> |v.costs| == |s|
    ensures v.Listing? ==> forall k :: 0 <= k < |s| ==> v.costs[k] == s[k].quantity * price(s[k].id)
    ensures v.Listing? ==> v.total == SumInts(v.costs)
  {
    if |s| > 0 then TotalOfCosts(s, price); Listing(LineCosts(s, price), Total(s, price)) else EmptyNotice
  }

  /** The total row is the sum of the cost cells above it. */
  lemma {:induction false} TotalOfCosts(s: seq<Item>, price: string -> int)
    ensures Total(s, price) == SumInts(LineCosts(s, price))
  {
    if s != [] {
      var front := s[..|s| - 1];
      TotalOfCosts(front, price);
      assert LineCosts(s, price)[..|s| - 1] == LineCosts(front, price);
    }
  }

  /** The quantity held by the first record for `id`, 0 when there is none; a
      reference reading of the cart, defined independently of FindIndex. */
  function QuantityOf(s: seq<Item>, id: string): int
  {
    if s == [] then 0
    else if s[0].id == id then s[0].quantity
    else QuantityOf(s[1..], id)
  }

  /** `splice(i, 1)` on a list. */
  function Splice(s: seq<Item>, i: nat): seq<Item>
    requires i < |s|
  {
    s[..i] + s[i + 1..]
  }

  /** `removeFromCart(id)`: the stored record afterwards. An absent record and a list
      without `id` are left as they are (nothing is written). */
  function RemoveRecord(r: Option<seq<Item>>, id: string): (res: Option<seq<Item>>)
    ensures res.None? <==> r.None?
    ensures |Items(res)| == if FindIndex(Items(r), id) == -1 then |Items(r)| else |Items(r)| - 1
  {
    match r
    case None => None
    case Some(s) =>
      var index := FindIndex(s, id);
      if index == -1 then r else Some(Splice(s, index))
  }

  /** `addToCart(id, quantity)` as written: the status and the stored record
      afterwards. For an id not in the cart the new record is pushed onto the local
      copy only, `index` stays -1, and reading `products[-1]["quantity"]` throws
      before anything is written. For a present id whose quantity would fall to zero
      or below, `removeFromCart` re-reads the unmodified record and splices it. */
  function AddRecord(r: Option<seq<Item>>, id: string, quantity: int): (res: (Status, Option<seq<Item>>))
    ensures res.0 == TypeError ==> res.1 == r
    ensures res.1.None? ==> r.None?
    ensures |Items(res.1)| <= |Items(r)|
  {
    var s := Items(r);
    var index := FindIndex(s, id);
    if index == -1 then (TypeError, r)
    else if s[index].quantity + quantity <= 0 then (Completed, RemoveRecord(r, id))
    else (Completed, Some(s[index := Item(id, s[index].quantity + quantity)]))
  }

  /** The behaviour the doc comment of `addToCart` describes: a product not in the
      cart is appended with the given quantity (and nothing happens when that
      quantity is not positive, since the removal then finds no match). */
  function IntendedAddRecord(r: Option<seq<Item>>, id: string, quantity: int): (res: Option<seq<Item>>)
    ensures |Items(res)| <= |Items(r)| + 1
    ensures res.None? ==> r.None?
  {
    var s := Items(r);
    if FindIndex(s, id) == -1 then
      (if quantity > 0 then Some(s + [Item(id, quantity)]) else r)
    else
      AddRecord(r, id, quantity).1
  }

  /** `clickCartAction`'s effect on the record for a button carrying `action` and `id`;
      the total row's remove button has the empty id and clears the cart. */
  function ClickRecord(r: Option<seq<Item>>, action: string, id: string): (res: (Status, Option<seq<Item>>))
    ensures res.0 == TypeError ==> res.1 == r && action in {"increase", "decrease"}
    ensures |Items(res.1)| <= |Items(r)|
  {
    if action == "increase" then AddRecord(r, id, 1)
    else if action == "decrease" then AddRecord(r, id, -1)
    else if action == "remove" then (Completed, if id != "" then RemoveRecord(r, id) else None)
    else (Completed, r)
  }
}
