/** The handlers of features/cart.js over the page state they read and write: the
    "cart" key of localStorage, the cart-counter badge, the cart table and the
    purchase button. Each method runs the same steps as its handler and is proved to
    leave the state that module CartSpec describes. */
module Cart {
  import opened CartSpec
  import CartProperties

  /** The badge loop of `loadCartCounter`: the quantities summed front to back. */
  method SumQuantities(products: seq<Item>) returns (total: int)
    ensures total == SumOf(products, Quantity)
  {
    total := 0;
    var i := 0;
    while i < |products|
      invariant 0 <= i <= |products|
      invariant total == SumOf(products[..i], Quantity)
    {
      assert products[..i + 1][..i] == products[..i];
      total := total + products[i].quantity;
      i := i + 1;
    }
    assert products[..i] == products;
  }

  /** The row loop of `loadCartTable`: one cost cell per line, quantity times the
      looked-up price, and the running total, in cart order. */
  method RenderLines(products: seq<Item>, price: string -> int) returns (costs: seq<int>, total: int)
    ensures |costs| == |products|
    ensures forall k :: 0 <= k < |products| ==> costs[k] == products[k].quantity * price(products[k].id)
    ensures total == Total(products, price)
  {
    costs, total := [], 0;
    var i := 0;
    while i < |products|
      invariant 0 <= i <= |products|
      invariant |costs| == i
      invariant forall k :: 0 <= k < i ==> costs[k] == products[k].quantity * price(products[k].id)
      invariant total == Total(products[..i], price)
    {
      assert products[..i + 1][..i] == products[..i];
      var cost := products[i].quantity * price(products[i].id);
      costs := costs + [cost];
      total := total + cost;
      i := i + 1;
    }
    assert products[..i] == products;
  }

  class CartStore {
    /** The "cart" key of localStorage, parsed: absent, or the ordered list. */
    var stored: Option<seq<Item>>
    /** The number the cart-counter badge shows. */
    var counter: int
    /** The cart table as last rendered. */
    var view: CartView
    /** Whether the purchase button is disabled. */
    var purchaseDisabled: bool

    /** The store invariant, and the badge in step with the record. */
    ghost predicate Valid()
      reads this
    {
      WellFormed(Items(stored)) && counter == Counter(stored)
    }

    /** A page whose storage holds `record` and whose badge has been loaded from it. */
    constructor (record: Option<seq<Item>>)
      ensures stored == record && counter == Counter(record)
      ensures view == EmptyNotice && !purchaseDisabled
      ensures WellFormed(Items(record)) ==> Valid()
    {
      stored, counter := record, 0;
      view, purchaseDisabled := EmptyNotice, false;
      new;
      LoadCartCounter();
    }

    /** `loadCartCounter`: the badge shows the sum of the stored quantities, 0 for an
        absent record. */
    method LoadCartCounter()
      modifies this`counter
      ensures counter == Counter(stored)
    {
      if stored.Some? {
        counter := SumQuantities(stored.value);
      } else {
        counter := 0;
      }
    }

    /** `removeFromCart(id)`: the first record with `id` is spliced out and written
        back; with no record or no match nothing is written. Then the badge. */
    method RemoveFromCart(id: string)
      modifies this`stored, this`counter
      ensures stored == RemoveRecord(old(stored), id)
      ensures counter == Counter(stored)
      ensures old(Valid()) ==> Valid()
    {
      ghost var before := stored;
      if stored.Some? {
        var products := stored.value;
        var index := FindIndex(products, id);
        if index != -1 {
          products := products[..index] + products[index + 1..];
          stored := Some(products);
        }
      }
      LoadCartCounter();
      if WellFormed(Items(before)) {
        CartProperties.RemoveKeepsWellFormed(before, id);
      }
    }

    /** `clearCart`: the record is removed (not emptied) and the badge shows 0. */
    method ClearCart()
      modifies this`stored, this`counter
      ensures stored == None && counter == 0
      ensures Valid()
    {
      stored := None;
      LoadCartCounter();
    }

    /** `addToCart(id, quantity)` as written. A present product has `quantity` added
        on the parsed copy; the result is written back when positive, and otherwise
        the product is removed from the stored record. A product not in the cart is
        pushed onto the copy, but `index` is still -1, so reading
        `products[-1]["quantity"]` throws: nothing is written and the badge is not
        reloaded. */
    method AddToCart(id: string, quantity: int) returns (status: Status)
      modifies this`stored, this`counter
      ensures (status, stored) == AddRecord(old(stored), id, quantity)
      ensures status == Completed ==> counter == Counter(stored)
      ensures status == TypeError ==> counter == old(counter)
      ensures old(Valid()) ==> Valid()
    {
      ghost var before := stored;
      var products := Items(stored);
      var index := FindIndex(products, id);
      if index == -1 {
        products := products + [Item(id, quantity)];
      } else {
        products := products[index := Item(products[index].id, products[index].quantity + quantity)];
      }
      if index == -1 {
        // products[-1] is undefined: the TypeError leaves the handler here
        return TypeError;
      }
      if products[index].quantity <= 0 {
        assert AddRecord(before, id, quantity) == (Completed, RemoveRecord(before, id));
        RemoveFromCart(id);
      } else {
        assert AddRecord(before, id, quantity) == (Completed, Some(products));
        stored := Some(products);
      }
      LoadCartCounter();
      status := Completed;
      if WellFormed(Items(before)) {
        CartProperties.AddKeepsWellFormed(before, id, quantity);
      }
    }

    /** `addToCart` with the new-item path repaired (`index` set to the pushed
        record), which is what its doc comment describes; not called by the
        handlers of this model, which follow the code as written. */
    method AddToCartIntended(id: string, quantity: int)
      modifies this`stored, this`counter
      ensures stored == IntendedAddRecord(old(stored), id, quantity)
      ensures counter == Counter(stored)
      ensures old(Valid()) ==> Valid()
    {
      ghost var before := stored;
      var products := Items(stored);
      var index := FindIndex(products, id);
      if index == -1 {
        products := products + [Item(id, quantity)];
        index := |products| - 1;
      } else {
        products := products[index := Item(products[index].id, products[index].quantity + quantity)];
      }
      if products[index].quantity <= 0 {
        assert IntendedAddRecord(before, id, quantity) == RemoveRecord(before, id);
        RemoveFromCart(id);
      } else {
        assert IntendedAddRecord(before, id, quantity) == Some(products);
        stored := Some(products);
      }
      LoadCartCounter();
      if WellFormed(Items(before)) {
        CartProperties.IntendedAddKeepsWellFormed(before, id, quantity);
      }
    }

    /** `loadCartTable`, with the product lookup given as `price`: a missing record
        is the empty list; a non-empty list is rendered with its line costs and
        total, an empty one as the empty notice; purchase is disabled exactly when
        the list is empty. */
    method LoadCartTable(price: string -> int)
      modifies this`view, this`purchaseDisabled
      ensures view == View(Items(stored), price)
      ensures purchaseDisabled <==> Items(stored) == []
    {
      var products := Items(stored);
      if |products| > 0 {
        var costs, total := RenderLines(products, price);
        view := Listing(costs, total);
      } else {
        view := EmptyNotice;
      }
      purchaseDisabled := |products| == 0;
    }

    /** `clickCartAction` for a button carrying `action` and `id`, then the table is
        rendered again, unless the action threw first. */
    method ClickCartAction(action: string, id: string, price: string -> int) returns (status: Status)
      modifies this`stored, this`counter, this`view, this`purchaseDisabled
      ensures (status, stored) == ClickRecord(old(stored), action, id)
      ensures status == Completed ==> view == View(Items(stored), price)
      ensures status == Completed ==> (purchaseDisabled <==> Items(stored) == [])
      ensures status == TypeError ==>
        counter == old(counter) && view == old(view) && purchaseDisabled == old(purchaseDisabled)
      ensures status == Completed && action in {"increase", "decrease", "remove"} ==> counter == Counter(stored)
      ensures action !in {"increase", "decrease", "remove"} ==> counter == old(counter)
      ensures old(Valid()) ==> Valid()
    {
      if action == "increase" {
        status := AddToCart(id, 1);
      } else if action == "decrease" {
        status := AddToCart(id, -1);
      } else if action == "remove" {
        if id != "" {
          RemoveFromCart(id);
        } else {
          ClearCart();
        }
        status := Completed;
      } else {
        status := Completed;
      }
      if status == TypeError {
        return;
      }
      LoadCartTable(price);
    }
  }
}
