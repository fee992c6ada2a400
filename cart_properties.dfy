/** What the cart handlers of features/cart.js guarantee about the stored record:
    the effect of each one on the list, the store invariant (positive quantities,
    unique ids), the badge and the total, and the corrected `addToCart`. */
module CartProperties {
  import opened CartSpec

  // ----- sums over the list -----

  lemma {:induction false} SumOfAppend(a: seq<Item>, b: seq<Item>, w: Item -> int)
    ensures SumOf(a + b, w) == SumOf(a, w) + SumOf(b, w)
    decreases |b|
  {
    if b == [] {
      assert a + b == a;
    } else {
      var b' := b[..|b| - 1];
      assert (a + b)[..|a + b| - 1] == a + b';
      SumOfAppend(a, b', w);
    }
  }

  lemma {:induction false} SumOfSingleton(x: Item, w: Item -> int)
    ensures SumOf([x], w) == w(x)
  {
    assert [x][..0] == [];
  }

  lemma {:induction false} SumOfMiddle(a: seq<Item>, x: Item, b: seq<Item>, w: Item -> int)
    ensures SumOf(a + [x] + b, w) == SumOf(a, w) + w(x) + SumOf(b, w)
  {
    SumOfAppend(a + [x], b, w);
    SumOfAppend(a, [x], w);
    SumOfSingleton(x, w);
  }

  /** Splicing out one record takes exactly its weight off the sum. */
  lemma {:induction false} SumOfSplice(s: seq<Item>, i: nat, w: Item -> int)
    requires i < |s|
    ensures SumOf(Splice(s, i), w) == SumOf(s, w) - w(s[i])
  {
    var a, x, b := s[..i], s[i], s[i + 1..];
    assert s == a + [x] + b;
    SumOfMiddle(a, x, b, w);
    SumOfAppend(a, b, w);
  }

  /** Replacing one record changes the sum by the difference of the weights. */
  lemma {:induction false} SumOfUpdate(s: seq<Item>, i: nat, x: Item, w: Item -> int)
    requires i < |s|
    ensures SumOf(s[i := x], w) == SumOf(s, w) - w(s[i]) + w(x)
  {
    var a, y, b := s[..i], s[i], s[i + 1..];
    assert s == a + [y] + b;
    assert s[i := x] == a + [x] + b;
    SumOfMiddle(a, y, b, w);
    SumOfMiddle(a, x, b, w);
  }

  // ----- the reference reading QuantityOf -----

  lemma {:induction false} QuantityOfAbsent(s: seq<Item>, id: string)
    requires !Contains(s, id)
    ensures QuantityOf(s, id) == 0
  {
    if s != [] {
      assert forall j :: 0 <= j < |s| - 1 ==> s[1..][j] == s[j + 1];
      QuantityOfAbsent(s[1..], id);
    }
  }

  /** QuantityOf reads the record FindIndex finds. */
  lemma {:induction false} QuantityOfFirst(s: seq<Item>, id: string)
    ensures QuantityOf(s, id) == (var k := FindIndex(s, id); if k == -1 then 0 else s[k].quantity)
  {
    if s != [] && s[0].id != id {
      QuantityOfFirst(s[1..], id);
    }
  }

  lemma {:induction false} QuantityOfAppend(a: seq<Item>, b: seq<Item>, id: string)
    ensures QuantityOf(a + b, id) == if Contains(a, id) then QuantityOf(a, id) else QuantityOf(b, id)
  {
    if a == [] {
      assert a + b == b;
    } else {
      assert (a + b)[1..] == a[1..] + b;
      assert forall j :: 0 <= j < |a| - 1 ==> a[1..][j] == a[j + 1];
      assert a[0].id != id ==> (Contains(a, id) <==> Contains(a[1..], id));
      QuantityOfAppend(a[1..], b, id);
    }
  }

  /** Two lists with the same ids at the same positions have the same FindIndex. */
  lemma {:induction false} SameIdsSameIndex(s: seq<Item>, t: seq<Item>, id: string)
    requires |s| == |t|
    requires forall j :: 0 <= j < |s| ==> s[j].id == t[j].id
    ensures FindIndex(s, id) == FindIndex(t, id)
  {
    if s != [] {
      assert forall j :: 0 <= j < |s| - 1 ==> s[1..][j] == s[j + 1] && t[1..][j] == t[j + 1];
      SameIdsSameIndex(s[1..], t[1..], id);
    }
  }

  lemma {:induction false} QuantityOfUpdate(s: seq<Item>, i: nat, q: int, id: string)
    requires i < |s|
    ensures QuantityOf(s[i := Item(s[i].id, q)], id) == if FindIndex(s, id) == i then q else QuantityOf(s, id)
  {
    var t := s[i := Item(s[i].id, q)];
    SameIdsSameIndex(s, t, id);
    QuantityOfFirst(s, id);
    QuantityOfFirst(t, id);
  }

  lemma {:induction false} QuantityOfSplice(s: seq<Item>, i: nat, id: string)
    requires i < |s|
    requires id != s[i].id
    ensures QuantityOf(Splice(s, i), id) == QuantityOf(s, id)
  {
    var a, b := s[..i], s[i + 1..];
    assert s == a + [s[i]] + b;
    assert a + [s[i]] + b == a + ([s[i]] + b);
    QuantityOfAppend(a, [s[i]] + b, id);
    QuantityOfAppend(a, b, id);
    assert ([s[i]] + b)[1..] == b;
  }

  // ----- the store invariant -----

  lemma {:induction false} SpliceParts(s: seq<Item>, i: nat)
    requires i < |s|
    ensures |Splice(s, i)| == |s| - 1
    ensures forall j :: 0 <= j < i ==> Splice(s, i)[j] == s[j]
    ensures forall j :: i <= j < |s| - 1 ==> Splice(s, i)[j] == s[j + 1]
  {
  }

  lemma {:induction false} SpliceKeepsWellFormed(s: seq<Item>, i: nat)
    requires i < |s| && WellFormed(s)
    ensures WellFormed(Splice(s, i))
  {
    SpliceParts(s, i);
    var t := Splice(s, i);
    forall a, b | 0 <= a < b < |t|
      ensures t[a].id != t[b].id
    {
      var a' := if a < i then a else a + 1;
      var b' := if b < i then b else b + 1;
      assert t[a] == s[a'] && t[b] == s[b'];
    }
  }

  lemma {:induction false} SpliceIdsWithin(s: seq<Item>, i: nat)
    requires i < |s|
    ensures IdsWithin(Splice(s, i), s)
  {
    SpliceParts(s, i);
    var t := Splice(s, i);
    forall j | 0 <= j < |t|
      ensures Contains(s, t[j].id)
    {
      var j' := if j < i then j else j + 1;
      assert t[j] == s[j'];
    }
  }

  lemma {:induction false} SelfIdsWithin(s: seq<Item>)
    ensures IdsWithin(s, s)
  {
    forall j | 0 <= j < |s|
      ensures Contains(s, s[j].id)
    {
    }
  }

  lemma {:induction false} UpdateIdsWithin(s: seq<Item>, i: nat, q: int)
    requires i < |s|
    ensures IdsWithin(s[i := Item(s[i].id, q)], s)
  {
    var t := s[i := Item(s[i].id, q)];
    forall j | 0 <= j < |t|
      ensures Contains(s, t[j].id)
    {
      assert t[j].id == s[j].id;
    }
  }

  lemma {:induction false} IdsWithinTrans(a: seq<Item>, b: seq<Item>, c: seq<Item>)
    requires IdsWithin(a, b) && IdsWithin(b, c)
    ensures IdsWithin(a, c)
  {
    forall j | 0 <= j < |a|
      ensures Contains(c, a[j].id)
    {
      assert Contains(b, a[j].id);
      var i :| 0 <= i < |b| && b[i].id == a[j].id;
      assert Contains(c, b[i].id);
    }
  }

  // ----- removeFromCart -----

  /** A match exists: exactly the first record with `id` is taken out, and the rest
      keep their relative order. */
  lemma {:induction false} RemoveFirstMatch(r: Option<seq<Item>>, id: string, i: nat)
    requires i < |Items(r)| && Items(r)[i].id == id
    requires forall j :: 0 <= j < i ==> Items(r)[j].id != id
    ensures RemoveRecord(r, id).Some?
    ensures var t := RemoveRecord(r, id).value;
      |t| == |Items(r)| - 1 && Items(r) == t[..i] + [Items(r)[i]] + t[i..]
  {
    var s := Items(r);
    assert FindIndex(s, id) == i;
    var t := Splice(s, i);
    assert t[..i] == s[..i] && t[i..] == s[i + 1..];
    assert s == s[..i] + [s[i]] + s[i + 1..];
  }

  /** No match (or no record at all): nothing is written. */
  lemma {:induction false} RemoveNoMatch(r: Option<seq<Item>>, id: string)
    requires !Contains(Items(r), id)
    ensures RemoveRecord(r, id) == r
  {
  }

  lemma {:induction false} RemoveKeepsWellFormed(r: Option<seq<Item>>, id: string)
    requires WellFormed(Items(r))
    ensures WellFormed(Items(RemoveRecord(r, id)))
  {
    if r.Some? && FindIndex(r.value, id) != -1 {
      SpliceKeepsWellFormed(r.value, FindIndex(r.value, id));
    }
  }

  lemma {:induction false} RemoveIdsWithin(r: Option<seq<Item>>, id: string)
    ensures IdsWithin(Items(RemoveRecord(r, id)), Items(r))
  {
    if r.Some? && FindIndex(r.value, id) != -1 {
      SpliceIdsWithin(r.value, FindIndex(r.value, id));
    } else {
      SelfIdsWithin(Items(r));
    }
  }

  /** After a removal the product holds nothing and every other product keeps its
      quantity. */
  lemma {:induction false} RemoveQuantities(r: Option<seq<Item>>, id: string, other: string)
    requires WellFormed(Items(r))
    ensures QuantityOf(Items(RemoveRecord(r, id)), id) == 0
    ensures other != id ==> QuantityOf(Items(RemoveRecord(r, id)), other) == QuantityOf(Items(r), other)
  {
    var s := Items(r);
    var k := FindIndex(s, id);
    if k == -1 {
      QuantityOfAbsent(s, id);
    } else {
      var t := Splice(s, k);
      SpliceParts(s, k);
      forall j | 0 <= j < |t|
        ensures t[j].id != id
      {
        var j' := if j < k then j else j + 1;
        assert t[j] == s[j'] && j' != k;
      }
      QuantityOfAbsent(t, id);
      if other != id {
        QuantityOfSplice(s, k, other);
      }
    }
  }

  /** The badge drops by exactly the quantity of the record removed. */
  lemma {:induction false} RemoveCounter(r: Option<seq<Item>>, id: string)
    ensures Counter(RemoveRecord(r, id)) == Counter(r) - QuantityOf(Items(r), id)
  {
    var s := Items(r);
    QuantityOfFirst(s, id);
    if r.Some? && FindIndex(s, id) != -1 {
      SumOfSplice(s, FindIndex(s, id), Quantity);
    }
  }

  // ----- addToCart as written -----

  /** The new-item path: addToCart throws exactly when the id is not in the cart,
      and then the record is left as it was. */
  lemma {:induction false} AddThrowsIffAbsent(r: Option<seq<Item>>, id: string, quantity: int)
    ensures AddRecord(r, id, quantity).0 == TypeError <==> !Contains(Items(r), id)
    ensures AddRecord(r, id, quantity).0 == TypeError ==> AddRecord(r, id, quantity).1 == r
  {
  }

  /** A present product whose quantity stays positive: only its record changes, by
      `quantity`, in place. */
  lemma {:induction false} AddUpdatesExisting(r: Option<seq<Item>>, id: string, quantity: int, i: nat)
    requires i < |Items(r)| && Items(r)[i].id == id
    requires forall j :: 0 <= j < i ==> Items(r)[j].id != id
    requires Items(r)[i].quantity + quantity > 0
    ensures AddRecord(r, id, quantity).0 == Completed && AddRecord(r, id, quantity).1.Some?
    ensures var t := Items(AddRecord(r, id, quantity).1);
      |t| == |Items(r)| && t[i] == Item(id, Items(r)[i].quantity + quantity) &&
      forall j :: 0 <= j < |t| && j != i ==> t[j] == Items(r)[j]
  {
    assert FindIndex(Items(r), id) == i;
  }

  /** A present product whose quantity would fall to zero or below: its record is
      taken out of the stored list and nothing else changes. */
  lemma {:induction false} AddRemovesWhenNonPositive(r: Option<seq<Item>>, id: string, quantity: int, i: nat)
    requires i < |Items(r)| && Items(r)[i].id == id
    requires forall j :: 0 <= j < i ==> Items(r)[j].id != id
    requires Items(r)[i].quantity + quantity <= 0
    ensures AddRecord(r, id, quantity).0 == Completed && AddRecord(r, id, quantity).1.Some?
    ensures var t := AddRecord(r, id, quantity).1.value;
      |t| == |Items(r)| - 1 && Items(r) == t[..i] + [Items(r)[i]] + t[i..]
  {
    assert FindIndex(Items(r), id) == i;
    RemoveFirstMatch(r, id, i);
  }

  lemma {:induction false} AddKeepsWellFormed(r: Option<seq<Item>>, id: string, quantity: int)
    requires WellFormed(Items(r))
    ensures WellFormed(Items(AddRecord(r, id, quantity).1))
  {
    var s := Items(r);
    var k := FindIndex(s, id);
    if k != -1 && s[k].quantity + quantity <= 0 {
      RemoveKeepsWellFormed(r, id);
    } else if k != -1 {
      var t := s[k := Item(id, s[k].quantity + quantity)];
      assert forall j :: 0 <= j < |s| ==> t[j].id == s[j].id;
    }
  }

  /** addToCart never introduces an id, so it can never duplicate one. */
  lemma {:induction false} AddIdsWithin(r: Option<seq<Item>>, id: string, quantity: int)
    ensures IdsWithin(Items(AddRecord(r, id, quantity).1), Items(r))
  {
    var s := Items(r);
    var k := FindIndex(s, id);
    if k == -1 {
      SelfIdsWithin(s);
    } else if s[k].quantity + quantity <= 0 {
      RemoveIdsWithin(r, id);
    } else {
      UpdateIdsWithin(s, k, s[k].quantity + quantity);
    }
  }

  /** On a well-formed cart, a completed addToCart moves the product's quantity by
      `quantity` (to nothing when that is not positive) and leaves every other
      product's quantity alone. */
  lemma {:induction false} AddQuantities(r: Option<seq<Item>>, id: string, quantity: int, other: string)
    requires WellFormed(Items(r))
    requires AddRecord(r, id, quantity).0 == Completed
    ensures var after := QuantityOf(Items(r), id) + quantity;
      QuantityOf(Items(AddRecord(r, id, quantity).1), id) == if after > 0 then after else 0
    ensures other != id ==>
      QuantityOf(Items(AddRecord(r, id, quantity).1), other) == QuantityOf(Items(r), other)
  {
    var s := Items(r);
    var k := FindIndex(s, id);
    QuantityOfFirst(s, id);
    if s[k].quantity + quantity <= 0 {
      assert AddRecord(r, id, quantity).1 == RemoveRecord(r, id);
      RemoveQuantities(r, id, other);
    } else {
      var t := s[k := Item(id, s[k].quantity + quantity)];
      assert Items(AddRecord(r, id, quantity).1) == t;
      QuantityOfUpdate(s, k, s[k].quantity + quantity, id);
      if other != id {
        QuantityOfUpdate(s, k, s[k].quantity + quantity, other);
      }
    }
  }

  /** The badge moves by exactly the change of the product's quantity. */
  lemma {:induction false} AddCounter(r: Option<seq<Item>>, id: string, quantity: int)
    requires WellFormed(Items(r))
    ensures Counter(AddRecord(r, id, quantity).1)
      == Counter(r) - QuantityOf(Items(r), id) + QuantityOf(Items(AddRecord(r, id, quantity).1), id)
  {
    var s := Items(r);
    var t := Items(AddRecord(r, id, quantity).1);
    var k := FindIndex(s, id);
    if k != -1 {
      AddQuantities(r, id, quantity, id);
      QuantityOfFirst(s, id);
      var q0, q1 := QuantityOf(s, id), QuantityOf(t, id);
      assert s[k].id == id && q0 == s[k].quantity;
      assert SumOf(t, Quantity) == SumOf(s, Quantity) - q0 + q1 by {
        if q0 + quantity <= 0 {
          assert t == Splice(s, k) && q1 == 0;
          SumOfSplice(s, k, Quantity);
        } else {
          assert t == s[k := Item(id, q1)];
          SumOfUpdate(s, k, Item(id, q1), Quantity);
        }
      }
    } else {
      assert t == s;
    }
  }

  lemma {:induction false} TotalAfterSplice(s: seq<Item>, k: nat, price: string -> int)
    requires k < |s|
    ensures Total(Splice(s, k), price) == Total(s, price) + (0 - s[k].quantity) * price(s[k].id)
  {
    var q, p := s[k].quantity, price(s[k].id);
    SumOfSplice(s, k, LineCost(price));
    assert LineCost(price)(s[k]) == q * p;
    assert (0 - q) * p == -(q * p);
  }

  lemma {:induction false} TotalAfterUpdate(s: seq<Item>, k: nat, q: int, price: string -> int)
    requires k < |s|
    ensures Total(s[k := Item(s[k].id, q)], price) == Total(s, price) + (q - s[k].quantity) * price(s[k].id)
  {
    var p := price(s[k].id);
    SumOfUpdate(s, k, Item(s[k].id, q), LineCost(price));
    assert q * p - s[k].quantity * p == (q - s[k].quantity) * p;
  }

  /** The cart total moves by the change of the product's quantity times its price. */
  lemma {:induction false} AddTotal(r: Option<seq<Item>>, id: string, quantity: int, price: string -> int)
    requires WellFormed(Items(r))
    ensures Total(Items(AddRecord(r, id, quantity).1), price)
      == Total(Items(r), price)
         + (QuantityOf(Items(AddRecord(r, id, quantity).1), id) - QuantityOf(Items(r), id)) * price(id)
  {
    var s := Items(r);
    var t := Items(AddRecord(r, id, quantity).1);
    var k := FindIndex(s, id);
    if k != -1 {
      AddQuantities(r, id, quantity, id);
      QuantityOfFirst(s, id);
      var q0, q1 := QuantityOf(s, id), QuantityOf(t, id);
      assert s[k].id == id && q0 == s[k].quantity;
      assert Total(t, price) == Total(s, price) + (q1 - q0) * price(id) by {
        if q0 + quantity <= 0 {
          assert t == Splice(s, k) && q1 == 0;
          TotalAfterSplice(s, k, price);
        } else {
          assert t == s[k := Item(s[k].id, q1)];
          TotalAfterUpdate(s, k, q1, price);
        }
      }
    } else {
      assert t == s;
    }
  }

  // ----- clickCartAction -----

  /** A cart button throws exactly when it increases or decreases a product that is
      not in the cart; then the record is unchanged. */
  lemma {:induction false} ClickThrowsIff(r: Option<seq<Item>>, action: string, id: string)
    ensures ClickRecord(r, action, id).0 == TypeError
      <==> (action == "increase" || action == "decrease") && !Contains(Items(r), id)
    ensures ClickRecord(r, action, id).0 == TypeError ==> ClickRecord(r, action, id).1 == r
  {
    AddThrowsIffAbsent(r, id, 1);
    AddThrowsIffAbsent(r, id, -1);
  }

  lemma {:induction false} ClickKeepsWellFormed(r: Option<seq<Item>>, action: string, id: string)
    requires WellFormed(Items(r))
    ensures WellFormed(Items(ClickRecord(r, action, id).1))
  {
    if action == "increase" {
      AddKeepsWellFormed(r, id, 1);
    } else if action == "decrease" {
      AddKeepsWellFormed(r, id, -1);
    } else if action == "remove" && id != "" {
      RemoveKeepsWellFormed(r, id);
    }
  }

  /** No cart button adds an id that was not already in the cart. */
  lemma {:induction false} ClickIdsWithin(r: Option<seq<Item>>, action: string, id: string)
    ensures IdsWithin(Items(ClickRecord(r, action, id).1), Items(r))
  {
    if action == "increase" {
      AddIdsWithin(r, id, 1);
    } else if action == "decrease" {
      AddIdsWithin(r, id, -1);
    } else if action == "remove" && id != "" {
      RemoveIdsWithin(r, id);
    } else {
      SelfIdsWithin(Items(r));
    }
  }

  /** Readers cannot tell an absent record from a stored list with the same items:
      every button ends the same way and leaves the same items behind. */
  lemma {:induction false} ClickRespectsItems(r1: Option<seq<Item>>, r2: Option<seq<Item>>, action: string, id: string)
    requires Items(r1) == Items(r2)
    ensures ClickRecord(r1, action, id).0 == ClickRecord(r2, action, id).0
    ensures Items(ClickRecord(r1, action, id).1) == Items(ClickRecord(r2, action, id).1)
  {
  }

  // ----- the corrected addToCart -----

  /** With the new-item path repaired, every product's quantity follows the deltas
      applied to it: `quantity` is added (the record disappears at zero or below) and
      every other product keeps its quantity. */
  lemma {:induction false} IntendedAddQuantities(r: Option<seq<Item>>, id: string, quantity: int, other: string)
    requires WellFormed(Items(r))
    ensures var after := QuantityOf(Items(r), id) + quantity;
      QuantityOf(Items(IntendedAddRecord(r, id, quantity)), id) == if after > 0 then after else 0
    ensures other != id ==>
      QuantityOf(Items(IntendedAddRecord(r, id, quantity)), other) == QuantityOf(Items(r), other)
  {
    var s := Items(r);
    if FindIndex(s, id) == -1 {
      QuantityOfAbsent(s, id);
      if quantity > 0 {
        QuantityOfAppend(s, [Item(id, quantity)], id);
        QuantityOfAppend(s, [Item(id, quantity)], other);
        assert [Item(id, quantity)][1..] == [];
        if !Contains(s, other) {
          QuantityOfAbsent(s, other);
        }
      }
    } else {
      AddQuantities(r, id, quantity, other);
    }
  }

  lemma {:induction false} IntendedAddKeepsWellFormed(r: Option<seq<Item>>, id: string, quantity: int)
    requires WellFormed(Items(r))
    ensures WellFormed(Items(IntendedAddRecord(r, id, quantity)))
  {
    var s := Items(r);
    if FindIndex(s, id) == -1 {
      if quantity > 0 {
        var t := s + [Item(id, quantity)];
        forall a, b | 0 <= a < b < |t|
          ensures t[a].id != t[b].id
        {
          if b == |s| {
            assert t[a] == s[a];
          }
        }
      }
    } else {
      AddKeepsWellFormed(r, id, quantity);
    }
  }

  /** As written, the very first addToCart on an empty cart throws and stores
      nothing. */
  lemma {:induction false} WrittenFirstAddThrows()
    ensures AddRecord(None, "P1", 2) == (TypeError, None)
    ensures AddRecord(Some([]), "P1", 2) == (TypeError, Some([]))
  {
  }

  /** The corrected addToCart on the usual walk-through: two products added to an
      empty cart, then the first one decreased to nothing. */
  lemma {:induction false} IntendedScenario()
    ensures IntendedAddRecord(None, "P1", 2) == Some([Item("P1", 2)])
    ensures IntendedAddRecord(Some([Item("P1", 2)]), "P2", 1) == Some([Item("P1", 2), Item("P2", 1)])
    ensures Counter(Some([Item("P1", 2), Item("P2", 1)])) == 3
    ensures IntendedAddRecord(Some([Item("P1", 2), Item("P2", 1)]), "P1", -2) == Some([Item("P2", 1)])
  {
    assert Items(None) + [Item("P1", 2)] == [Item("P1", 2)];
    assert FindIndex([Item("P1", 2)], "P2") == -1;
    assert [Item("P1", 2)] + [Item("P2", 1)] == [Item("P1", 2), Item("P2", 1)];
    assert [Item("P1", 2), Item("P2", 1)][..1] == [Item("P1", 2)];
    assert [Item("P1", 2)][..0] == [];
    assert Splice([Item("P1", 2), Item("P2", 1)], 0) == [Item("P2", 1)];
  }
}
