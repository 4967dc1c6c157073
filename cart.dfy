/**
 * The shopping cart (src/hooks/useCart.ts): an ordered list of entries keyed
 * by numeric id, replaced wholesale by every mutator, plus the derived totals.
 */
module Cart {
  import opened Wrappers
  import Strings
  import Lists

  /** A catalog item as it is handed to `addToCart`: a cart entry without its quantity. */
  datatype Product = Product(id: int, name: string, price: string, image: string, category: string)

  /** One cart entry; `price` is the display string (for example "100 جنيه"). */
  datatype CartItem = CartItem(id: int, name: string, price: string, image: string, quantity: int, category: string)

  /** The entry `addToCart` appends for a product not yet in the cart. */
  function NewEntry(p: Product): (e: CartItem)
    ensures e.quantity == 1
    ensures e.id == p.id && e.name == p.name && e.price == p.price
    ensures e.image == p.image && e.category == p.category
  {
    CartItem(p.id, p.name, p.price, p.image, 1, p.category)
  }

  // ---------------------------------------------------------------------------
  // The cart invariant
  // ---------------------------------------------------------------------------

  ghost predicate UniqueIds(items: seq<CartItem>)
  {
    forall i, j :: 0 <= i < j < |items| ==> items[i].id != items[j].id
  }

  ghost predicate PositiveQuantities(items: seq<CartItem>)
  {
    forall i :: 0 <= i < |items| ==> items[i].quantity >= 1
  }

  /** At most one entry per id, and no stored entry with a quantity below 1. */
  ghost predicate Valid(items: seq<CartItem>)
  {
    UniqueIds(items) && PositiveQuantities(items)
  }

  // ---------------------------------------------------------------------------
  // Lookups and totals (the getters)
  // ---------------------------------------------------------------------------

  /** `items.find(item => item.id === id)`. */
  function Find(items: seq<CartItem>, id: int): (r: Option<CartItem>)
    ensures r.Some? ==> exists k :: 0 <= k < |items| && items[k] == r.value && r.value.id == id
                                    && forall j :: 0 <= j < k ==> items[j].id != id
    ensures r.None? <==> forall j :: 0 <= j < |items| ==> items[j].id != id
  {
    if items == [] then None
    else if items[0].id == id then Some(items[0])
    else
      var r := Find(items[1..], id);
      assert r.Some? ==> exists k :: 1 <= k < |items| && items[k] == r.value && forall j :: 0 <= j < k ==> items[j].id != id by {
        if r.Some? {
          var k :| 0 <= k < |items[1..]| && items[1..][k] == r.value && forall j :: 0 <= j < k ==> items[1..][j].id != id;
          assert items[k + 1] == r.value;
          assert forall j :: 1 <= j < k + 1 ==> items[j] == items[1..][j - 1];
        }
      }
      r
  }

  /** `getItemQuantity`: the stored quantity of the entry with that id, or 0. */
  function ItemQuantity(items: seq<CartItem>, id: int): (r: int)
    ensures (forall j :: 0 <= j < |items| ==> items[j].id != id) ==> r == 0
    ensures r != 0 ==> exists k :: 0 <= k < |items| && items[k].id == id && items[k].quantity == r
  {
    match Find(items, id)
    case Some(item) => item.quantity
    case None => 0
  }

  /** `getTotalItems`: the sum of the quantities. */
  function TotalItems(items: seq<CartItem>): (r: int)
    ensures (forall i :: 0 <= i < |items| ==> items[i].quantity >= 0) ==> r >= 0
    ensures (forall i :: 0 <= i < |items| ==> items[i].quantity >= 1) ==> r >= |items|
  {
    if items == [] then 0 else items[0].quantity + TotalItems(items[1..])
  }

  /** One entry's contribution to `getTotalPrice`: quantity times the number its price's digits form. */
  function LineTotal(item: CartItem): Option<int>
  {
    match Strings.ParseDigits(item.price)
    case Some(v) => Some(v * item.quantity)
    case None => None
  }

  /** Every price in the cart holds at least one digit, so `parseInt` never yields NaN. */
  predicate PricesParse(items: seq<CartItem>)
  {
    forall i :: 0 <= i < |items| ==> Strings.ParseDigits(items[i].price).Some?
  }

  /**
   * `getTotalPrice`: the sum of `LineTotal` over the entries; None stands for
   * the NaN the sum becomes once one price has no digit.
   */
  function TotalPrice(items: seq<CartItem>): (r: Option<int>)
    ensures r.Some? <==> PricesParse(items)
  {
    if items == [] then Some(0)
    else
      match (LineTotal(items[0]), TotalPrice(items[1..]))
      case (Some(a), Some(b)) => Some(a + b)
      case _ => None
  }

  // ---------------------------------------------------------------------------
  // The mutators, as functions of the previous list
  // ---------------------------------------------------------------------------

  function BumpIfId(id: int): CartItem -> CartItem
  {
    (it: CartItem) => if it.id == id then it.(quantity := it.quantity + 1) else it
  }

  function SetIfId(id: int, q: int): CartItem -> CartItem
  {
    (it: CartItem) => if it.id == id then it.(quantity := q) else it
  }

  function ItemId(it: CartItem): int { it.id }

  /** `addToCart(p)`: bump every entry with that id, or append a new entry. */
  function WithAdded(items: seq<CartItem>, p: Product): (r: seq<CartItem>)
    ensures (forall j :: 0 <= j < |items| ==> items[j].id != p.id) ==> r == items + [NewEntry(p)]
    ensures (exists k :: 0 <= k < |items| && items[k].id == p.id) ==>
              && |r| == |items|
              && forall i :: 0 <= i < |items| ==>
                   r[i] == if items[i].id == p.id then items[i].(quantity := items[i].quantity + 1) else items[i]
  {
    if Find(items, p.id).Some? then Lists.Map(items, BumpIfId(p.id)) else items + [NewEntry(p)]
  }

  /** `removeFromCart(id)`: keep the entries with another id (RemoveSpec states what survives). */
  function WithoutItem(items: seq<CartItem>, id: int): seq<CartItem>
  {
    Lists.RemoveKey(items, ItemId, id)
  }

  /** `updateQuantity(id, q)`: remove for q <= 0, otherwise set the exact quantity. */
  function WithQuantity(items: seq<CartItem>, id: int, q: int): (r: seq<CartItem>)
    ensures q <= 0 ==> r == WithoutItem(items, id)
    ensures q > 0 ==> |r| == |items| && forall i :: 0 <= i < |items| ==>
              r[i] == if items[i].id == id then items[i].(quantity := q) else items[i]
  {
    if q <= 0 then WithoutItem(items, id) else Lists.Map(items, SetIfId(id, q))
  }

  // ---------------------------------------------------------------------------
  // Properties of the mutators
  // ---------------------------------------------------------------------------

  /** Adding a product already in a valid cart bumps that one entry by exactly one; the rest and the order stay. */
  lemma AddExisting(items: seq<CartItem>, p: Product, k: nat)
    requires UniqueIds(items)
    requires k < |items| && items[k].id == p.id
    ensures WithAdded(items, p) == items[k := items[k].(quantity := items[k].quantity + 1)]
  {
    assert Find(items, p.id).Some?;
    var r := WithAdded(items, p);
    var e := items[k := items[k].(quantity := items[k].quantity + 1)];
    assert |r| == |e|;
    forall i | 0 <= i < |r| ensures r[i] == e[i] {
      assert r[i] == BumpIfId(p.id)(items[i]);
    }
  }

  /** Adding a product not in the cart appends one entry with quantity 1 at the end. */
  lemma AddNew(items: seq<CartItem>, p: Product)
    requires forall i :: 0 <= i < |items| ==> items[i].id != p.id
    ensures WithAdded(items, p) == items + [NewEntry(p)]
    ensures |WithAdded(items, p)| == |items| + 1
  {
  }

  lemma AddPreservesValid(items: seq<CartItem>, p: Product)
    requires Valid(items)
    ensures Valid(WithAdded(items, p))
  {
    var r := WithAdded(items, p);
    if Find(items, p.id).Some? {
      forall i | 0 <= i < |r| ensures r[i].id == items[i].id && r[i].quantity >= items[i].quantity {
        assert r[i] == BumpIfId(p.id)(items[i]);
      }
    }
  }

  /** Removing keeps every entry with another id, with all its copies and in order, and leaves none with that id. */
  lemma RemoveSpec(items: seq<CartItem>, id: int)
    ensures forall i :: 0 <= i < |WithoutItem(items, id)| ==> WithoutItem(items, id)[i].id != id
    ensures forall i :: 0 <= i < |items| && items[i].id != id ==> items[i] in WithoutItem(items, id)
    ensures forall x :: multiset(WithoutItem(items, id))[x] == if x.id != id then multiset(items)[x] else 0
    ensures Lists.IsSubsequence(WithoutItem(items, id), items)
  {
  }

  /** Removing an id that is not in the cart changes nothing. */
  lemma RemoveAbsent(items: seq<CartItem>, id: int)
    requires forall i :: 0 <= i < |items| ==> items[i].id != id
    ensures WithoutItem(items, id) == items
  {
    Lists.RemoveAbsentKey(items, ItemId, id);
  }

  lemma RemovePreservesValid(items: seq<CartItem>, id: int)
    requires Valid(items)
    ensures Valid(WithoutItem(items, id))
  {
    assert Lists.UniqueKeys(items, ItemId) by {
      forall i, j | 0 <= i < j < |items| ensures ItemId(items[i]) != ItemId(items[j]) {
      }
    }
    Lists.FilterUniqueKeys(items, Lists.KeyIsNot(ItemId, id), ItemId);
    var r := WithoutItem(items, id);
    forall i, j | 0 <= i < j < |r| ensures r[i].id != r[j].id {
      assert ItemId(r[i]) != ItemId(r[j]);
    }
  }

  /** A positive update sets exactly that entry's quantity; length, order and every other entry stay. */
  lemma UpdatePositive(items: seq<CartItem>, id: int, q: int, k: nat)
    requires UniqueIds(items)
    requires q > 0 && k < |items| && items[k].id == id
    ensures WithQuantity(items, id, q) == items[k := items[k].(quantity := q)]
  {
    var r := WithQuantity(items, id, q);
    var e := items[k := items[k].(quantity := q)];
    forall i | 0 <= i < |r| ensures r[i] == e[i] {
      assert r[i] == SetIfId(id, q)(items[i]);
    }
  }

  /** A positive update of an id that is not in the cart changes nothing. */
  lemma UpdateAbsent(items: seq<CartItem>, id: int, q: int)
    requires q > 0
    requires forall i :: 0 <= i < |items| ==> items[i].id != id
    ensures WithQuantity(items, id, q) == items
  {
    var r := WithQuantity(items, id, q);
    forall i | 0 <= i < |r| ensures r[i] == items[i] {
      assert r[i] == SetIfId(id, q)(items[i]);
    }
  }

  lemma UpdatePreservesValid(items: seq<CartItem>, id: int, q: int)
    requires Valid(items)
    ensures Valid(WithQuantity(items, id, q))
  {
    if q <= 0 {
      RemovePreservesValid(items, id);
    } else {
      var r := WithQuantity(items, id, q);
      forall i | 0 <= i < |r| ensures r[i].id == items[i].id && r[i].quantity >= 1 {
        assert r[i] == SetIfId(id, q)(items[i]);
      }
    }
  }

  // ---------------------------------------------------------------------------
  // Properties of the getters
  // ---------------------------------------------------------------------------

  /** In a cart with unique ids, `getItemQuantity` is the quantity of the entry with that id. */
  lemma ItemQuantityOf(items: seq<CartItem>, id: int, k: nat)
    requires UniqueIds(items)
    requires k < |items| && items[k].id == id
    ensures ItemQuantity(items, id) == items[k].quantity
  {
  }

  lemma ItemQuantityAbsent(items: seq<CartItem>, id: int)
    requires forall i :: 0 <= i < |items| ==> items[i].id != id
    ensures ItemQuantity(items, id) == 0
  {
  }

  lemma {:induction false} TotalItemsAppend(items: seq<CartItem>, e: CartItem)
    ensures TotalItems(items + [e]) == TotalItems(items) + e.quantity
  {
    if items != [] {
      assert (items + [e])[1..] == items[1..] + [e];
      TotalItemsAppend(items[1..], e);
    }
  }

  lemma {:induction false} TotalItemsBump(items: seq<CartItem>, id: int)
    requires UniqueIds(items)
    ensures TotalItems(Lists.Map(items, BumpIfId(id)))
         == TotalItems(items) + (if Find(items, id).Some? then 1 else 0)
  {
    if items != [] {
      var m := Lists.Map(items, BumpIfId(id));
      assert m[1..] == Lists.Map(items[1..], BumpIfId(id));
      assert m[0] == BumpIfId(id)(items[0]);
      TotalItemsBump(items[1..], id);
      if items[0].id == id {
        assert Find(items[1..], id).None?;
      }
    }
  }

  /** Every `addToCart` on a cart with unique ids raises `getTotalItems` by exactly one. */
  lemma TotalItemsAfterAdd(items: seq<CartItem>, p: Product)
    requires UniqueIds(items)
    ensures TotalItems(WithAdded(items, p)) == TotalItems(items) + 1
  {
    if Find(items, p.id).Some? {
      TotalItemsBump(items, p.id);
    } else {
      TotalItemsAppend(items, NewEntry(p));
    }
  }

  /** Every `addToCart` on a cart with unique ids raises that product's `getItemQuantity` by exactly one. */
  lemma ItemQuantityAfterAdd(items: seq<CartItem>, p: Product)
    requires UniqueIds(items)
    ensures ItemQuantity(WithAdded(items, p), p.id) == ItemQuantity(items, p.id) + 1
  {
    match Find(items, p.id)
    case Some(e) =>
      var k :| 0 <= k < |items| && items[k] == e && e.id == p.id;
      AddExisting(items, p, k);
      var r := WithAdded(items, p);
      assert UniqueIds(r) by {
        forall i, j | 0 <= i < j < |r| ensures r[i].id != r[j].id {
          assert r[i].id == items[i].id && r[j].id == items[j].id;
        }
      }
      ItemQuantityOf(r, p.id, k);
    case None =>
      var r := WithAdded(items, p);
      assert r[|items|] == NewEntry(p);
      assert forall j :: 0 <= j < |items| ==> r[j] == items[j];
  }

  lemma {:induction false} TotalPriceAppend(items: seq<CartItem>, e: CartItem, v: int)
    requires TotalPrice(items).Some? && LineTotal(e) == Some(v)
    ensures TotalPrice(items + [e]) == Some(TotalPrice(items).value + v)
  {
    if items != [] {
      assert (items + [e])[1..] == items[1..] + [e];
      TotalPriceAppend(items[1..], e, v);
    } else {
      assert items + [e] == [e];
    }
  }

  lemma DigitsOfExamplePrice()
    ensures Strings.Digits("100 جنيه") == "100"
  {
    var t0, t1, t2, t3, t4 := " جنيه", "جنيه", "نيه", "يه", "ه";
    assert Strings.Digits(t4) == [] by {
      assert !Strings.IsDigit(t4[0]) && t4[1..] == [];
    }
    assert Strings.Digits(t3) == [] by {
      assert !Strings.IsDigit(t3[0]) && t3[1..] == t4;
    }
    assert Strings.Digits(t2) == [] by {
      assert !Strings.IsDigit(t2[0]) && t2[1..] == t3;
    }
    assert Strings.Digits(t1) == [] by {
      assert !Strings.IsDigit(t1[0]) && t1[1..] == t2;
    }
    assert Strings.Digits(t0) == [] by {
      assert !Strings.IsDigit(t0[0]) && t0[1..] == t1;
    }
    Strings.DigitsConcat("100", t0);
    assert "100" + t0 == "100 جنيه";
    Strings.DigitsOfDigits("100");
  }

  lemma DecimalValueOfHundred()
    ensures Strings.DecimalValue("100") == 100
  {
    assert "100"[..2] == "10" && "10"[..1] == "1" && "1"[..0] == "";
  }

  /** The price "100 جنيه" parses to 100. */
  lemma ExamplePrice()
    ensures Strings.ParseDigits("100 جنيه") == Some(100)
  {
    DigitsOfExamplePrice();
    DecimalValueOfHundred();
  }

  /** Adding one product twice to the empty cart leaves one entry of quantity 2, worth twice its price. */
  lemma AddTwiceToEmpty(p: Product, v: nat)
    requires Strings.ParseDigits(p.price) == Some(v)
    ensures WithAdded(WithAdded([], p), p) == [NewEntry(p).(quantity := 2)]
    ensures TotalItems(WithAdded(WithAdded([], p), p)) == 2
    ensures TotalPrice(WithAdded(WithAdded([], p), p)) == Some(2 * v)
  {
    var e := NewEntry(p).(quantity := 2);
    assert WithAdded([], p) == [NewEntry(p)];
    assert WithAdded([NewEntry(p)], p) == [e] by {
      AddExisting([NewEntry(p)], p, 0);
    }
    assert TotalPrice([e]) == Some(2 * v) by {
      assert LineTotal(e) == Some(v * 2);
      assert [e][1..] == [];
    }
    assert TotalItems([e]) == 2 by {
      assert [e][1..] == [];
    }
  }

  /** Adding {id: 1, price: "100 جنيه"} twice to an empty cart gives one entry of quantity 2 and a total of 200. */
  lemma DoubleAddExample(p: Product)
    requires p.id == 1 && p.price == "100 جنيه"
    ensures WithAdded(WithAdded([], p), p) == [NewEntry(p).(quantity := 2)]
    ensures TotalPrice(WithAdded(WithAdded([], p), p)) == Some(200)
  {
    ExamplePrice();
    AddTwiceToEmpty(p, 100);
  }

  // ---------------------------------------------------------------------------
  // The hook's state
  // ---------------------------------------------------------------------------

  /**
   * The `items` state of the hook.  Each mutator replaces the list, as
   * `setItems` does; persistence to local storage is not modelled.
   */
  class CartStore {
    var items: seq<CartItem>

    /** The hook's mount: the saved cart if there is one, otherwise the empty cart. */
    constructor (saved: Option<seq<CartItem>>)
      ensures items == saved.GetOr([])
    {
      items := saved.GetOr([]);
    }

    method AddToCart(p: Product)
      modifies this
      ensures items == WithAdded(old(items), p)
      ensures Valid(old(items)) ==> Valid(items)
    {
      ghost var before := items;
      items := WithAdded(items, p);
      if Valid(before) {
        AddPreservesValid(before, p);
      }
    }

    method UpdateQuantity(id: int, quantity: int)
      modifies this
      ensures items == WithQuantity(old(items), id, quantity)
      ensures quantity <= 0 ==> items == WithoutItem(old(items), id)
      ensures |items| <= |old(items)|
      ensures quantity > 0 ==> |items| == |old(items)|
      ensures Valid(old(items)) ==> Valid(items)
    {
      ghost var before := items;
      if quantity <= 0 {
        RemoveFromCart(id);
        return;
      }
      items := WithQuantity(items, id, quantity);
      if Valid(before) {
        UpdatePreservesValid(before, id, quantity);
      }
    }

    method RemoveFromCart(id: int)
      modifies this
      ensures items == WithoutItem(old(items), id)
      ensures Valid(old(items)) ==> Valid(items)
    {
      ghost var before := items;
      items := WithoutItem(items, id);
      if Valid(before) {
        RemovePreservesValid(before, id);
      }
    }

    method ClearCart()
      modifies this
      ensures items == []
      ensures Valid(items)
    {
      items := [];
    }
  }
}
