/** frontend/src/pages/ShopPage.jsx: the public storefront's cart. Each cart
    operation builds a new list from the old one (`find`, `map`, `filter`,
    `reduce`), and placing an order validates the customer form before the
    request body of POST /api/orders is built. */
module ShopCart {
  import opened Common
  import opened Text
  import OrderLines
  import OrderRoutes

  /** A product as the storefront lists it. */
  datatype Listing = Listing(id: Id, name: string, price: int, stock: int)

  /** A cart entry: the listed product, copied when first added, with a quantity. */
  datatype CartLine = CartLine(id: Id, name: string, price: int, stock: int, quantity: int)

  /** `{ ...product, quantity: 1 }` */
  function NewLine(p: Listing): CartLine {
    CartLine(p.id, p.name, p.price, p.stock, 1)
  }

  /** `cart.find(item => item._id === id)`: the first entry with that id. */
  function Find(cart: seq<CartLine>, id: Id): (r: Option<CartLine>)
    ensures r.Some? ==> r.value.id == id
  {
    if cart == [] then None
    else if cart[0].id == id then Some(cart[0])
    else Find(cart[1..], id)
  }

  /** Nothing is found exactly when no entry has that id. */
  lemma {:induction false} FindNone(cart: seq<CartLine>, id: Id)
    ensures Find(cart, id).None? <==> forall i :: 0 <= i < |cart| ==> cart[i].id != id
  {
    if cart != [] {
      FindNone(cart[1..], id);
      assert forall i :: 1 <= i < |cart| ==> cart[i] == cart[1..][i - 1];
    }
  }

  /** With ids unique, the entry found is the one entry with that id. */
  lemma {:induction false} FindUnique(cart: seq<CartLine>, id: Id, i: int)
    requires UniqueIds(cart) && 0 <= i < |cart| && cart[i].id == id
    ensures Find(cart, id) == Some(cart[i])
  {
    if i > 0 {
      TailInvariants(cart);
      FindUnique(cart[1..], id, i - 1);
    }
  }

  /** No two entries share an id. */
  predicate UniqueIds(cart: seq<CartLine>) {
    forall i, j :: 0 <= i < j < |cart| ==> cart[i].id != cart[j].id
  }

  /** Every entry holds at least one unit. */
  predicate Positive(cart: seq<CartLine>) {
    forall i :: 0 <= i < |cart| ==> cart[i].quantity >= 1
  }

  /** No entry holds more than the stock recorded with it. */
  predicate WithinStock(cart: seq<CartLine>) {
    forall i :: 0 <= i < |cart| ==> cart[i].quantity <= cart[i].stock
  }

  // ---------------------------------------------------------------- the operations

  /** The `map` in `addToCart`: one more unit of every entry with that id. */
  function Increment(cart: seq<CartLine>, id: Id): (r: seq<CartLine>)
    ensures |r| == |cart|
  {
    if cart == [] then []
    else [if cart[0].id == id then cart[0].(quantity := cart[0].quantity + 1) else cart[0]]
         + Increment(cart[1..], id)
  }

  /** `addToCart(product)`: a product already in the cart gains one unit
      unless its quantity has reached the product's stock; a new product is
      appended with quantity 1, whatever its stock. */
  function AddToCart(cart: seq<CartLine>, p: Listing): seq<CartLine> {
    var existing := Find(cart, p.id);
    if existing.Some? then
      if existing.value.quantity >= p.stock then cart else Increment(cart, p.id)
    else cart + [NewLine(p)]
  }

  /** `updateQuantity(productId, change)`: the `map` followed by
      `filter(Boolean)`; an entry whose new quantity is 0 or less is dropped,
      one whose new quantity exceeds its stock is kept as it was. */
  function UpdateQuantity(cart: seq<CartLine>, id: Id, change: int): (r: seq<CartLine>)
    ensures |r| <= |cart|
  {
    if cart == [] then []
    else
      var rest := UpdateQuantity(cart[1..], id, change);
      var item := cart[0];
      if item.id != id then [item] + rest
      else
        var q := item.quantity + change;
        if q <= 0 then rest
        else if q > item.stock then [item] + rest
        else [item.(quantity := q)] + rest
  }

  /** `removeFromCart(productId)` */
  function RemoveFromCart(cart: seq<CartLine>, id: Id): (r: seq<CartLine>)
    ensures |r| <= |cart|
  {
    if cart == [] then []
    else if cart[0].id == id then RemoveFromCart(cart[1..], id)
    else [cart[0]] + RemoveFromCart(cart[1..], id)
  }

  /** `cartTotal`: the sum of price times quantity. */
  function CartTotal(cart: seq<CartLine>): int {
    if cart == [] then 0 else cart[0].price * cart[0].quantity + CartTotal(cart[1..])
  }

  /** `cartItemCount`: the sum of the quantities. */
  function CartItemCount(cart: seq<CartLine>): int {
    if cart == [] then 0 else cart[0].quantity + CartItemCount(cart[1..])
  }

  // ---------------------------------------------------------------- what each operation does

  /** A cart with one entry fewer at the front keeps its invariants. */
  lemma TailInvariants(cart: seq<CartLine>)
    requires cart != []
    ensures UniqueIds(cart) ==> UniqueIds(cart[1..])
    ensures Positive(cart) ==> Positive(cart[1..])
    ensures WithinStock(cart) ==> WithinStock(cart[1..])
    ensures UniqueIds(cart) ==> Find(cart[1..], cart[0].id).None?
  {
    FindNone(cart[1..], cart[0].id);
    assert forall i :: 0 <= i < |cart| - 1 ==> cart[1..][i] == cart[i + 1];
  }

  /** An id that is not in the cart is not touched by the `map`. */
  lemma {:induction false} IncrementAbsent(cart: seq<CartLine>, id: Id)
    requires Find(cart, id).None?
    ensures Increment(cart, id) == cart
  {
    if cart != [] {
      assert Find(cart[1..], id).None?;
      IncrementAbsent(cart[1..], id);
    }
  }

  /** Removing an id that is not in the cart changes nothing. */
  lemma {:induction false} RemoveAbsent(cart: seq<CartLine>, id: Id)
    requires Find(cart, id).None?
    ensures RemoveFromCart(cart, id) == cart
  {
    if cart != [] {
      assert Find(cart[1..], id).None?;
      RemoveAbsent(cart[1..], id);
    }
  }

  /** Updating an id that is not in the cart changes nothing. */
  lemma {:induction false} UpdateAbsent(cart: seq<CartLine>, id: Id, change: int)
    requires Find(cart, id).None?
    ensures UpdateQuantity(cart, id, change) == cart
  {
    if cart != [] {
      assert Find(cart[1..], id).None?;
      UpdateAbsent(cart[1..], id, change);
    }
  }

  /** The `map` in `addToCart` keeps every entry's id, position and price and
      raises the quantity of the entry with that id by one. */
  lemma {:induction false} IncrementShape(cart: seq<CartLine>, id: Id)
    ensures forall i :: 0 <= i < |cart| ==>
              Increment(cart, id)[i] == (if cart[i].id == id then cart[i].(quantity := cart[i].quantity + 1) else cart[i])
  {
    if cart != [] {
      IncrementShape(cart[1..], id);
      assert forall i :: 1 <= i < |cart| ==> Increment(cart, id)[i] == Increment(cart[1..], id)[i - 1];
    }
  }

  /** With ids unique, adding a unit of a product in the cart adds one to the
      item count and that entry's price to the total. */
  lemma {:induction false} IncrementTotals(cart: seq<CartLine>, id: Id)
    requires UniqueIds(cart) && Find(cart, id).Some?
    ensures CartItemCount(Increment(cart, id)) == CartItemCount(cart) + 1
    ensures CartTotal(Increment(cart, id)) == CartTotal(cart) + Find(cart, id).value.price
  {
    var x := cart[0];
    if x.id == id {
      assert Find(cart[1..], id).None? by { TailInvariants(cart); }
      IncrementAbsent(cart[1..], id);
      assert x.price * (x.quantity + 1) == x.price * x.quantity + x.price;
      Cons(x.(quantity := x.quantity + 1), cart[1..], id);
    } else {
      assert UniqueIds(cart[1..]) by { TailInvariants(cart); }
      IncrementTotals(cart[1..], id);
      Cons(x, Increment(cart[1..], id), id);
    }
  }

  /** `addToCart`: a product not in the cart is appended with quantity 1 and
      its price; one in the cart below its stock gains one unit; one at or
      above its stock leaves the cart unchanged. */
  lemma AddToCartEffect(cart: seq<CartLine>, p: Listing)
    requires UniqueIds(cart)
    ensures Find(cart, p.id).None? ==>
              && AddToCart(cart, p) == cart + [CartLine(p.id, p.name, p.price, p.stock, 1)]
              && CartItemCount(AddToCart(cart, p)) == CartItemCount(cart) + 1
              && CartTotal(AddToCart(cart, p)) == CartTotal(cart) + p.price
    ensures Find(cart, p.id).Some? && Find(cart, p.id).value.quantity >= p.stock ==> AddToCart(cart, p) == cart
    ensures var e := Find(cart, p.id);
            e.Some? && e.value.quantity < p.stock ==>
              && Find(AddToCart(cart, p), p.id) == Some(e.value.(quantity := e.value.quantity + 1))
              && CartItemCount(AddToCart(cart, p)) == CartItemCount(cart) + 1
              && CartTotal(AddToCart(cart, p)) == CartTotal(cart) + e.value.price
  {
    var e := Find(cart, p.id);
    if e.None? {
      AppendTotals(cart, NewLine(p));
    } else if e.value.quantity < p.stock {
      AddBelowStock(cart, p);
    }
  }

  /** An entry below its stock gains one unit. */
  lemma AddBelowStock(cart: seq<CartLine>, p: Listing)
    requires UniqueIds(cart) && Find(cart, p.id).Some? && Find(cart, p.id).value.quantity < p.stock
    ensures var e := Find(cart, p.id).value;
            && Find(AddToCart(cart, p), p.id) == Some(e.(quantity := e.quantity + 1))
            && CartItemCount(AddToCart(cart, p)) == CartItemCount(cart) + 1
            && CartTotal(AddToCart(cart, p)) == CartTotal(cart) + e.price
  {
    var e := Find(cart, p.id).value;
    var c := Increment(cart, p.id);
    assert AddToCart(cart, p) == c;
    assert Find(c, p.id) == Some(e.(quantity := e.quantity + 1)) by {
      IncrementFind(cart, p.id);
    }
    IncrementTotals(cart, p.id);
  }

  /** The entry found after the `map` is the one found before, one unit up. */
  lemma {:induction false} IncrementFind(cart: seq<CartLine>, id: Id)
    requires Find(cart, id).Some?
    ensures Find(Increment(cart, id), id) == Some(Find(cart, id).value.(quantity := Find(cart, id).value.quantity + 1))
  {
    var x := cart[0];
    var y := if x.id == id then x.(quantity := x.quantity + 1) else x;
    assert Increment(cart, id) == [y] + Increment(cart[1..], id);
    Cons(y, Increment(cart[1..], id), id);
    if x.id != id {
      IncrementFind(cart[1..], id);
    }
  }

  lemma {:induction false} AppendTotals(cart: seq<CartLine>, l: CartLine)
    ensures CartItemCount(cart + [l]) == CartItemCount(cart) + l.quantity
    ensures CartTotal(cart + [l]) == CartTotal(cart) + l.price * l.quantity
  {
    if cart != [] {
      assert (cart + [l])[1..] == cart[1..] + [l];
      AppendTotals(cart[1..], l);
    } else {
      assert [l][1..] == [];
    }
  }

  /** `addToCart` never checks the stock of a new product: an out-of-stock
      product goes in with quantity 1 above its stock of 0, and only the
      disabled button keeps it out. */
  lemma AddIgnoresStockOfNewProduct(id: Id, name: string, price: int)
    ensures AddToCart([], Listing(id, name, price, 0)) == [CartLine(id, name, price, 0, 1)]
    ensures !WithinStock(AddToCart([], Listing(id, name, price, 0)))
  {
    var c := AddToCart([], Listing(id, name, price, 0));
    assert c[0].quantity > c[0].stock;
  }

  /** `removeFromCart` drops exactly the entries with that id and keeps the
      others, in order; with ids unique it lowers the count and the total by
      the removed entry's share. */
  lemma {:induction false} RemoveFromCartEffect(cart: seq<CartLine>, id: Id)
    requires UniqueIds(cart)
    ensures Find(RemoveFromCart(cart, id), id).None?
    ensures forall other :: other != id ==> Find(RemoveFromCart(cart, id), other) == Find(cart, other)
    ensures var e := Find(cart, id);
            && (e.None? ==> RemoveFromCart(cart, id) == cart)
            && (e.Some? ==> CartItemCount(RemoveFromCart(cart, id)) == CartItemCount(cart) - e.value.quantity
                            && CartTotal(RemoveFromCart(cart, id)) == CartTotal(cart) - e.value.price * e.value.quantity)
  {
    if cart != [] {
      TailInvariants(cart);
      RemoveFromCartEffect(cart[1..], id);
      if cart[0].id == id {
        RemoveAbsent(cart[1..], id);
      }
    } else {
      assert RemoveFromCart(cart, id) == cart;
    }
  }

  /** `updateQuantity` never touches, drops or reorders the other entries. */
  lemma {:induction false} UpdateKeepsOthers(cart: seq<CartLine>, id: Id, change: int)
    ensures RemoveFromCart(UpdateQuantity(cart, id, change), id) == RemoveFromCart(cart, id)
  {
    if cart != [] {
      UpdateKeepsOthers(cart[1..], id, change);
    }
  }

  /** `updateQuantity` on an entry in the cart: a new quantity of 0 or less
      removes it, one above its stock leaves the cart unchanged, anything
      else sets it and moves the count and the total by the change. */
  lemma {:induction false} UpdateQuantityEffect(cart: seq<CartLine>, id: Id, change: int)
    requires UniqueIds(cart) && Find(cart, id).Some?
    ensures var e := Find(cart, id).value;
            e.quantity + change <= 0 ==> UpdateQuantity(cart, id, change) == RemoveFromCart(cart, id)
    ensures var e := Find(cart, id).value;
            0 < e.quantity + change && e.quantity + change > e.stock ==> UpdateQuantity(cart, id, change) == cart
    ensures var e := Find(cart, id).value;
            var q := e.quantity + change;
            var c := UpdateQuantity(cart, id, change);
            0 < q <= e.stock ==>
              && Find(c, id) == Some(e.(quantity := q))
              && CartItemCount(c) == CartItemCount(cart) + change
              && CartTotal(c) == CartTotal(cart) + e.price * change
  {
    if cart[0].id == id {
      UpdateHead(cart, id, change);
    } else {
      var rest := UpdateQuantity(cart[1..], id, change);
      assert UniqueIds(cart[1..]) by { TailInvariants(cart); }
      assert UpdateQuantity(cart, id, change) == [cart[0]] + rest;
      assert Find(cart, id) == Find(cart[1..], id);
      assert RemoveFromCart(cart, id) == [cart[0]] + RemoveFromCart(cart[1..], id);
      UpdateQuantityEffect(cart[1..], id, change);
      Cons(cart[0], rest, id);
      if rest == cart[1..] {
        assert [cart[0]] + rest == cart;
      }
    }
  }

  /** The entry to update is at the front of the cart. */
  lemma UpdateHead(cart: seq<CartLine>, id: Id, change: int)
    requires UniqueIds(cart) && cart != [] && cart[0].id == id
    ensures var x := cart[0];
            x.quantity + change <= 0 ==> UpdateQuantity(cart, id, change) == RemoveFromCart(cart, id)
    ensures var x := cart[0];
            0 < x.quantity + change && x.quantity + change > x.stock ==> UpdateQuantity(cart, id, change) == cart
    ensures var x := cart[0];
            var q := x.quantity + change;
            var c := UpdateQuantity(cart, id, change);
            0 < q <= x.stock ==>
              && Find(c, id) == Some(x.(quantity := q))
              && CartItemCount(c) == CartItemCount(cart) + change
              && CartTotal(c) == CartTotal(cart) + x.price * change
  {
    var x := cart[0];
    var q := x.quantity + change;
    var rest := UpdateQuantity(cart[1..], id, change);
    assert Find(cart[1..], id).None? by { TailInvariants(cart); }
    UpdateAbsent(cart[1..], id, change);
    RemoveAbsent(cart[1..], id);
    if q <= 0 {
      assert UpdateQuantity(cart, id, change) == cart[1..];
    } else if q > x.stock {
      assert cart == [x] + cart[1..];
    } else {
      assert UpdateQuantity(cart, id, change) == [x.(quantity := q)] + cart[1..];
      assert x.price * q == x.price * x.quantity + x.price * change;
      Cons(x.(quantity := q), cart[1..], id);
      Cons(x, cart[1..], id);
    }
  }

  /** Finding, counting and totalling over an entry put in front of a cart. */
  lemma Cons(l: CartLine, rest: seq<CartLine>, id: Id)
    ensures ([l] + rest)[1..] == rest
    ensures Find([l] + rest, id) == if l.id == id then Some(l) else Find(rest, id)
    ensures CartItemCount([l] + rest) == l.quantity + CartItemCount(rest)
    ensures CartTotal([l] + rest) == l.price * l.quantity + CartTotal(rest)
  {
    assert ([l] + rest)[1..] == rest;
  }

  // ---------------------------------------------------------------- invariants

  /** `map` with `addToCart`'s increment keeps ids, and a positive quantity stays positive. */
  lemma AddKeepsInvariants(cart: seq<CartLine>, p: Listing)
    requires UniqueIds(cart) && Positive(cart)
    ensures UniqueIds(AddToCart(cart, p)) && Positive(AddToCart(cart, p))
  {
    IncrementShape(cart, p.id);
    FindNone(cart, p.id);
  }

  /** Adding keeps every entry within its stock when the product has stock
      and the cart copied the same stock figure when it first took it. */
  lemma AddKeepsWithinStock(cart: seq<CartLine>, p: Listing)
    requires UniqueIds(cart) && WithinStock(cart) && p.stock >= 1
    requires forall i :: 0 <= i < |cart| && cart[i].id == p.id ==> cart[i].stock == p.stock
    ensures WithinStock(AddToCart(cart, p))
  {
    IncrementShape(cart, p.id);
    var e := Find(cart, p.id);
    if e.Some? && e.value.quantity < p.stock {
      forall i | 0 <= i < |cart| && cart[i].id == p.id
        ensures cart[i] == e.value
      {
        FindUnique(cart, p.id, i);
      }
    }
  }

  /** Every entry the update or the removal leaves is an entry of the old
      cart, perhaps with a new quantity between 1 and its stock. */
  lemma {:induction false} UpdateKeepsInvariants(cart: seq<CartLine>, id: Id, change: int)
    requires UniqueIds(cart) && Positive(cart)
    ensures UniqueIds(UpdateQuantity(cart, id, change)) && Positive(UpdateQuantity(cart, id, change))
    ensures WithinStock(cart) ==> WithinStock(UpdateQuantity(cart, id, change))
    ensures forall other :: Find(cart, other).None? ==> Find(UpdateQuantity(cart, id, change), other).None?
  {
    if cart != [] {
      TailInvariants(cart);
      UpdateKeepsInvariants(cart[1..], id, change);
      var rest := UpdateQuantity(cart[1..], id, change);
      assert Find(rest, cart[0].id).None?;
      ConsInvariants(cart[0], rest);
      ConsInvariants(cart[0].(quantity := cart[0].quantity + change), rest);
    }
  }

  lemma {:induction false} RemoveKeepsInvariants(cart: seq<CartLine>, id: Id)
    requires UniqueIds(cart) && Positive(cart)
    ensures UniqueIds(RemoveFromCart(cart, id)) && Positive(RemoveFromCart(cart, id))
    ensures WithinStock(cart) ==> WithinStock(RemoveFromCart(cart, id))
    ensures forall other :: Find(cart, other).None? ==> Find(RemoveFromCart(cart, id), other).None?
  {
    if cart != [] {
      TailInvariants(cart);
      RemoveKeepsInvariants(cart[1..], id);
      var rest := RemoveFromCart(cart[1..], id);
      assert Find(rest, cart[0].id).None?;
      ConsInvariants(cart[0], rest);
    }
  }

  /** Putting an entry in front of a cart that lacks its id. */
  lemma ConsInvariants(l: CartLine, rest: seq<CartLine>)
    requires Find(rest, l.id).None?
    ensures UniqueIds(rest) ==> UniqueIds([l] + rest)
    ensures Positive(rest) && l.quantity >= 1 ==> Positive([l] + rest)
    ensures WithinStock(rest) && l.quantity <= l.stock ==> WithinStock([l] + rest)
    ensures forall other :: other != l.id && Find(rest, other).None? ==> Find([l] + rest, other).None?
  {
    FindNone(rest, l.id);
    assert forall i :: 1 <= i < |rest| + 1 ==> ([l] + rest)[i] == rest[i - 1];
  }

  /** What the shopper can do to the cart. */
  datatype CartAction = Add(product: Listing) | Update(id: Id, change: int) | Remove(id: Id)

  function Apply(cart: seq<CartLine>, a: CartAction): seq<CartLine> {
    match a
    case Add(p) => AddToCart(cart, p)
    case Update(id, change) => UpdateQuantity(cart, id, change)
    case Remove(id) => RemoveFromCart(cart, id)
  }

  /** The cart after a session of actions from the empty cart. */
  function Session(actions: seq<CartAction>): seq<CartLine>
    decreases |actions|
  {
    if actions == [] then [] else Apply(Session(actions[..|actions| - 1]), actions[|actions| - 1])
  }

  /** However the shopper adds, changes and removes, the cart never holds two
      entries for one product, nor an entry with no units. */
  lemma {:induction false} SessionInvariants(actions: seq<CartAction>)
    ensures UniqueIds(Session(actions)) && Positive(Session(actions))
    decreases |actions|
  {
    if actions != [] {
      var before := Session(actions[..|actions| - 1]);
      SessionInvariants(actions[..|actions| - 1]);
      match actions[|actions| - 1]
      case Add(p) => AddKeepsInvariants(before, p);
      case Update(id, change) => UpdateKeepsInvariants(before, id, change);
      case Remove(id) => RemoveKeepsInvariants(before, id);
    }
  }

  // ---------------------------------------------------------------- placing the order

  /** The customer form; an empty field is falsy. */
  datatype CustomerForm = CustomerForm(name: string, phone: string, address: string)

  datatype CheckoutError = CartEmpty | MissingFields | InvalidPhone

  datatype Checkout = Refused(error: CheckoutError) | Submitted(request: OrderRoutes.OrderRequest)

  /** `items: cart.map(item => ({ productId: item._id, quantity: item.quantity }))` */
  function OrderItems(cart: seq<CartLine>): (items: seq<OrderLines.ItemRequest>)
    ensures |items| == |cart|
    ensures forall i :: 0 <= i < |cart| ==> items[i] == OrderLines.ItemRequest(cart[i].id, cart[i].quantity)
  {
    seq(|cart|, i requires 0 <= i < |cart| => OrderLines.ItemRequest(cart[i].id, cart[i].quantity))
  }

  /** `handlePlaceOrder` up to the API call: the three checks in order, then
      the request body. `discount: 0` is falsy, so the backend reads it as
      absent. The address field is sent as typed, an empty one as `''`. */
  function PlaceOrder(shopId: Id, cart: seq<CartLine>, form: CustomerForm): Checkout {
    if |cart| == 0 then Refused(CartEmpty)
    else if form.name == "" || form.phone == "" then Refused(MissingFields)
    else if !IsPhone10(form.phone) then Refused(InvalidPhone)
    else Submitted(OrderRoutes.OrderRequest(
      OrderRoutes.CustomerRequest(form.name, form.phone, Some(form.address)),
      OrderItems(cart), CartTotal(cart), None, Some("public_page"), Some(shopId)))
  }

  /** The request is sent iff the cart has entries, both name and phone are
      filled in and the phone is ten digits; each refusal names the first
      check that failed. */
  lemma PlaceOrderChecks(shopId: Id, cart: seq<CartLine>, form: CustomerForm)
    ensures PlaceOrder(shopId, cart, form).Submitted? <==> cart != [] && form.name != "" && IsPhone10(form.phone)
    ensures PlaceOrder(shopId, cart, form) == Refused(CartEmpty) <==> cart == []
    ensures PlaceOrder(shopId, cart, form) == Refused(InvalidPhone)
            <==> cart != [] && form.name != "" && form.phone != "" && !IsPhone10(form.phone)
  {
  }

  /** The body lists the cart's entries in order as (product, quantity), with
      the cart total, no discount, source 'public_page' and the shop's id. */
  lemma PlaceOrderPayload(shopId: Id, cart: seq<CartLine>, form: CustomerForm)
    requires PlaceOrder(shopId, cart, form).Submitted?
    ensures var r := PlaceOrder(shopId, cart, form).request;
            && |r.items| == |cart|
            && (forall i :: 0 <= i < |cart| ==> r.items[i].productId == cart[i].id && r.items[i].quantity == cart[i].quantity)
            && r.total == CartTotal(cart) && r.discount.GetOr(0) == 0
            && OrderRoutes.SourceOr(r.source) == "public_page" && r.shopId == Some(shopId)
            && r.customer.name == form.name && r.customer.phone == form.phone
            && r.customer.address == Some(form.address)
  {
  }

  /** A cart the shopper built, with listed prices of at least 0, and a name
      that is not all whitespace: the backend's validation chain accepts the
      request the page sends. */
  lemma SubmittedPassesValidation(shopId: Id, actions: seq<CartAction>, form: CustomerForm)
    requires PlaceOrder(shopId, Session(actions), form).Submitted?
    requires forall i :: 0 <= i < |Session(actions)| ==> Session(actions)[i].price >= 0
    requires Trim(form.name) != ""
    ensures OrderRoutes.RequestValid(PlaceOrder(shopId, Session(actions), form).request)
  {
    SessionInvariants(actions);
    CartPassesValidation(shopId, Session(actions), form);
  }

  lemma CartPassesValidation(shopId: Id, cart: seq<CartLine>, form: CustomerForm)
    requires PlaceOrder(shopId, cart, form).Submitted? && Positive(cart)
    requires forall i :: 0 <= i < |cart| ==> cart[i].price >= 0
    requires Trim(form.name) != ""
    ensures OrderRoutes.RequestValid(PlaceOrder(shopId, cart, form).request)
  {
    var r := PlaceOrder(shopId, cart, form).request;
    assert r.total >= 0 by { NonNegativeTotal(cart); }
    assert Trim(r.customer.phone) == r.customer.phone by { Phone10Trimmed(form.phone); }
    assert forall i :: 0 <= i < |r.items| ==> r.items[i].quantity >= 1;
  }

  lemma {:induction false} NonNegativeTotal(cart: seq<CartLine>)
    requires Positive(cart)
    requires forall i :: 0 <= i < |cart| ==> cart[i].price >= 0
    ensures CartTotal(cart) >= 0
  {
    if cart != [] {
      TailInvariants(cart);
      assert forall i :: 0 <= i < |cart| - 1 ==> cart[1..][i] == cart[i + 1];
      NonNegativeTotal(cart[1..]);
    }
  }

  /** The page checks that the name is non-empty, the backend that it is
      non-empty after trimming: a name of spaces passes the page and is
      refused by the server with 400. */
  lemma BlankNameRefusedOnlyByServer(shopId: Id, p: Listing, phone: string)
    requires IsPhone10(phone) && p.stock >= 1
    ensures PlaceOrder(shopId, AddToCart([], p), CustomerForm(" ", phone, "")).Submitted?
    ensures !OrderRoutes.RequestValid(PlaceOrder(shopId, AddToCart([], p), CustomerForm(" ", phone, "")).request)
  {
    var cart := AddToCart([], p);
    assert cart == [NewLine(p)];
    var c := PlaceOrder(shopId, cart, CustomerForm(" ", phone, ""));
    assert c.Submitted? && c.request.customer.name == " ";
    assert Trim(" ") == "" by {
      TrimEmptyIff(" ");
    }
  }
}
