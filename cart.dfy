/** The cart of src/context/CartContext.tsx: the pure list updates of
    `addToCart`, `removeFromCart`, `updateQuantity` and `clearCart`, the
    two reduces `getCartTotal` and `getCartCount`, the Buy-X-Get-Y
    recomputation with its nested loops, and the cart state they update. */
module Cart {
  import opened Wrappers
  import opened Catalog
  import Seqs
  import Arith

  /** A cart line: the product it was made from, its quantity and whether
      it is a free bonus line. */
  datatype CartItem = CartItem(product: Product, quantity: int, isBonusItem: bool)

  /** The line `addToCart` merges into: same id, same variant, same charm
      count, and not a bonus line. */
  predicate SameLine(item: CartItem, product: Product) {
    item.product.id == product.id && item.product.variant == product.variant &&
    item.product.charms == product.charms && !item.isBonusItem
  }

  predicate HasLine(items: seq<CartItem>, product: Product) {
    exists i :: 0 <= i < |items| && SameLine(items[i], product)
  }

  /** The state update of `addToCart`: afterwards the product has its
      line; the cart grows by one line exactly when it had none, and the
      old lines keep their products and their kind. */
  function AddToCart(items: seq<CartItem>, product: Product): (r: seq<CartItem>)
    ensures HasLine(r, product)
    ensures |r| == if HasLine(items, product) then |items| else |items| + 1
    ensures forall i :: 0 <= i < |items| ==>
              r[i].product == items[i].product && r[i].isBonusItem == items[i].isBonusItem
  {
    if HasLine(items, product) then
      IncrementKeepsLine(items, product);
      seq(|items|, i requires 0 <= i < |items| =>
        if SameLine(items[i], product) then items[i].(quantity := items[i].quantity + 1) else items[i])
    else
      assert SameLine((items + [CartItem(product, 1, false)])[|items|], product);
      items + [CartItem(product, 1, false)]
  }

  /** Incrementing the matching lines keeps a line for the product. */
  lemma IncrementKeepsLine(items: seq<CartItem>, product: Product)
    requires HasLine(items, product)
    ensures HasLine(seq(|items|, i requires 0 <= i < |items| =>
              if SameLine(items[i], product) then items[i].(quantity := items[i].quantity + 1) else items[i]),
              product)
  {
    var k :| 0 <= k < |items| && SameLine(items[k], product);
    var r := seq(|items|, i requires 0 <= i < |items| =>
      if SameLine(items[i], product) then items[i].(quantity := items[i].quantity + 1) else items[i]);
    assert SameLine(r[k], product);
  }

  predicate NotBonus(item: CartItem) { !item.isBonusItem }

  /** `item.id !== productId` */
  function IdIsNot(productId: int): CartItem -> bool {
    (item: CartItem) => item.product.id != productId
  }

  /** The state update of `removeFromCart`: no line of that id is left,
      and every line of another id stays. */
  function RemoveFromCart(items: seq<CartItem>, productId: int): (r: seq<CartItem>)
    ensures forall i :: 0 <= i < |r| ==> r[i].product.id != productId && r[i] in items
    ensures forall i :: 0 <= i < |items| && items[i].product.id != productId ==> items[i] in r
  {
    Seqs.Filter(IdIsNot(productId), items)
  }

  /** The state update of `updateQuantity`: below 1 it removes the product;
      every line of that id left holds the new quantity. */
  function UpdateQuantity(items: seq<CartItem>, productId: int, quantity: int): (r: seq<CartItem>)
    ensures quantity >= 1 ==> |r| == |items|
    ensures forall i :: 0 <= i < |r| && r[i].product.id == productId ==> quantity >= 1 && r[i].quantity == quantity
  {
    if quantity < 1 then RemoveFromCart(items, productId)
    else
      seq(|items|, i requires 0 <= i < |items| =>
        if items[i].product.id == productId then items[i].(quantity := quantity) else items[i])
  }

  /** `getCartTotal`: bonus lines are free, the others cost their effective
      price per unit. */
  function CartTotal(items: seq<CartItem>): (t: real)
    ensures (forall i :: 0 <= i < |items| ==> items[i].isBonusItem) ==> t == 0.0
    ensures (forall i :: 0 <= i < |items| ==> LineCost(items[i]) >= 0.0) ==> t >= 0.0
    decreases |items|
  {
    if items == [] then 0.0
    else
      CartTotal(items[..|items| - 1]) + LineCost(items[|items| - 1])
  }

  /** What one line adds to the total. */
  function LineCost(item: CartItem): real {
    if item.isBonusItem then 0.0 else EffectivePrice(item.product) * item.quantity as real
  }

  /** `getCartCount`: the quantities of all lines, bonus lines included. */
  function CartCount(items: seq<CartItem>): (c: int)
    ensures (forall i :: 0 <= i < |items| ==> items[i].quantity >= 1) ==> c >= |items|
    decreases |items|
  {
    if items == [] then 0 else CartCount(items[..|items| - 1]) + items[|items| - 1].quantity
  }

  lemma {:induction false} CartCountAppend(a: seq<CartItem>, b: seq<CartItem>)
    ensures CartCount(a + b) == CartCount(a) + CartCount(b)
    decreases |b|
  {
    if b == [] {
      assert a + b == a;
    } else {
      assert (a + b)[..|a + b| - 1] == a + b[..|b| - 1];
      CartCountAppend(a, b[..|b| - 1]);
    }
  }

  lemma {:induction false} CartTotalAppend(a: seq<CartItem>, b: seq<CartItem>)
    ensures CartTotal(a + b) == CartTotal(a) + CartTotal(b)
    decreases |b|
  {
    if b == [] {
      assert a + b == a;
    } else {
      assert (a + b)[..|a + b| - 1] == a + b[..|b| - 1];
      CartTotalAppend(a, b[..|b| - 1]);
    }
  }

  /** The total ignores bonus lines: it is the total of the paid lines
      alone. */
  lemma {:induction false} CartTotalSkipsBonus(items: seq<CartItem>)
    ensures CartTotal(items) == CartTotal(Seqs.Filter(NotBonus, items))
    decreases |items|
  {
    if items != [] {
      var items' := items[..|items| - 1];
      var last := items[|items| - 1];
      CartTotalSkipsBonus(items');
      if !last.isBonusItem {
        assert Seqs.Filter(NotBonus, items) == Seqs.Filter(NotBonus, items') + [last];
        CartTotalAppend(Seqs.Filter(NotBonus, items'), [last]);
        assert CartTotal([last]) == LineCost(last) by {
          assert [last][..0] == [];
        }
      } else {
        assert Seqs.Filter(NotBonus, items) == Seqs.Filter(NotBonus, items');
      }
    }
  }

  /** No two paid lines share (id, variant, charms): the shape `addToCart`
      keeps. */
  predicate DistinctLines(items: seq<CartItem>) {
    forall i, j :: 0 <= i < j < |items| && !items[i].isBonusItem && !items[j].isBonusItem ==>
      items[i].product.id != items[j].product.id ||
      items[i].product.variant != items[j].product.variant ||
      items[i].product.charms != items[j].product.charms
  }

  /** Adding a product that already has its line increments that line only,
      leaving the length and every other line as they were; adding a new
      one appends a fresh line of quantity 1 after the untouched old lines. */
  lemma AddToCartEffect(items: seq<CartItem>, product: Product)
    ensures var r := AddToCart(items, product);
            && (HasLine(items, product) ==>
                  |r| == |items| &&
                  forall i :: 0 <= i < |items| ==>
                    r[i].product == items[i].product && r[i].isBonusItem == items[i].isBonusItem &&
                    r[i].quantity == items[i].quantity + (if SameLine(items[i], product) then 1 else 0))
            && (!HasLine(items, product) ==>
                  |r| == |items| + 1 && r[..|items|] == items &&
                  r[|items|] == CartItem(product, 1, false))
  {
    var r := AddToCart(items, product);
    if !HasLine(items, product) {
      assert r[..|items|] == items;
    }
  }

  lemma {:induction false} CountOfMatchingIncrement(items: seq<CartItem>, product: Product, k: nat)
    requires DistinctLines(items) && k < |items| && SameLine(items[k], product)
    ensures CartCount(seq(|items|, i requires 0 <= i < |items| =>
              if SameLine(items[i], product) then items[i].(quantity := items[i].quantity + 1) else items[i]))
            == CartCount(items) + 1
    decreases |items|
  {
    var n := |items|;
    var r := seq(n, i requires 0 <= i < n =>
      if SameLine(items[i], product) then items[i].(quantity := items[i].quantity + 1) else items[i]);
    var items' := items[..n - 1];
    var r' := seq(n - 1, i requires 0 <= i < n - 1 =>
      if SameLine(items'[i], product) then items'[i].(quantity := items'[i].quantity + 1) else items'[i]);
    assert r[..n - 1] == r';
    if k == n - 1 {
      forall i | 0 <= i < n - 1 ensures r'[i] == items'[i] {
        assert !SameLine(items[i], product);
      }
      assert r' == items';
    } else {
      assert !SameLine(items[n - 1], product);
      CountOfMatchingIncrement(items', product, k);
    }
  }

  /** Adding one product always adds one unit to the count and keeps the
      paid lines distinct. */
  lemma AddToCartCount(items: seq<CartItem>, product: Product)
    requires DistinctLines(items)
    ensures CartCount(AddToCart(items, product)) == CartCount(items) + 1
    ensures DistinctLines(AddToCart(items, product))
  {
    var r := AddToCart(items, product);
    if HasLine(items, product) {
      var k :| 0 <= k < |items| && SameLine(items[k], product);
      CountOfMatchingIncrement(items, product, k);
    } else {
      CartCountAppend(items, [CartItem(product, 1, false)]);
    }
  }

  /** Removing drops every line of that id and keeps the others in order. */
  lemma RemoveFromCartEffect(items: seq<CartItem>, productId: int)
    ensures var r := RemoveFromCart(items, productId);
            && (forall i :: 0 <= i < |r| ==> r[i].product.id != productId)
            && (forall i :: 0 <= i < |items| && items[i].product.id != productId ==> items[i] in r)
            && Seqs.IsSubsequence(r, items)
  {
    Seqs.FilterIsSubsequence(IdIsNot(productId), items);
  }

  /** A quantity below 1 removes the product; otherwise every line of that
      id gets the new quantity and nothing else changes. */
  lemma UpdateQuantityEffect(items: seq<CartItem>, productId: int, quantity: int)
    ensures quantity < 1 ==> UpdateQuantity(items, productId, quantity) == RemoveFromCart(items, productId)
    ensures quantity >= 1 ==>
              var r := UpdateQuantity(items, productId, quantity);
              |r| == |items| &&
              forall i :: 0 <= i < |items| ==>
                r[i].product == items[i].product && r[i].isBonusItem == items[i].isBonusItem &&
                r[i].quantity == (if items[i].product.id == productId then quantity else items[i].quantity)
  {
  }

  // ---- Buy X, get Y ----

  /** `Math.floor(a / b)` for integers, b != 0: Dafny's division rounds
      down only for a positive divisor, so a negative one is turned round. */
  function FloorDiv(a: int, b: int): int
    requires b != 0
  {
    if b > 0 then Arith.Div(a, b) else Arith.Div(-a, -b)
  }

  /** `FloorDiv` is the floor of the exact quotient: the largest q with
      q * b <= a for b > 0, and the largest q with q * b >= a for b < 0. */
  lemma FloorDivBounds(a: int, b: int)
    requires b != 0
    ensures b > 0 ==> FloorDiv(a, b) * b <= a < FloorDiv(a, b) * b + b
    ensures b < 0 ==> FloorDiv(a, b) * b + b < a <= FloorDiv(a, b) * b
  {
    if b > 0 {
      Arith.DivIsQuotient(a, b);
    } else {
      Arith.DivIsQuotient(-a, -b);
    }
  }

  /** `Math.floor(quantity / X) * Y` */
  function BonusQuantity(quantity: int, x: int, y: int): int
    requires x != 0
  {
    FloorDiv(quantity, x) * y
  }

  /** A promotion gives a bonus line for this cart line: it is unexpired,
      X and Y parse, the quantity reaches X, and the bonus is positive.
      An X of 0 is taken not to qualify. */
  predicate Qualifies(item: CartItem, promo: Promotion, now: int) {
    Unexpired(promo, now) && promo.x.Some? && promo.y.Some? && promo.x.value != 0 &&
    item.quantity >= promo.x.value &&
    BonusQuantity(item.quantity, promo.x.value, promo.y.value) > 0
  }

  /** The product of a bonus line: free, under its id plus 10000. */
  function BonusProduct(p: Product): Product {
    p.(id := p.id + 10000, price := 0.0)
  }

  /** `{ ...cartItem, quantity: bonus, isBonusItem: true, price: 0, id: id + 10000 }` */
  function BonusLine(item: CartItem, promo: Promotion, now: int): CartItem
    requires Qualifies(item, promo, now)
  {
    CartItem(BonusProduct(item.product), BonusQuantity(item.quantity, promo.x.value, promo.y.value), true)
  }

  /** The bonus lines pushed for one cart line by its first n promotions. */
  function LineBonuses(item: CartItem, now: int, n: nat): seq<CartItem>
    requires n <= |item.product.buyXGetY|
  {
    if n == 0 then []
    else
      var promo := item.product.buyXGetY[n - 1];
      LineBonuses(item, now, n - 1) + (if Qualifies(item, promo, now) then [BonusLine(item, promo, now)] else [])
  }

  /** One more promotion pushes, after the lines already pushed, its bonus
      line exactly when it qualifies. */
  lemma LineBonusesStep(acc: seq<CartItem>, item: CartItem, now: int, n: nat, bonus: Option<CartItem>)
    requires n < |item.product.buyXGetY|
    requires bonus.Some? <==> Qualifies(item, item.product.buyXGetY[n], now)
    requires bonus.Some? ==> bonus.value == BonusLine(item, item.product.buyXGetY[n], now)
    ensures bonus.Some? ==> acc + LineBonuses(item, now, n + 1) == acc + LineBonuses(item, now, n) + [bonus.value]
    ensures bonus.None? ==> acc + LineBonuses(item, now, n + 1) == acc + LineBonuses(item, now, n)
  {
  }

  /** The bonus lines pushed for the given cart lines, in order. */
  function Bonuses(lines: seq<CartItem>, now: int): seq<CartItem>
    decreases |lines|
  {
    if lines == [] then []
    else
      var last := lines[|lines| - 1];
      Bonuses(lines[..|lines| - 1], now) + LineBonuses(last, now, |last.product.buyXGetY|)
  }

  /** The state `applyBuyXGetYPromotions` computes: drop the old bonus
      lines, keep the paid ones in order, and append the bonus lines. */
  function Promoted(items: seq<CartItem>, now: int): (r: seq<CartItem>)
    ensures forall i :: 0 <= i < |items| && !items[i].isBonusItem ==> items[i] in r
    ensures forall k :: |Seqs.Filter(NotBonus, items)| <= k < |r| ==> r[k].isBonusItem && r[k].quantity >= 1
  {
    var paid := Seqs.Filter(NotBonus, items);
    BonusesAreBonus(paid, now);
    assert forall i :: 0 <= i < |items| && !items[i].isBonusItem ==> NotBonus(items[i]);
    paid + Bonuses(paid, now)
  }

  /** `applyBuyXGetYPromotions`; the clock is read once as `now`.  The
      second result is the `addedBonusItems` flag that decides the toast. */
  method ApplyBuyXGetYPromotions(items: seq<CartItem>, now: int)
    returns (updatedItems: seq<CartItem>, addedBonusItems: bool)
    ensures updatedItems == Promoted(items, now)
    ensures addedBonusItems <==> |updatedItems| > |Seqs.Filter(NotBonus, items)|
  {
    updatedItems := Seqs.Filter(NotBonus, items);
    addedBonusItems := false;
    var paid := updatedItems;
    var i := 0;
    while i < |paid|
      invariant 0 <= i <= |paid|
      invariant updatedItems == paid + Bonuses(paid[..i], now)
      invariant addedBonusItems <==> |updatedItems| > |paid|
    {
      var cartItem := paid[i];
      assert paid[..i + 1][..i] == paid[..i];
      if |cartItem.product.buyXGetY| > 0 {
        updatedItems, addedBonusItems := PushLineBonuses(updatedItems, addedBonusItems, cartItem, now);
      }
      i := i + 1;
    }
    assert paid[..i] == paid;
  }

  /** The inner loop of `applyBuyXGetYPromotions`: one cart line's
      promotions, in order, each pushing its bonus line when it
      qualifies. */
  method PushLineBonuses(acc: seq<CartItem>, added: bool, cartItem: CartItem, now: int)
    returns (updatedItems: seq<CartItem>, addedBonusItems: bool)
    ensures updatedItems == acc + LineBonuses(cartItem, now, |cartItem.product.buyXGetY|)
    ensures addedBonusItems <==> added || |updatedItems| > |acc|
  {
    updatedItems, addedBonusItems := acc, added;
    var promos := cartItem.product.buyXGetY;
    var j := 0;
    while j < |promos|
      invariant 0 <= j <= |promos|
      invariant updatedItems == acc + LineBonuses(cartItem, now, j)
      invariant addedBonusItems <==> added || |updatedItems| > |acc|
    {
      updatedItems, addedBonusItems := PushPromotionBonus(acc, added, updatedItems, addedBonusItems, cartItem, j, now);
      j := j + 1;
    }
  }

  /** One pass of the inner loop of `applyBuyXGetYPromotions`: promotion
      j pushes its bonus line, if any, and raises the flag with it. */
  method PushPromotionBonus(acc: seq<CartItem>, added: bool, items: seq<CartItem>, flag: bool,
                            cartItem: CartItem, j: nat, now: int)
    returns (updatedItems: seq<CartItem>, addedBonusItems: bool)
    requires j < |cartItem.product.buyXGetY|
    requires items == acc + LineBonuses(cartItem, now, j)
    requires flag <==> added || |items| > |acc|
    ensures updatedItems == acc + LineBonuses(cartItem, now, j + 1)
    ensures addedBonusItems <==> added || |updatedItems| > |acc|
  {
    updatedItems, addedBonusItems := items, flag;
    var bonusItem := PromotionBonus(cartItem, cartItem.product.buyXGetY[j], now);
    LineBonusesStep(acc, cartItem, now, j, bonusItem);
    if bonusItem.Some? {
      updatedItems := updatedItems + [bonusItem.value];
      addedBonusItems := true;
    }
  }

  /** The body of the inner loop of `applyBuyXGetYPromotions`: the bonus
      line one promotion pushes, if any. */
  method PromotionBonus(cartItem: CartItem, promo: Promotion, now: int) returns (bonus: Option<CartItem>)
    ensures bonus.Some? <==> Qualifies(cartItem, promo, now)
    ensures bonus.Some? ==> bonus.value == BonusLine(cartItem, promo, now)
  {
    bonus := None;
    if Unexpired(promo, now) && promo.x.Some? && promo.y.Some? && promo.x.value != 0 {
      var xQuantity := promo.x.value;
      var yQuantity := promo.y.value;
      if cartItem.quantity >= xQuantity {
        var qualifyingPairs := FloorDiv(cartItem.quantity, xQuantity);
        var bonusItemsToAdd := qualifyingPairs * yQuantity;
        if bonusItemsToAdd > 0 {
          bonus := Some(CartItem(BonusProduct(cartItem.product), bonusItemsToAdd, true));
        }
      }
    }
  }

  lemma {:induction false} LineBonusesAreBonus(item: CartItem, now: int, n: nat)
    requires n <= |item.product.buyXGetY|
    ensures forall k :: 0 <= k < |LineBonuses(item, now, n)| ==>
              LineBonuses(item, now, n)[k].isBonusItem && LineBonuses(item, now, n)[k].quantity >= 1
  {
    if n > 0 {
      LineBonusesAreBonus(item, now, n - 1);
    }
  }

  lemma {:induction false} BonusesAreBonus(lines: seq<CartItem>, now: int)
    ensures forall k :: 0 <= k < |Bonuses(lines, now)| ==>
              Bonuses(lines, now)[k].isBonusItem && Bonuses(lines, now)[k].quantity >= 1
    decreases |lines|
  {
    if lines != [] {
      var last := lines[|lines| - 1];
      BonusesAreBonus(lines[..|lines| - 1], now);
      LineBonusesAreBonus(last, now, |last.product.buyXGetY|);
    }
  }

  /** The recomputation keeps exactly the paid lines, in order, and every
      line it adds is a bonus line of positive quantity. */
  lemma PromotedShape(items: seq<CartItem>, now: int)
    ensures var paid := Seqs.Filter(NotBonus, items);
            && Promoted(items, now)[..|paid|] == paid
            && (forall k :: |paid| <= k < |Promoted(items, now)| ==>
                  Promoted(items, now)[k].isBonusItem && Promoted(items, now)[k].quantity >= 1)
            && Seqs.Filter(NotBonus, Promoted(items, now)) == paid
  {
    var paid := Seqs.Filter(NotBonus, items);
    var b := Bonuses(paid, now);
    BonusesAreBonus(paid, now);
    assert (paid + b)[..|paid|] == paid;
    forall k | |paid| <= k < |paid + b| ensures (paid + b)[k].isBonusItem && (paid + b)[k].quantity >= 1 {
      assert (paid + b)[k] == b[k - |paid|];
    }
    PromotedKeepsPaid(paid, b);
  }

  /** Dropping the bonus lines of paid lines followed by bonus lines gives
      back the paid lines. */
  lemma PromotedKeepsPaid(paid: seq<CartItem>, b: seq<CartItem>)
    requires forall k :: 0 <= k < |paid| ==> NotBonus(paid[k])
    requires forall k :: 0 <= k < |b| ==> b[k].isBonusItem
    ensures Seqs.Filter(NotBonus, paid + b) == paid
  {
    Seqs.FilterAppend(NotBonus, paid, b);
    forall x | x in paid ensures NotBonus(x) {
      var k :| 0 <= k < |paid| && paid[k] == x;
    }
    Seqs.FilterAll(NotBonus, paid);
    forall x | x in b ensures !NotBonus(x) {
      var k :| 0 <= k < |b| && b[k] == x;
    }
    Seqs.FilterNone(NotBonus, b);
  }

  /** For a fixed clock, recomputing the promotions a second time changes
      nothing. */
  lemma PromotedIdempotent(items: seq<CartItem>, now: int)
    ensures Promoted(Promoted(items, now), now) == Promoted(items, now)
  {
    PromotedShape(items, now);
  }

  /** A paid line of q units whose product has one unexpired promotion
      with X, Y > 0 and q >= X gets one bonus line after it: floor(q / X) * Y
      free units of the product, at id + 10000. */
  lemma SinglePromotionBonusLine(product: Product, promo: Promotion, q: int, now: int)
    requires product.buyXGetY == [promo]
    requires Unexpired(promo, now) && promo.x.Some? && promo.y.Some?
    requires promo.x.value > 0 && promo.y.value > 0 && q >= promo.x.value
    ensures Promoted([CartItem(product, q, false)], now) ==
              [CartItem(product, q, false),
               CartItem(BonusProduct(product), (q / promo.x.value) * promo.y.value, true)]
  {
    var line := CartItem(product, q, false);
    var x, y := promo.x.value, promo.y.value;
    assert [line][..0] == [];
    assert Seqs.Filter(NotBonus, [line]) == [line];
    Arith.DivIsQuotient(q, x);
    Arith.DivMonotone(x, q, x);
    Arith.DivExact(1, x);
    assert q / x >= 1;
    Arith.MulMonotone(1, q / x, y);
    assert Qualifies(line, promo, now);
    var bonus := BonusLine(line, promo, now);
    assert LineBonuses(line, now, 1) == [bonus];
    assert Bonuses([line], now) == [bonus];
  }

  /** The cart state of `CartProvider`. */
  class CartState {
    var cartItems: seq<CartItem>

    /** Every line holds at least one unit and the paid lines are distinct. */
    predicate Valid()
      reads this
    {
      (forall i :: 0 <= i < |cartItems| ==> cartItems[i].quantity >= 1) && DistinctLines(cartItems)
    }

    constructor ()
      ensures cartItems == [] && Valid()
    {
      cartItems := [];
    }

    function Total(): real
      reads this
    {
      CartTotal(cartItems)
    }

    function Count(): int
      reads this
    {
      CartCount(cartItems)
    }

    method AddToCartAction(product: Product)
      requires Valid()
      modifies this
      ensures cartItems == AddToCart(old(cartItems), product)
      ensures Valid() && Count() == old(Count()) + 1
    {
      AddToCartCount(cartItems, product);
      AddToCartEffect(cartItems, product);
      cartItems := AddToCart(cartItems, product);
    }

    method RemoveFromCartAction(productId: int)
      requires Valid()
      modifies this
      ensures cartItems == RemoveFromCart(old(cartItems), productId)
      ensures Valid()
    {
      var r := RemoveFromCart(cartItems, productId);
      RemoveKeepsValid(cartItems, r, productId);
      cartItems := r;
    }

    method UpdateQuantityAction(productId: int, quantity: int)
      requires Valid()
      modifies this
      ensures cartItems == UpdateQuantity(old(cartItems), productId, quantity)
      ensures Valid()
    {
      var r := UpdateQuantity(cartItems, productId, quantity);
      if quantity < 1 {
        RemoveKeepsValid(cartItems, r, productId);
      }
      cartItems := r;
    }

    method ClearCartAction()
      modifies this
      ensures cartItems == [] && Valid() && Count() == 0 && Total() == 0.0
    {
      cartItems := [];
    }

    method ApplyPromotionsAction(now: int) returns (addedBonusItems: bool)
      requires Valid()
      modifies this
      ensures cartItems == Promoted(old(cartItems), now)
      ensures Valid() && Total() == old(Total())
    {
      PromotedKeepsTotal(cartItems, now);
      PromotedKeepsValid(cartItems, now);
      cartItems, addedBonusItems := ApplyBuyXGetYPromotions(cartItems, now);
    }
  }

  lemma RemoveKeepsValid(items: seq<CartItem>, r: seq<CartItem>, productId: int)
    requires (forall i :: 0 <= i < |items| ==> items[i].quantity >= 1) && DistinctLines(items)
    requires r == RemoveFromCart(items, productId)
    ensures (forall i :: 0 <= i < |r| ==> r[i].quantity >= 1) && DistinctLines(r)
  {
    Seqs.FilterIsSubsequence(IdIsNot(productId), items);
    SubsequenceKeepsDistinct(r, items);
  }

  lemma {:induction false} SubsequenceKeepsDistinct(a: seq<CartItem>, b: seq<CartItem>)
    requires Seqs.IsSubsequence(a, b)
    requires (forall i :: 0 <= i < |b| ==> b[i].quantity >= 1) && DistinctLines(b)
    ensures (forall i :: 0 <= i < |a| ==> a[i].quantity >= 1) && DistinctLines(a)
    decreases |b|
  {
    if a != [] && b != [] {
      var b' := b[..|b| - 1];
      assert DistinctLines(b') by {
        forall i, j | 0 <= i < j < |b'| ensures b'[i] == b[i] && b'[j] == b[j] { }
      }
      if a[|a| - 1] == b[|b| - 1] {
        var a' := a[..|a| - 1];
        SubsequenceKeepsDistinct(a', b');
        Seqs.SubsequenceMembers(a', b');
        forall i | 0 <= i < |a| - 1 && !a[i].isBonusItem && !a[|a| - 1].isBonusItem
          ensures a[i].product.id != a[|a| - 1].product.id ||
                  a[i].product.variant != a[|a| - 1].product.variant ||
                  a[i].product.charms != a[|a| - 1].product.charms
        {
          assert a[i] == a'[i];
          var k :| 0 <= k < |b'| && b'[k] == a[i];
          assert b[k] == a[i];
        }
      } else {
        SubsequenceKeepsDistinct(a, b');
      }
    }
  }

  /** Bonus lines are free: the recomputation leaves the total unchanged. */
  lemma PromotedKeepsTotal(items: seq<CartItem>, now: int)
    ensures CartTotal(Promoted(items, now)) == CartTotal(items)
  {
    CartTotalSkipsBonus(items);
    PromotedShape(items, now);
    CartTotalSkipsBonus(Promoted(items, now));
  }

  lemma PromotedKeepsValid(items: seq<CartItem>, now: int)
    requires (forall i :: 0 <= i < |items| ==> items[i].quantity >= 1) && DistinctLines(items)
    ensures var r := Promoted(items, now);
            (forall i :: 0 <= i < |r| ==> r[i].quantity >= 1) && DistinctLines(r)
  {
    var paid := Seqs.Filter(NotBonus, items);
    Seqs.FilterIsSubsequence(NotBonus, items);
    SubsequenceKeepsDistinct(paid, items);
    PromotedShape(items, now);
    var r := Promoted(items, now);
    forall i | 0 <= i < |r| ensures r[i].quantity >= 1 {
      if i < |paid| {
        assert r[i] == paid[i];
      }
    }
    forall i, j | 0 <= i < j < |r| && !r[i].isBonusItem && !r[j].isBonusItem
      ensures r[i].product.id != r[j].product.id ||
              r[i].product.variant != r[j].product.variant ||
              r[i].product.charms != r[j].product.charms
    {
      assert j < |paid|;
      assert r[i] == paid[i] && r[j] == paid[j];
    }
  }
}
