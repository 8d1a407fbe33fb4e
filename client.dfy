/**
 * The browser client's state: the cart, the order list and the restaurant list, with the
 * cart operations, the summary and checkout pricing, the demo-mode order placement, the
 * restaurant search filter and the logout reset.
 */
module Client {
  import opened Wrappers
  import opened Pricing
  import Decimal
  import Orders

  datatype Restaurant = Restaurant(id: string, name: string, cuisine: string, description: Option<string>)

  /** A cart entry `{ id, name, price, quantity, restaurant }`. */
  datatype CartEntry = CartEntry(id: string, name: string, price: real, quantity: int, restaurant: string)

  /** A line of a locally held order: `{ menuItem: { name }, quantity, price }`. */
  datatype OrderLine = OrderLine(name: string, quantity: int, price: real)

  /** An order in `state.orders`, as the demo checkout builds it. */
  datatype ClientOrder = ClientOrder(
    id: string,
    orderNumber: string,
    restaurantName: string,
    items: seq<OrderLine>,
    totalPrice: real,
    tax: real,
    deliveryFee: real,
    deliveryAddress: string,
    paymentMethod: string,
    status: Orders.Status,
    estimatedDeliveryTime: nat,
    createdAt: nat)

  // ---------------------------------------------------------------- quantity input

  /** The ASCII white space characters: space, tab, line feed, vertical tab, form feed, carriage return. */
  predicate IsSpace(c: char) {
    c == ' ' || c == '\t' || c == '\n' || c == '\U{B}' || c == '\U{C}' || c == '\r'
  }

  /** Every character of t is white space. */
  predicate AllSpace(t: string) {
    forall i :: 0 <= i < |t| ==> IsSpace(t[i])
  }

  /** Drops the leading white space: what is removed is all white space, what remains does not start with it. */
  function TrimStart(s: string): (r: string)
    ensures |r| <= |s| && r == s[|s| - |r|..] && AllSpace(s[..|s| - |r|])
    ensures r != [] ==> !IsSpace(r[0])
  {
    if s != [] && IsSpace(s[0]) then
      var r := TrimStart(s[1..]);
      var k := |s| - |r|;
      assert s[..k] == [s[0]] + s[1..][..k - 1];
      assert s[k..] == s[1..][k - 1..];
      r
    else
      assert s[..0] == [];
      s
  }

  /** Drops the trailing white space: what is removed is all white space, what remains does not end with it. */
  function TrimEnd(s: string): (r: string)
    ensures |r| <= |s| && r == s[..|r|] && AllSpace(s[|r|..])
    ensures r != [] ==> !IsSpace(r[|r| - 1])
  {
    if s != [] && IsSpace(s[|s| - 1]) then
      var t := s[..|s| - 1];
      var r := TrimEnd(t);
      assert s[|r|..] == t[|r|..] + [s[|s| - 1]];
      assert s[..|r|] == t[..|r|];
      r
    else
      assert s[|s|..] == [];
      s
  }

  /** Text that does not start with white space is left as it is. */
  lemma {:induction false} TrimStartOfNonSpace(s: string)
    requires s == [] || !IsSpace(s[0])
    ensures TrimStart(s) == s
  {
  }

  /** Text that does not end with white space is left as it is. */
  lemma {:induction false} TrimEndOfNonSpace(s: string)
    requires s == [] || !IsSpace(s[|s| - 1])
    ensures TrimEnd(s) == s
  {
  }

  function Trim(s: string): string {
    TrimEnd(TrimStart(s))
  }

  /** The longest prefix made of decimal digits. */
  function LeadingDigits(s: string): (r: string)
    ensures r <= s && Decimal.AllDigits(r)
    ensures |r| < |s| ==> !Decimal.IsDigit(s[|r|])
  {
    if s != [] && Decimal.IsDigit(s[0]) then [s[0]] + LeadingDigits(s[1..]) else []
  }

  /**
   * `parseInt(s)` in base 10: leading white space is skipped, an optional sign is read, then
   * the longest run of digits; no digit at all gives NaN (here `None`).
   */
  function ParseInt(s: string): Option<int> {
    var t := TrimStart(s);
    if t != [] && (t[0] == '-' || t[0] == '+') then
      var ds := LeadingDigits(t[1..]);
      if ds == [] then None
      else
        var v: int := Decimal.Value(ds);
        Some(if t[0] == '-' then -v else v)
    else
      var ds := LeadingDigits(t);
      if ds == [] then None else Some(Decimal.Value(ds))
  }

  /** `parseInt(input) || 1`: NaN and 0 fall back to 1, every other parsed value is kept. */
  function RequestedQuantity(input: string): (q: int)
    ensures q != 0
  {
    match ParseInt(input)
    case Some(v) => if v != 0 then v else 1
    case None => 1
  }

  lemma {:induction false} LeadingDigitsOfDigits(s: string)
    requires Decimal.AllDigits(s)
    ensures LeadingDigits(s) == s
  {
    if s != [] {
      LeadingDigitsOfDigits(s[1..]);
    }
  }

  /** The number field's text for n parses back to n, and with a minus sign to -n. */
  lemma {:induction false} ParseIntOfRender(n: nat)
    ensures ParseInt(Decimal.Render(n)) == Some(n)
    ensures ParseInt("-" + Decimal.Render(n)) == Some(-(n as int))
  {
    var s := Decimal.Render(n);
    Decimal.ValueOfRender(n);
    LeadingDigitsOfDigits(s);
    TrimStartOfNonSpace(s);
    var m := "-" + s;
    TrimStartOfNonSpace(m);
    assert m[1..] == s;
  }

  /** The requested quantity follows from the parsed value alone. */
  lemma {:induction false} RequestedQuantityOfParsed(input: string, v: int)
    requires ParseInt(input) == Some(v)
    ensures RequestedQuantity(input) == if v == 0 then 1 else v
  {
  }

  /** The requested quantity for the field's text: the number itself, except that 0 and an
      empty or non-numeric field give 1; a negative number is accepted as it is. */
  lemma {:induction false} RequestedQuantityCases(n: nat)
    ensures RequestedQuantity(Decimal.Render(n)) == if n == 0 then 1 else n
    ensures RequestedQuantity("-" + Decimal.Render(n)) == if n == 0 then 1 else -(n as int)
    ensures RequestedQuantity("") == 1 && RequestedQuantity("abc") == 1
  {
    assert RequestedQuantity("") == 1 by {
      TrimStartOfNonSpace("");
    }
    assert RequestedQuantity("abc") == 1 by {
      TrimStartOfNonSpace("abc");
      assert LeadingDigits("abc") == [];
    }
    ParseIntOfRender(n);
    RequestedQuantityOfParsed(Decimal.Render(n), n);
    RequestedQuantityOfParsed("-" + Decimal.Render(n), -(n as int));
  }

  // ---------------------------------------------------------------- cart

  predicate DistinctIds(cart: seq<CartEntry>) {
    forall j, k :: 0 <= j < k < |cart| ==> cart[j].id != cart[k].id
  }

  /** `state.cart.find(item => item.id === id)`, as the index of the first match. */
  function FindEntry(cart: seq<CartEntry>, id: string): (r: Option<nat>)
    ensures r.Some? ==> r.value < |cart| && cart[r.value].id == id
    ensures r.Some? ==> forall k :: 0 <= k < r.value ==> cart[k].id != id
    ensures r.None? <==> forall k :: 0 <= k < |cart| ==> cart[k].id != id
  {
    if cart == [] then None
    else if cart[0].id == id then Some(0)
    else match FindEntry(cart[1..], id)
      case Some(k) => Some(k + 1)
      case None => None
  }

  /** `state.cart.filter(item => item.id !== id)`. */
  function Without(cart: seq<CartEntry>, id: string): (r: seq<CartEntry>)
    ensures forall k :: 0 <= k < |r| ==> r[k].id != id
    ensures forall e {:trigger e in r} :: e in r <==> e in cart && e.id != id
    ensures |r| <= |cart|
  {
    if cart == [] then []
    else if cart[0].id == id then Without(cart[1..], id)
    else [cart[0]] + Without(cart[1..], id)
  }

  /** Removal distributes over concatenation, so it keeps the order of the remaining entries. */
  lemma {:induction false} WithoutConcat(a: seq<CartEntry>, b: seq<CartEntry>, id: string)
    ensures Without(a + b, id) == Without(a, id) + Without(b, id)
  {
    if a == [] {
      assert a + b == b;
    } else {
      assert (a + b)[1..] == a[1..] + b;
      WithoutConcat(a[1..], b, id);
    }
  }

  /** Removing an id no entry has leaves the cart as it is. */
  lemma {:induction false} WithoutAbsent(cart: seq<CartEntry>, id: string)
    requires forall k :: 0 <= k < |cart| ==> cart[k].id != id
    ensures Without(cart, id) == cart
  {
    if cart != [] {
      WithoutAbsent(cart[1..], id);
      assert cart == [cart[0]] + cart[1..];
    }
  }

  /** Removing the id of the entry at index i of a cart with distinct ids drops that entry. */
  lemma {:induction false} WithoutAt(cart: seq<CartEntry>, id: string, i: nat)
    requires DistinctIds(cart) && i < |cart| && cart[i].id == id
    ensures Without(cart, id) == cart[..i] + cart[i + 1..]
  {
    var rest := cart[1..];
    if i == 0 {
      forall k | 0 <= k < |rest| ensures rest[k].id != id {
        assert rest[k] == cart[k + 1];
      }
      WithoutAbsent(rest, id);
    } else {
      assert cart[0].id != id;
      assert DistinctIds(rest);
      WithoutAt(rest, id, i - 1);
      assert cart[..i] == [cart[0]] + rest[..i - 1];
      assert cart[i + 1..] == rest[i..];
    }
  }

  /** In a cart with distinct ids, removing an id drops exactly the one entry with that id
      and keeps the others in their order; an absent id leaves the cart as it is. */
  lemma {:induction false} WithoutRemovesEntry(cart: seq<CartEntry>, id: string)
    requires DistinctIds(cart)
    ensures FindEntry(cart, id).Some? ==>
              var i := FindEntry(cart, id).value;
              Without(cart, id) == cart[..i] + cart[i + 1..]
    ensures FindEntry(cart, id).None? ==> Without(cart, id) == cart
  {
    match FindEntry(cart, id)
    case Some(i) => WithoutAt(cart, id, i);
    case None => WithoutAbsent(cart, id);
  }

  /** Appending an entry whose id no entry has keeps ids distinct. */
  lemma {:induction false} AppendKeepsDistinct(cart: seq<CartEntry>, e: CartEntry)
    requires DistinctIds(cart)
    requires forall k :: 0 <= k < |cart| ==> cart[k].id != e.id
    ensures DistinctIds(cart + [e])
  {
  }

  /** Changing one entry's quantity in place keeps ids distinct. */
  lemma {:induction false} BumpKeepsDistinct(cart: seq<CartEntry>, i: nat, q: int)
    requires DistinctIds(cart) && i < |cart|
    ensures DistinctIds(Bumped(cart, i, q))
  {
  }

  /** Removing an id keeps the ids of the cart distinct. */
  lemma {:induction false} WithoutKeepsDistinct(cart: seq<CartEntry>, id: string)
    requires DistinctIds(cart)
    ensures DistinctIds(Without(cart, id))
  {
    if cart != [] {
      var rest := cart[1..];
      assert DistinctIds(rest);
      WithoutKeepsDistinct(rest, id);
      if cart[0].id != id {
        var w := Without(rest, id);
        forall k | 0 <= k < |w| ensures w[k].id != cart[0].id {
          assert w[k] in w;
          assert w[k] in rest;
          var j :| 0 <= j < |rest| && rest[j] == w[k];
          assert rest[j] == cart[j + 1];
        }
        var r := [cart[0]] + w;
        forall j, k | 0 <= j < k < |r| ensures r[j].id != r[k].id {
          if j > 0 {
            assert r[j] == w[j - 1] && r[k] == w[k - 1];
          } else {
            assert r[k] == w[k - 1];
          }
        }
      }
    }
  }

  /** The cart count: the sum of the quantities, folded from the left as `reduce` does. */
  function CartCount(cart: seq<CartEntry>): int {
    if cart == [] then 0 else CartCount(cart[..|cart| - 1]) + cart[|cart| - 1].quantity
  }

  /** The count of a concatenation is the sum of the counts. */
  lemma {:induction false} CartCountConcat(a: seq<CartEntry>, b: seq<CartEntry>)
    ensures CartCount(a + b) == CartCount(a) + CartCount(b)
    decreases |b|
  {
    if b == [] {
      assert a + b == a;
    } else {
      var b' := b[..|b| - 1];
      assert (a + b)[..|a + b| - 1] == a + b';
      CartCountConcat(a, b');
    }
  }

  /** The cart with the quantity of entry i grown by q (`existingItem.quantity += quantity`):
      an update in place, which leaves the length and every other entry as they were. */
  function Bumped(cart: seq<CartEntry>, i: nat, q: int): (r: seq<CartEntry>)
    requires i < |cart|
    ensures |r| == |cart| && r[i] == Grow(cart[i], q)
    ensures forall k {:trigger r[k]} :: 0 <= k < |cart| && k != i ==> r[k] == cart[k]
  {
    cart[..i] + [Grow(cart[i], q)] + cart[i + 1..]
  }

  function Grow(e: CartEntry, q: int): CartEntry {
    e.(quantity := e.quantity + q)
  }

  /** The count of a cart split around one entry. */
  lemma {:induction false} CartCountSplit(before: seq<CartEntry>, e: CartEntry, after: seq<CartEntry>)
    ensures CartCount(before + [e] + after) == CartCount(before) + e.quantity + CartCount(after)
  {
    CartCountConcat(before + [e], after);
    CartCountConcat(before, [e]);
    assert [e][..0] == [];
  }

  /** Growing one entry's quantity by q grows the count by q. */
  lemma {:induction false} CartCountBump(cart: seq<CartEntry>, i: nat, q: int)
    requires i < |cart|
    ensures CartCount(Bumped(cart, i, q)) == CartCount(cart) + q
  {
    var before, e, after := cart[..i], cart[i], cart[i + 1..];
    assert cart == before + [e] + after;
    assert CartCount(cart) == CartCount(before + [e] + after);
    CartCountSplit(before, e, after);
    CartCountSplit(before, Grow(e, q), after);
  }

  /** The quantity removeFromCart takes out of the cart: that of the entry with the id, if any. */
  function RemovedQuantity(cart: seq<CartEntry>, id: string): int {
    match FindEntry(cart, id)
    case Some(i) => cart[i].quantity
    case None => 0
  }

  /** Removing the entry with an id lowers the count by that entry's quantity. */
  lemma {:induction false} CartCountWithout(cart: seq<CartEntry>, id: string)
    requires DistinctIds(cart)
    ensures CartCount(Without(cart, id)) == CartCount(cart) - RemovedQuantity(cart, id)
  {
    WithoutRemovesEntry(cart, id);
    if FindEntry(cart, id).Some? {
      var i := FindEntry(cart, id).value;
      var before, e, after := cart[..i], cart[i], cart[i + 1..];
      assert cart == before + [e] + after;
      assert CartCount(cart) == CartCount(before + [e] + after);
      CartCountSplit(before, e, after);
      CartCountConcat(before, after);
    }
  }

  function CartLines(cart: seq<CartEntry>): seq<Line> {
    seq(|cart|, i requires 0 <= i < |cart| => Line(cart[i].price, cart[i].quantity))
  }

  /** `state.cart.reduce((sum, item) => sum + item.price * item.quantity, 0)`. */
  function CartSubtotal(cart: seq<CartEntry>): real {
    Subtotal(CartLines(cart))
  }

  /** Appending an entry adds its price times quantity to the subtotal. */
  lemma {:induction false} CartSubtotalAppend(cart: seq<CartEntry>, e: CartEntry)
    ensures CartSubtotal(cart + [e]) == CartSubtotal(cart) + e.price * (e.quantity as real)
  {
    assert CartLines(cart + [e]) == CartLines(cart) + [Line(e.price, e.quantity)];
    SubtotalAppend(CartLines(cart), [Line(e.price, e.quantity)]);
    assert [Line(e.price, e.quantity)][..0] == [];
  }

  // ---------------------------------------------------------------- summary and checkout

  datatype Summary = Summary(subtotal: real, tax: real, deliveryFee: real, total: real)

  /** updateCartSummary: the fee is charged only on a non-empty cart. */
  function CartSummary(cart: seq<CartEntry>): Summary {
    var subtotal := CartSubtotal(cart);
    var tax := Tax(subtotal);
    var fee := if |cart| > 0 then DeliveryFee else 0.0;
    Summary(subtotal, tax, fee, subtotal + tax + fee)
  }

  /** The summary's fee is 0 exactly for the empty cart and 5 otherwise, and its total is
      1.1 times the subtotal plus the fee. */
  lemma {:induction false} CartSummaryShape(cart: seq<CartEntry>)
    ensures var s := CartSummary(cart);
            && s.subtotal == Subtotal(CartLines(cart))
            && s.tax == s.subtotal * 0.1
            && (s.deliveryFee == 0.0 <==> cart == [])
            && (cart != [] ==> s.deliveryFee == 5.0)
            && s.total == s.subtotal * 1.1 + s.deliveryFee
  {
  }

  /** With non-negative prices and quantities a non-empty cart's total is at least 5 and an
      empty cart's total is 0. */
  lemma {:induction false} CartSummaryBounds(cart: seq<CartEntry>)
    requires NonNegative(CartLines(cart))
    ensures cart != [] ==> CartSummary(cart).total >= DeliveryFee
    ensures cart == [] ==> CartSummary(cart).total == 0.0
  {
    SubtotalNonNegative(CartLines(cart));
  }

  datatype CheckoutView = EmptyCart | MustRegister | Review(summary: Summary)

  /** checkout: an empty cart is refused first, then a visitor without a token; otherwise the
      review shows the priced cart with the fixed fee. */
  function Checkout(cart: seq<CartEntry>, signedIn: bool): CheckoutView {
    if |cart| == 0 then EmptyCart
    else if !signedIn then MustRegister
    else
      var subtotal := CartSubtotal(cart);
      var tax := Tax(subtotal);
      Review(Summary(subtotal, tax, DeliveryFee, subtotal + tax + DeliveryFee))
  }

  /** The checkout review agrees with the cart summary whenever it is shown, and an empty
      cart is refused whoever asks. */
  lemma {:induction false} CheckoutAgreesWithSummary(cart: seq<CartEntry>, signedIn: bool)
    ensures Checkout(cart, signedIn) ==
              if cart == [] then EmptyCart
              else if !signedIn then MustRegister
              else Review(CartSummary(cart))
  {
  }

  function OrderLines(cart: seq<CartEntry>): seq<OrderLine> {
    seq(|cart|, i requires 0 <= i < |cart| => OrderLine(cart[i].name, cart[i].quantity, cart[i].price))
  }

  function ItemLines(items: seq<OrderLine>): seq<Line> {
    seq(|items|, i requires 0 <= i < |items| => Line(items[i].price, items[i].quantity))
  }

  /** `state.currentRestaurant?.name || 'Sample Restaurant'`. */
  function RestaurantName(r: Option<Restaurant>): string {
    if r.Some? && r.value.name != "" then r.value.name else "Sample Restaurant"
  }

  /** The order the demo checkout records for the current cart. */
  function DemoOrder(cart: seq<CartEntry>, restaurant: Option<Restaurant>,
                     deliveryAddress: string, paymentMethod: string, now: nat): ClientOrder
  {
    var subtotal := CartSubtotal(cart);
    var tax := Tax(subtotal);
    ClientOrder("mock_" + Decimal.Render(now), Orders.OrderNumber(now), RestaurantName(restaurant),
                OrderLines(cart), subtotal + tax + DeliveryFee, tax, DeliveryFee,
                deliveryAddress, paymentMethod, Orders.Pending, 30, now)
  }

  /** The subtotal the order details view shows: total minus tax minus fee. */
  function DisplayedSubtotal(o: ClientOrder): real {
    o.totalPrice - o.tax - o.deliveryFee
  }

  /**
   * A demo order is pending, its items price to the cart's subtotal, the details view
   * recovers exactly that subtotal, and its total is the cart summary's total when the cart
   * is not empty; for an empty cart it still charges the fee of 5 that the summary omits.
   */
  lemma {:induction false} DemoOrderPricing(cart: seq<CartEntry>, restaurant: Option<Restaurant>,
                         deliveryAddress: string, paymentMethod: string, now: nat)
    ensures var o := DemoOrder(cart, restaurant, deliveryAddress, paymentMethod, now);
            && o.status == Orders.Pending
            && Subtotal(ItemLines(o.items)) == CartSubtotal(cart)
            && DisplayedSubtotal(o) == CartSubtotal(cart)
            && o.totalPrice == CartSubtotal(cart) * 1.1 + 5.0
            && (cart != [] ==> o.totalPrice == CartSummary(cart).total)
            && (cart == [] ==> o.totalPrice == 5.0 && CartSummary(cart).total == 0.0)
  {
    var o := DemoOrder(cart, restaurant, deliveryAddress, paymentMethod, now);
    assert ItemLines(o.items) == CartLines(cart);
  }

  // ---------------------------------------------------------------- search

  function LowerChar(c: char): char {
    if 'A' <= c <= 'Z' then (c as int + 32) as char else c
  }

  function ToLower(s: string): (r: string)
    ensures |r| == |s|
  {
    seq(|s|, i requires 0 <= i < |s| => LowerChar(s[i]))
  }

  /** Lower-casing leaves no capital letter, keeps every other character, and moves each
      capital to the small letter 32 code points above it. */
  lemma {:induction false} ToLowerChars(s: string)
    ensures forall i :: 0 <= i < |s| ==> !('A' <= ToLower(s)[i] <= 'Z')
    ensures forall i :: 0 <= i < |s| && !('A' <= s[i] <= 'Z') ==> ToLower(s)[i] == s[i]
    ensures forall i :: 0 <= i < |s| && 'A' <= s[i] <= 'Z' ==> ToLower(s)[i] as int == s[i] as int + 32
  {
  }

  /** `s.includes(q)`: q occurs in s as a contiguous piece. */
  predicate Includes(s: string, q: string) {
    exists i :: 0 <= i <= |s| && OccursAt(s, q, i)
  }

  predicate OccursAt(s: string, q: string, i: nat) {
    i + |q| <= |s| && s[i..i + |q|] == q
  }

  /** The search predicate: the query occurs in the lower-cased name, cuisine or (non-empty)
      description. */
  predicate MatchesQuery(r: Restaurant, q: string) {
    || Includes(ToLower(r.name), q)
    || Includes(ToLower(r.cuisine), q)
    || (r.description.Some? && r.description.value != "" && Includes(ToLower(r.description.value), q))
  }

  /** `state.restaurants.filter(...)`. */
  function FilterRestaurants(rs: seq<Restaurant>, q: string): (r: seq<Restaurant>)
    ensures forall x :: x in r ==> MatchesQuery(x, q) && x in rs
    ensures forall x :: x in rs && MatchesQuery(x, q) ==> x in r
    ensures |r| <= |rs|
  {
    if rs == [] then []
    else if MatchesQuery(rs[0], q) then [rs[0]] + FilterRestaurants(rs[1..], q)
    else FilterRestaurants(rs[1..], q)
  }

  /** The filter keeps the original order: filtering a concatenation concatenates the
      filtered parts. */
  lemma {:induction false} FilterConcat(a: seq<Restaurant>, b: seq<Restaurant>, q: string)
    ensures FilterRestaurants(a + b, q) == FilterRestaurants(a, q) + FilterRestaurants(b, q)
  {
    if a == [] {
      assert a + b == b;
    } else {
      assert (a + b)[1..] == a[1..] + b;
      FilterConcat(a[1..], b, q);
    }
  }

  /** The typed query "PIZZA " becomes "pizza" once lower-cased and trimmed. */
  lemma {:induction false} PizzaQuery()
    ensures Trim(ToLower("PIZZA ")) == "pizza"
  {
    var t := ToLower("PIZZA ");
    assert t == "pizza ";
    TrimStartOfNonSpace(t);
    assert t[..5] == "pizza";
    TrimEndOfNonSpace("pizza");
  }

  /** The lower-cased name "Pizza Palace" starts with "pizza". */
  lemma {:induction false} PalaceName()
    ensures |ToLower("Pizza Palace")| == 12 && ToLower("Pizza Palace")[0..5] == "pizza"
  {
    var name := ToLower("Pizza Palace");
    assert name[0] == 'p' && name[1] == 'i' && name[2] == 'z' && name[3] == 'z' && name[4] == 'a';
  }

  /** A query typed in any case matches a restaurant whose name contains it. */
  lemma {:induction false} SearchExample()
    ensures MatchesQuery(Restaurant("sample1", "Pizza Palace", "Italian", None), Trim(ToLower("PIZZA ")))
  {
    PizzaQuery();
    PalaceName();
    assert OccursAt(ToLower("Pizza Palace"), "pizza", 0);
  }

  // ---------------------------------------------------------------- state

  datatype AddOutcome = AddNeedsRegistration | Merged | Appended | NoCurrentRestaurant
  datatype SearchOutcome = SearchNeedsRegistration | ShowAll | NoMatches | Matches(count: nat)
  datatype PlaceOutcome = PlaceNeedsLogin | SentToServer(accepted: bool) | PlacedDemo(order: ClientOrder)

  /** `_id.startsWith('sample')` marks the built-in sample restaurants. */
  predicate IsRealRestaurant(r: Option<Restaurant>) {
    r.Some? && !("sample" <= r.value.id)
  }

  /** The client's `state` object. */
  class AppState {
    var token: Option<string>
    var currentUser: Option<string>
    var restaurants: seq<Restaurant>
    var cart: seq<CartEntry>
    var orders: seq<ClientOrder>
    var currentRestaurant: Option<Restaurant>

    /** No two cart entries share an item id, and a token, when present, is non-empty (as `!state.token` treats an empty one as absent). */
    ghost predicate Valid()
      reads this
    {
      DistinctIds(cart) && token != Some([])
    }

    /**
     * The initial state, with the token found in local storage; `|| null` turns an empty stored
     * string into no token, so a visitor with an empty token is not signed in.
     */
    constructor (storedToken: Option<string>)
      ensures Valid()
      ensures token.Some? <==> storedToken.Some? && storedToken.value != []
      ensures token.Some? ==> token == storedToken
      ensures currentUser == None && currentRestaurant == None
      ensures restaurants == [] && cart == [] && orders == []
    {
      token := if storedToken == Some([]) then None else storedToken;
      currentUser := None;
      restaurants := [];
      cart := [];
      orders := [];
      currentRestaurant := None;
    }

    /**
     * addToCart: without a token nothing changes; an entry with the item id has its quantity
     * grown by the requested amount; otherwise a new entry tagged with the current
     * restaurant's id is appended (with no current restaurant that read fails and nothing
     * changes).
     */
    method AddToCart(itemId: string, itemName: string, itemPrice: real, quantityInput: string)
      returns (outcome: AddOutcome)
      requires Valid()
      modifies this
      ensures Valid()
      ensures token == old(token) && currentUser == old(currentUser) && currentRestaurant == old(currentRestaurant)
      ensures restaurants == old(restaurants) && orders == old(orders)
      ensures old(token).None? ==> outcome == AddNeedsRegistration && cart == old(cart)
      ensures old(token).Some? && FindEntry(old(cart), itemId).Some? ==>
                outcome == Merged &&
                cart == Bumped(old(cart), FindEntry(old(cart), itemId).value, RequestedQuantity(quantityInput))
      ensures old(token).Some? && FindEntry(old(cart), itemId).None? && old(currentRestaurant).Some? ==>
                outcome == Appended &&
                cart == old(cart) + [CartEntry(itemId, itemName, itemPrice, RequestedQuantity(quantityInput),
                                               old(currentRestaurant).value.id)]
      ensures old(token).Some? && FindEntry(old(cart), itemId).None? && old(currentRestaurant).None? ==>
                outcome == NoCurrentRestaurant && cart == old(cart)
      ensures outcome == Merged ==> |cart| == |old(cart)|
      ensures outcome == Appended ==> |cart| == |old(cart)| + 1
      ensures outcome in {Merged, Appended} ==>
                CartCount(cart) == old(CartCount(cart)) + RequestedQuantity(quantityInput)
    {
      if token.None? {
        return AddNeedsRegistration;
      }
      var q := RequestedQuantity(quantityInput);
      match FindEntry(cart, itemId)
      case Some(i) =>
        CartCountBump(cart, i, q);
        BumpKeepsDistinct(cart, i, q);
        cart := Bumped(cart, i, q);
        outcome := Merged;
      case None =>
        if currentRestaurant.None? {
          return NoCurrentRestaurant;
        }
        var e := CartEntry(itemId, itemName, itemPrice, q, currentRestaurant.value.id);
        CartCountConcat(cart, [e]);
        AppendKeepsDistinct(cart, e);
        assert CartCount([e]) == q by { assert [e][..0] == []; }
        cart := cart + [e];
        outcome := Appended;
    }

    /** removeFromCart: drops the entry with the id, keeping the rest in order. */
    method RemoveFromCart(itemId: string)
      requires Valid()
      modifies this
      ensures Valid()
      ensures cart == Without(old(cart), itemId)
      ensures CartCount(cart) == old(CartCount(cart)) - RemovedQuantity(old(cart), itemId)
      ensures token == old(token) && currentUser == old(currentUser) && currentRestaurant == old(currentRestaurant)
      ensures restaurants == old(restaurants) && orders == old(orders)
    {
      WithoutKeepsDistinct(cart, itemId);
      CartCountWithout(cart, itemId);
      cart := Without(cart, itemId);
    }

    /**
     * searchRestaurants: without a token nothing changes; an empty (trimmed, lower-cased)
     * query shows the list as it is; otherwise the list becomes the matching restaurants,
     * unless none match, in which case the original list is kept.
     */
    method SearchRestaurants(input: string) returns (outcome: SearchOutcome)
      requires Valid()
      modifies this
      ensures Valid()
      ensures var q := Trim(ToLower(input));
              var found := FilterRestaurants(old(restaurants), q);
              && (old(token).None? ==> outcome == SearchNeedsRegistration && restaurants == old(restaurants))
              && (old(token).Some? && q == [] ==> outcome == ShowAll && restaurants == old(restaurants))
              && (old(token).Some? && q != [] && found == [] ==> outcome == NoMatches && restaurants == old(restaurants))
              && (old(token).Some? && q != [] && found != [] ==> outcome == Matches(|found|) && restaurants == found)
      ensures token == old(token) && currentUser == old(currentUser) && currentRestaurant == old(currentRestaurant)
      ensures cart == old(cart) && orders == old(orders)
    {
      var q := Trim(ToLower(input));
      if token.None? {
        return SearchNeedsRegistration;
      }
      if q == [] {
        return ShowAll;
      }
      var found := FilterRestaurants(restaurants, q);
      if found == [] {
        outcome := NoMatches;
      } else {
        restaurants := found;
        outcome := Matches(|found|);
      }
    }

    /**
     * handleCheckout: without a token nothing changes. For a real restaurant the order goes to
     * the server and the cart is emptied when the server accepts it. For a sample restaurant
     * (or none) a pending demo order priced from the cart is put at the front of the order
     * list and the cart is emptied.
     */
    method HandleCheckout(deliveryAddress: string, paymentMethod: string, now: nat, serverAccepted: bool)
      returns (outcome: PlaceOutcome)
      requires Valid()
      modifies this
      ensures Valid()
      ensures old(token).None? ==> outcome == PlaceNeedsLogin && cart == old(cart) && orders == old(orders)
      ensures old(token).Some? && IsRealRestaurant(old(currentRestaurant)) ==>
                outcome == SentToServer(serverAccepted) && orders == old(orders) &&
                cart == (if serverAccepted then [] else old(cart))
      ensures old(token).Some? && !IsRealRestaurant(old(currentRestaurant)) ==>
                outcome == PlacedDemo(DemoOrder(old(cart), old(currentRestaurant), deliveryAddress, paymentMethod, now)) &&
                orders == [outcome.order] + old(orders) && cart == []
      ensures outcome.PlacedDemo? ==> DisplayedSubtotal(outcome.order) == old(CartSubtotal(cart))
      ensures token == old(token) && currentUser == old(currentUser) && currentRestaurant == old(currentRestaurant)
      ensures restaurants == old(restaurants)
    {
      if token.None? {
        return PlaceNeedsLogin;
      }
      if IsRealRestaurant(currentRestaurant) {
        if serverAccepted {
          cart := [];
        }
        return SentToServer(serverAccepted);
      }
      var order := DemoOrder(cart, currentRestaurant, deliveryAddress, paymentMethod, now);
      DemoOrderPricing(cart, currentRestaurant, deliveryAddress, paymentMethod, now);
      orders := [order] + orders;
      cart := [];
      outcome := PlacedDemo(order);
    }

    /** logout: forgets the token and the user and empties the cart; the order and restaurant
        lists are kept. */
    method Logout()
      requires Valid()
      modifies this
      ensures Valid()
      ensures token == None && currentUser == None && cart == [] && CartCount(cart) == 0
      ensures restaurants == old(restaurants) && orders == old(orders) && currentRestaurant == old(currentRestaurant)
    {
      token := None;
      currentUser := None;
      cart := [];
    }
  }
}
