/** The client-side shop state of contexts/AppContext.tsx: the cart, the
    wishlist, the mock session and the catalogue search. Every operation there is
    a functional update `prev => next` of React state, so each is a function from
    the old list to the new one. */
module Storefront {
  import opened Basics

  datatype Gender = Men | Women | Unisex

  /** A catalogue entry; `price` is display text such as "₹2,500". */
  datatype Product = Product(id: string, name: string, price: string, category: string,
                             description: string, gender: Option<Gender>)

  /** A cart line: the product spread into the line, its quantity and the chosen
      size (absent when none was picked). */
  datatype CartItem = CartItem(product: Product, quantity: int, size: Option<string>)

  datatype SessionUser = SessionUser(id: string, name: string, email: string, isLoggedIn: bool)

  // ---------------------------------------------------------------------------
  // Cart

  predicate SameKey(item: CartItem, id: string, size: Option<string>) {
    item.product.id == id && item.size == size
  }

  predicate HasLine(cart: seq<CartItem>, id: string, size: Option<string>) {
    exists i :: 0 <= i < |cart| && SameKey(cart[i], id, size)
  }

  /** No two lines share a (product id, size) pair. */
  predicate KeyUnique(cart: seq<CartItem>) {
    forall i, j :: 0 <= i < j < |cart| ==> !SameKey(cart[j], cart[i].product.id, cart[i].size)
  }

  /** The `prev.map(...)` of `addToCart`: every line with the key gains one unit. */
  function Bump(cart: seq<CartItem>, id: string, size: Option<string>): (r: seq<CartItem>)
    ensures |r| == |cart|
    ensures forall i :: 0 <= i < |cart| ==>
      r[i] == if SameKey(cart[i], id, size) then cart[i].(quantity := cart[i].quantity + 1) else cart[i]
  {
    if cart == [] then []
    else
      var last := cart[|cart| - 1];
      Bump(cart[..|cart| - 1], id, size)
        + [if SameKey(last, id, size) then last.(quantity := last.quantity + 1) else last]
  }

  /** `addToCart(product, size)`. */
  function CartAdd(cart: seq<CartItem>, p: Product, size: Option<string>): seq<CartItem> {
    if HasLine(cart, p.id, size) then Bump(cart, p.id, size)
    else cart + [CartItem(p, 1, size)]
  }

  /** `cartCount`: the sum of the quantities. */
  function CartCount(cart: seq<CartItem>): int {
    if cart == [] then 0 else CartCount(cart[..|cart| - 1]) + cart[|cart| - 1].quantity
  }

  function MatchCount(cart: seq<CartItem>, id: string, size: Option<string>): nat {
    if cart == [] then 0
    else MatchCount(cart[..|cart| - 1], id, size) + (if SameKey(cart[|cart| - 1], id, size) then 1 else 0)
  }

  lemma {:induction false} BumpCount(cart: seq<CartItem>, id: string, size: Option<string>)
    ensures CartCount(Bump(cart, id, size)) == CartCount(cart) + MatchCount(cart, id, size)
  {
    if cart != [] {
      var r := Bump(cart, id, size);
      BumpCount(cart[..|cart| - 1], id, size);
      assert r[..|r| - 1] == Bump(cart[..|cart| - 1], id, size);
    }
  }

  /** In a key-unique cart a key names at most one line. */
  lemma {:induction false} MatchCountUnique(cart: seq<CartItem>, id: string, size: Option<string>)
    requires KeyUnique(cart)
    ensures MatchCount(cart, id, size) == if HasLine(cart, id, size) then 1 else 0
  {
    if cart != [] {
      var init := cart[..|cart| - 1];
      assert KeyUnique(init);
      MatchCountUnique(init, id, size);
      if SameKey(cart[|cart| - 1], id, size) {
        assert !HasLine(init, id, size);
      } else if HasLine(cart, id, size) {
        var i :| 0 <= i < |cart| && SameKey(cart[i], id, size);
        assert i < |init| && SameKey(init[i], id, size);
      } else {
        assert !HasLine(init, id, size);
      }
    }
  }

  /** Adding a product keeps the cart key-unique and raises `cartCount` by exactly
      one, whether it bumps an existing line or appends a new one. */
  lemma CartAddEffect(cart: seq<CartItem>, p: Product, size: Option<string>)
    requires KeyUnique(cart)
    ensures KeyUnique(CartAdd(cart, p, size))
    ensures CartCount(CartAdd(cart, p, size)) == CartCount(cart) + 1
    ensures HasLine(CartAdd(cart, p, size), p.id, size)
    ensures HasLine(cart, p.id, size) <==> |CartAdd(cart, p, size)| == |cart|
  {
    var r := CartAdd(cart, p, size);
    if HasLine(cart, p.id, size) {
      BumpCount(cart, p.id, size);
      MatchCountUnique(cart, p.id, size);
      var i :| 0 <= i < |cart| && SameKey(cart[i], p.id, size);
      assert SameKey(r[i], p.id, size);
    } else {
      assert r[..|r| - 1] == cart;
      assert SameKey(r[|cart|], p.id, size);
    }
  }

  /** `reorderItems`: `addToCart(item, item.size)` for every line of a past order. */
  function Reorder(cart: seq<CartItem>, items: seq<CartItem>): seq<CartItem> {
    if items == [] then cart
    else
      var last := items[|items| - 1];
      CartAdd(Reorder(cart, items[..|items| - 1]), last.product, last.size)
  }

  /** A reorder adds one unit per past line, whatever that line's quantity was. */
  lemma {:induction false} ReorderCount(cart: seq<CartItem>, items: seq<CartItem>)
    requires KeyUnique(cart)
    ensures KeyUnique(Reorder(cart, items))
    ensures CartCount(Reorder(cart, items)) == CartCount(cart) + |items|
  {
    if items != [] {
      var last := items[|items| - 1];
      ReorderCount(cart, items[..|items| - 1]);
      CartAddEffect(Reorder(cart, items[..|items| - 1]), last.product, last.size);
    }
  }

  /** `removeFromCart(id)`: drops every line of the product, whatever its size. */
  function CartRemove(cart: seq<CartItem>, id: string): (r: seq<CartItem>)
    ensures forall x :: x in r <==> x in cart && x.product.id != id
  {
    if cart == [] then []
    else
      var init := CartRemove(cart[..|cart| - 1], id);
      var last := cart[|cart| - 1];
      assert cart == cart[..|cart| - 1] + [last];
      if last.product.id == id then init else init + [last]
  }

  /** Removal keeps the remaining lines in their order and keeps keys distinct. */
  lemma CartRemoveShape(cart: seq<CartItem>, id: string)
    ensures IsSubsequence(CartRemove(cart, id), cart)
    ensures KeyUnique(cart) ==> KeyUnique(CartRemove(cart, id))
  {
    CartRemoveOrder(cart, id);
    if KeyUnique(cart) {
      CartRemoveUnique(cart, id);
    }
  }

  lemma {:induction false} CartRemoveOrder(cart: seq<CartItem>, id: string)
    ensures IsSubsequence(CartRemove(cart, id), cart)
  {
    if cart != [] {
      var init := cart[..|cart| - 1];
      var last := cart[|cart| - 1];
      CartRemoveOrder(init, id);
      var r := CartRemove(cart, id);
      if last.product.id != id {
        assert r[..|r| - 1] == CartRemove(init, id);
        assert r[|r| - 1] == last;
      } else {
        assert r == CartRemove(init, id);
        SubsequenceDropLast(r, cart);
      }
    }
  }

  lemma {:induction false} CartRemoveUnique(cart: seq<CartItem>, id: string)
    requires KeyUnique(cart)
    ensures KeyUnique(CartRemove(cart, id))
  {
    if cart != [] {
      var init := cart[..|cart| - 1];
      var last := cart[|cart| - 1];
      assert KeyUnique(init);
      CartRemoveUnique(init, id);
      var r := CartRemove(cart, id);
      if last.product.id != id {
        var rest := CartRemove(init, id);
        assert r == rest + [last];
        forall i | 0 <= i < |rest| ensures !SameKey(last, rest[i].product.id, rest[i].size) {
          assert rest[i] in rest;
          var k :| 0 <= k < |init| && init[k] == rest[i];
          assert cart[k] == rest[i];
        }
      }
    }
  }

  /** The `prev.map(...)` of `updateQuantity`: every line of the product gets `q`. */
  function SetQuantity(cart: seq<CartItem>, id: string, q: int): (r: seq<CartItem>)
    ensures |r| == |cart|
    ensures forall i :: 0 <= i < |cart| ==>
      r[i] == if cart[i].product.id == id then cart[i].(quantity := q) else cart[i]
  {
    if cart == [] then []
    else
      var last := cart[|cart| - 1];
      SetQuantity(cart[..|cart| - 1], id, q) + [if last.product.id == id then last.(quantity := q) else last]
  }

  /** `updateQuantity(id, q)`: a quantity of zero or less removes the product. */
  function UpdateQuantity(cart: seq<CartItem>, id: string, q: int): seq<CartItem> {
    if q <= 0 then CartRemove(cart, id) else SetQuantity(cart, id, q)
  }

  /** After an update the product's lines are gone (q <= 0) or all carry exactly
      `q`, in every size; other lines and the order are untouched, and the cart
      stays key-unique. */
  lemma UpdateQuantityEffect(cart: seq<CartItem>, id: string, q: int)
    ensures q <= 0 ==> forall x :: x in UpdateQuantity(cart, id, q) <==> x in cart && x.product.id != id
    ensures q > 0 ==> |UpdateQuantity(cart, id, q)| == |cart|
    ensures q > 0 ==> forall i :: 0 <= i < |cart| ==>
      && UpdateQuantity(cart, id, q)[i].product == cart[i].product
      && UpdateQuantity(cart, id, q)[i].size == cart[i].size
      && UpdateQuantity(cart, id, q)[i].quantity == (if cart[i].product.id == id then q else cart[i].quantity)
    ensures KeyUnique(cart) ==> KeyUnique(UpdateQuantity(cart, id, q))
  {
    if q <= 0 {
      CartRemoveShape(cart, id);
    }
  }

  /** `clearCart`. */
  function ClearCart(cart: seq<CartItem>): (r: seq<CartItem>)
    ensures r == [] && CartCount(r) == 0
  {
    []
  }

  /** `price.replace('₹', '').replace(',', '')` and `parseFloat`: only the first
      '₹' and the first ',' are removed. */
  function ParsePrice(price: string): Option<nat> {
    ParseLeadingNumber(RemoveFirst(RemoveFirst(price, '₹'), ','))
  }

  lemma {:induction false} RemoveFirstAfter(a: string, b: string, c: char)
    requires c !in a
    ensures RemoveFirst(a + [c] + b, c) == a + b
  {
    if a == [] {
      assert a + [c] + b == [c] + b;
      RemoveFirstHead(c, b);
    } else {
      var tail := a[1..] + [c] + b;
      assert a + [c] + b == [a[0]] + tail;
      RemoveFirstCons(a[0], tail, c);
      RemoveFirstAfter(a[1..], b, c);
      HeadThenRest(a, b);
    }
  }

  lemma HeadThenRest(a: string, b: string)
    requires a != []
    ensures a + b == [a[0]] + (a[1..] + b)
  {
    assert a == [a[0]] + a[1..];
  }

  lemma RemoveFirstHead(c: char, t: string)
    ensures RemoveFirst([c] + t, c) == t
  {
    assert ([c] + t)[1..] == t;
  }

  lemma RemoveFirstCons(x: char, t: string, c: char)
    requires x != c
    ensures RemoveFirst([x] + t, c) == [x] + RemoveFirst(t, c)
  {
    assert ([x] + t)[1..] == t;
  }

  /** A price written "₹" + thousands + "," + the rest parses to the digits run
      together: the shape of every catalogue price. */
  lemma ParsePriceFormatted(high: string, low: string)
    requires high != [] && forall i :: 0 <= i < |high| ==> IsDigit(high[i])
    requires forall i :: 0 <= i < |low| ==> IsDigit(low[i])
    ensures ParsePrice("₹" + high + "," + low) == Some(DigitsValue(high + low))
  {
    var rest := high + "," + low;
    StripRupee(rest);
    assert "₹" + high + "," + low == "₹" + rest;
    assert ',' !in high;
    RemoveFirstAfter(high, low, ',');
    assert high + [','] + low == rest;
    AllDigitsParse(high + low);
  }

  lemma StripRupee(rest: string)
    ensures RemoveFirst("₹" + rest, '₹') == rest
  {
    assert ("₹" + rest)[1..] == rest;
  }

  lemma AllDigitsParse(d: string)
    requires d != [] && forall i :: 0 <= i < |d| ==> IsDigit(d[i])
    ensures ParseLeadingNumber(d) == Some(DigitsValue(d))
  {
    assert LeadingDigits(d) == d;
  }

  lemma LeadingDigitsStopAt(s: string, k: nat)
    requires k < |s| && !IsDigit(s[k])
    requires forall i :: 0 <= i < k ==> IsDigit(s[i])
    ensures LeadingDigits(s) == s[..k]
  {
  }

  lemma ParsePriceTypical()
    ensures ParsePrice("₹2,500") == Some(2500)
  {
    ParsePriceFormatted("2", "500");
    TypicalPieces();
  }

  lemma TypicalPieces()
    ensures "₹" + "2" + "," + "500" == "₹2,500"
    ensures DigitsValue("2" + "500") == 2500
  {
    assert "2" + "500" == "2500";
    assert "2500"[..3] == "250" && "250"[..2] == "25" && "25"[..1] == "2";
  }

  /** Only the first comma goes, so an Indian-grouped lakh price stops at the
      second comma. */
  lemma ParsePriceLakh()
    ensures ParsePrice("₹1,00,000") == Some(100)
  {
    ParsePriceTwoCommas("1", "00", "000");
    LakhPieces();
  }

  lemma LakhPieces()
    ensures "₹" + "1" + "," + "00" + "," + "000" == "₹1,00,000"
    ensures DigitsValue("1" + "00") == 100
  {
    assert "1" + "00" == "100";
    assert "100"[..2] == "10" && "10"[..1] == "1";
  }

  /** With two commas the second one ends the number. */
  lemma ParsePriceTwoCommas(high: string, mid: string, low: string)
    requires high != [] && forall i :: 0 <= i < |high| ==> IsDigit(high[i])
    requires forall i :: 0 <= i < |mid| ==> IsDigit(mid[i])
    ensures ParsePrice("₹" + high + "," + mid + "," + low) == Some(DigitsValue(high + mid))
  {
    var price := "₹" + high + "," + mid + "," + low;
    var d := high + mid;
    var t := d + "," + low;
    StripBoth(high, mid + "," + low);
    RegroupTwoCommas(high, mid, low);
    DigitsConcat(high, mid);
    LeadingDigitsBeforeComma(d, low);
    ParseVia(price, t, d);
  }

  lemma RegroupTwoCommas(high: string, mid: string, low: string)
    ensures "₹" + high + "," + (mid + "," + low) == "₹" + high + "," + mid + "," + low
    ensures high + (mid + "," + low) == (high + mid) + "," + low
  {
  }

  lemma DigitsConcat(a: string, b: string)
    requires forall i :: 0 <= i < |a| ==> IsDigit(a[i])
    requires forall i :: 0 <= i < |b| ==> IsDigit(b[i])
    ensures forall i :: 0 <= i < |a + b| ==> IsDigit((a + b)[i])
  {
  }

  /** The leading digits of digits, a comma and anything are those digits. */
  lemma LeadingDigitsBeforeComma(d: string, rest: string)
    requires forall i :: 0 <= i < |d| ==> IsDigit(d[i])
    ensures LeadingDigits(d + "," + rest) == d
  {
    var t := d + "," + rest;
    assert forall i :: 0 <= i < |d| ==> t[i] == d[i];
    assert t[|d|] == ',';
    LeadingDigitsStopAt(t, |d|);
    assert t[..|d|] == d;
  }

  lemma StripBoth(high: string, rest: string)
    requires forall i :: 0 <= i < |high| ==> IsDigit(high[i])
    ensures RemoveFirst(RemoveFirst("₹" + high + "," + rest, '₹'), ',') == high + rest
  {
    StripRupee(high + "," + rest);
    assert "₹" + high + "," + rest == "₹" + (high + "," + rest);
    assert ',' !in high;
    RemoveFirstAfter(high, rest, ',');
    assert high + [','] + rest == high + "," + rest;
  }

  lemma ParseVia(price: string, t: string, d: string)
    requires RemoveFirst(RemoveFirst(price, '₹'), ',') == t
    requires d != [] && LeadingDigits(t) == d
    ensures ParsePrice(price) == Some(DigitsValue(d))
  {
  }

  /** `cartTotal`: Σ price × quantity; one unparsable price makes the sum NaN,
      modelled as `None`. */
  function CartTotal(cart: seq<CartItem>): Option<int> {
    if cart == [] then Some(0)
    else
      match (CartTotal(cart[..|cart| - 1]), ParsePrice(cart[|cart| - 1].product.price))
      case (Some(t), Some(p)) => Some(t + p * cart[|cart| - 1].quantity)
      case _ => None
  }

  /** The total is a number exactly when every line's price parses, and it is
      never negative when no quantity is. */
  lemma CartTotalDefined(cart: seq<CartItem>)
    ensures CartTotal(cart).Some? <==> forall i :: 0 <= i < |cart| ==> ParsePrice(cart[i].product.price).Some?
    ensures (forall i :: 0 <= i < |cart| ==> cart[i].quantity >= 0) && CartTotal(cart).Some? ==> CartTotal(cart).value >= 0
  {
    CartTotalSomeIff(cart);
    if forall i :: 0 <= i < |cart| ==> cart[i].quantity >= 0 {
      CartTotalNonNegative(cart);
    }
  }

  lemma {:induction false} CartTotalSomeIff(cart: seq<CartItem>)
    ensures CartTotal(cart).Some? <==> forall i :: 0 <= i < |cart| ==> ParsePrice(cart[i].product.price).Some?
  {
    if cart != [] {
      var init := cart[..|cart| - 1];
      CartTotalSomeIff(init);
      forall i | 0 <= i < |init| ensures init[i] == cart[i] { }
    }
  }

  lemma NonNegativeProduct(a: int, b: int)
    requires a >= 0 && b >= 0
    ensures a * b >= 0
  {
  }

  lemma {:induction false} CartTotalNonNegative(cart: seq<CartItem>)
    requires forall i :: 0 <= i < |cart| ==> cart[i].quantity >= 0
    ensures CartTotal(cart).Some? ==> CartTotal(cart).value >= 0
  {
    if cart != [] {
      var init := cart[..|cart| - 1];
      var q := cart[|cart| - 1].quantity;
      forall i | 0 <= i < |init| ensures init[i].quantity >= 0 {
        assert init[i] == cart[i];
      }
      CartTotalNonNegative(init);
      var price := ParsePrice(cart[|cart| - 1].product.price);
      if CartTotal(init).Some? && price.Some? {
        var p: nat := price.value;
        NonNegativeProduct(p, q);
        assert CartTotal(cart) == Some(CartTotal(init).value + p * q);
      }
    }
  }

  // ---------------------------------------------------------------------------
  // Wishlist

  predicate InWishlist(wishlist: seq<Product>, id: string) {
    exists i :: 0 <= i < |wishlist| && wishlist[i].id == id
  }

  predicate IdsUnique(wishlist: seq<Product>) {
    forall i, j :: 0 <= i < j < |wishlist| ==> wishlist[i].id != wishlist[j].id
  }

  /** `addToWishlist`: unchanged when the id is already present. */
  function WishlistAdd(wishlist: seq<Product>, p: Product): seq<Product> {
    if InWishlist(wishlist, p.id) then wishlist else wishlist + [p]
  }

  /** `removeFromWishlist`. */
  function WishlistRemove(wishlist: seq<Product>, id: string): (r: seq<Product>)
    ensures forall x :: x in r <==> x in wishlist && x.id != id
  {
    if wishlist == [] then []
    else
      var last := wishlist[|wishlist| - 1];
      assert wishlist == wishlist[..|wishlist| - 1] + [last];
      if last.id == id then WishlistRemove(wishlist[..|wishlist| - 1], id)
      else WishlistRemove(wishlist[..|wishlist| - 1], id) + [last]
  }

  /** `isInWishlist(id)` holds after adding that id, fails after removing it, and
      neither operation changes the answer for any other id. Adding twice is adding
      once, and both keep the ids distinct. */
  lemma WishlistLaws(wishlist: seq<Product>, p: Product, id: string, other: string)
    ensures InWishlist(WishlistAdd(wishlist, p), p.id)
    ensures !InWishlist(WishlistRemove(wishlist, id), id)
    ensures other != p.id ==> (InWishlist(WishlistAdd(wishlist, p), other) <==> InWishlist(wishlist, other))
    ensures other != id ==> (InWishlist(WishlistRemove(wishlist, id), other) <==> InWishlist(wishlist, other))
    ensures WishlistAdd(WishlistAdd(wishlist, p), p) == WishlistAdd(wishlist, p)
    ensures IdsUnique(wishlist) ==> IdsUnique(WishlistAdd(wishlist, p))
  {
    WishlistAddLaws(wishlist, p, other);
    WishlistRemoveLaws(wishlist, id, other);
  }

  lemma WishlistAddLaws(wishlist: seq<Product>, p: Product, other: string)
    ensures InWishlist(WishlistAdd(wishlist, p), p.id)
    ensures other != p.id ==> (InWishlist(WishlistAdd(wishlist, p), other) <==> InWishlist(wishlist, other))
    ensures WishlistAdd(WishlistAdd(wishlist, p), p) == WishlistAdd(wishlist, p)
    ensures IdsUnique(wishlist) ==> IdsUnique(WishlistAdd(wishlist, p))
  {
    var a := WishlistAdd(wishlist, p);
    if !InWishlist(wishlist, p.id) {
      assert a[|wishlist|].id == p.id;
      if InWishlist(a, other) && other != p.id {
        var i :| 0 <= i < |a| && a[i].id == other;
        assert wishlist[i].id == other;
      }
      if InWishlist(wishlist, other) {
        var i :| 0 <= i < |wishlist| && wishlist[i].id == other;
        assert a[i].id == other;
      }
    }
  }

  lemma WishlistRemoveLaws(wishlist: seq<Product>, id: string, other: string)
    ensures !InWishlist(WishlistRemove(wishlist, id), id)
    ensures other != id ==> (InWishlist(WishlistRemove(wishlist, id), other) <==> InWishlist(wishlist, other))
  {
    var r := WishlistRemove(wishlist, id);
    assert forall i :: 0 <= i < |r| ==> r[i] in r;
    if other != id {
      if InWishlist(r, other) {
        var i :| 0 <= i < |r| && r[i].id == other;
        assert r[i] in wishlist;
      }
      if InWishlist(wishlist, other) {
        var i :| 0 <= i < |wishlist| && wishlist[i].id == other;
        assert wishlist[i] in r;
      }
    }
  }

  // ---------------------------------------------------------------------------
  // Session

  datatype AuthOutcome = AuthOutcome(ok: bool, user: Option<SessionUser>)

  /** The mock `login`: any non-empty email and password sign in, as a user named
      by the part of the email before '@'; otherwise the session is untouched. */
  function Login(current: Option<SessionUser>, email: string, password: string): (r: AuthOutcome)
    ensures r.ok <==> email != "" && password != ""
    ensures !r.ok ==> r.user == current
    ensures r.ok ==> r.user.Some? && r.user.value.email == email && r.user.value.isLoggedIn
  {
    if email != "" && password != "" then
      AuthOutcome(true, Some(SessionUser("1", BeforeFirst(email, '@'), email, true)))
    else AuthOutcome(false, current)
  }

  /** The signed-in name is the longest '@'-free prefix of the email. */
  lemma LoginName(current: Option<SessionUser>, email: string, password: string)
    requires Login(current, email, password).ok
    ensures var name := Login(current, email, password).user.value.name;
      && '@' !in name && |name| <= |email| && email[..|name|] == name
      && ('@' in email ==> email[|name|] == '@')
  {
    var name := BeforeFirst(email, '@');
  }

  /** The mock `register`: all three fields must be non-empty. */
  function Register(current: Option<SessionUser>, name: string, email: string, password: string): (r: AuthOutcome)
    ensures r.ok <==> name != "" && email != "" && password != ""
    ensures !r.ok ==> r.user == current
    ensures r.ok ==> r.user == Some(SessionUser("1", name, email, true))
  {
    if name != "" && email != "" && password != "" then
      AuthOutcome(true, Some(SessionUser("1", name, email, true)))
    else AuthOutcome(false, current)
  }

  /** `logout`. */
  function Logout(current: Option<SessionUser>): (r: Option<SessionUser>)
    ensures r.None?
  {
    None
  }

  // ---------------------------------------------------------------------------
  // Search

  predicate SearchHit(p: Product, query: string) {
    ContainsIgnoreCase(p.name, query) || ContainsIgnoreCase(p.description, query)
      || ContainsIgnoreCase(p.category, query)
  }

  function SearchFilter(catalogue: seq<Product>, query: string): (r: seq<Product>)
    ensures forall p :: p in r <==> p in catalogue && SearchHit(p, query)
  {
    if catalogue == [] then []
    else
      var last := catalogue[|catalogue| - 1];
      assert catalogue == catalogue[..|catalogue| - 1] + [last];
      SearchFilter(catalogue[..|catalogue| - 1], query) + (if SearchHit(last, query) then [last] else [])
  }

  /** `performSearch`: a blank query (after trimming) finds nothing; otherwise the
      products whose name, description or category contains the untrimmed query,
      case-insensitively. */
  function PerformSearch(catalogue: seq<Product>, query: string): seq<Product> {
    if Trim(query) == [] then [] else SearchFilter(catalogue, query)
  }

  /** The hits, in catalogue order, and nothing else. */
  lemma {:induction false} PerformSearchResult(catalogue: seq<Product>, query: string)
    ensures forall p :: p in PerformSearch(catalogue, query) <==>
      (exists i :: 0 <= i < |query| && !IsSpace(query[i])) && p in catalogue && SearchHit(p, query)
    ensures IsSubsequence(PerformSearch(catalogue, query), catalogue)
  {
    TrimEmptyIffBlank(query);
    FilterIsSubsequence(catalogue, query);
    if Trim(query) == [] {
      SubsequenceOfEmpty(catalogue);
    }
  }

  lemma {:induction false} FilterIsSubsequence(catalogue: seq<Product>, query: string)
    ensures IsSubsequence(SearchFilter(catalogue, query), catalogue)
  {
    if catalogue != [] {
      var init := catalogue[..|catalogue| - 1];
      var last := catalogue[|catalogue| - 1];
      FilterIsSubsequence(init, query);
      var r := SearchFilter(catalogue, query);
      if SearchHit(last, query) {
        assert r[..|r| - 1] == SearchFilter(init, query);
      } else {
        assert r == SearchFilter(init, query);
        SubsequenceDropLast(r, catalogue);
      }
    }
  }
}
