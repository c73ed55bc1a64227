/** The cart, wishlist and address of the user document in
    backend/models/User.js. Passwords, tokens and login bookkeeping are not part
    of this model. */
module UserModel {
  import opened Basics

  datatype CartLine = CartLine(productId: string, quantity: int, size: string, color: string, addedAt: int)

  datatype WishlistEntry = WishlistEntry(productId: string, addedAt: int)

  /** The stored address; an absent part is the empty string. */
  datatype UserAddress = UserAddress(street: string, city: string, state: string, pincode: string, country: string)

  /** `fullAddress`: empty without a street, otherwise the non-empty parts joined
      with ", ". */
  function FullAddress(a: UserAddress): string {
    if a.street == "" then "" else JoinNonEmpty([a.street, a.city, a.state, a.pincode, a.country])
  }

  /** With a street, the address starts with it; without one it is empty even when
      the other parts are set. */
  lemma FullAddressShape(a: UserAddress)
    ensures a.street == "" <==> FullAddress(a) == ""
    ensures a.street != "" ==> |a.street| <= |FullAddress(a)| && FullAddress(a)[..|a.street|] == a.street
  {
    if a.street != "" {
      var parts := [a.street, a.city, a.state, a.pincode, a.country];
      assert NonEmpty(parts) == [a.street] + NonEmpty(parts[1..]);
      JoinStartsWithFirst(NonEmpty(parts), ", ");
    }
  }

  lemma JoinStartsWithFirst(parts: seq<string>, sep: string)
    requires parts != []
    ensures |parts[0]| <= |Join(parts, sep)| && Join(parts, sep)[..|parts[0]|] == parts[0]
  {
    if |parts| > 1 {
      assert Join(parts, sep) == parts[0] + (sep + Join(parts[1..], sep));
    }
  }

  lemma FullAddressExample()
    ensures FullAddress(UserAddress("", "Mysuru", "Karnataka", "570001", "India")) == ""
    ensures FullAddress(UserAddress("1 Main St", "", "", "", "India")) == "1 Main St, India"
  {
    var parts := ["1 Main St", "", "", "", "India"];
    assert parts[1..][1..][1..][1..] == ["India"];
    assert NonEmpty(parts) == ["1 Main St", "India"];
  }

  // ---------------------------------------------------------------------------
  // Cart

  predicate SameLine(line: CartLine, productId: string, size: string, color: string) {
    line.productId == productId && line.size == size && line.color == color
  }

  /** `cart.find(...)` on the (product, size, colour) triple: the first match. */
  function FindLine(cart: seq<CartLine>, productId: string, size: string, color: string): (r: Option<nat>)
    ensures r.Some? ==> (&& r.value < |cart| && SameLine(cart[r.value], productId, size, color)
                         && forall j :: 0 <= j < r.value ==> !SameLine(cart[j], productId, size, color))
    ensures r.None? ==> forall j :: 0 <= j < |cart| ==> !SameLine(cart[j], productId, size, color)
  {
    if cart == [] then None
    else if SameLine(cart[0], productId, size, color) then Some(0)
    else match FindLine(cart[1..], productId, size, color)
      case Some(i) => Some(i + 1)
      case None => None
  }

  /** `addToCart`: the matching line gains `quantity`, or a new line is appended. */
  function CartAdd(cart: seq<CartLine>, productId: string, quantity: int, size: string, color: string, now: int): seq<CartLine> {
    match FindLine(cart, productId, size, color)
    case Some(i) => cart[i := cart[i].(quantity := cart[i].quantity + quantity)]
    case None => cart + [CartLine(productId, quantity, size, color, now)]
  }

  /** No two lines share a (product, size, colour) triple. */
  predicate TripleUnique(cart: seq<CartLine>) {
    forall i, j :: 0 <= i < j < |cart| ==>
      !SameLine(cart[j], cart[i].productId, cart[i].size, cart[i].color)
  }

  function QuantityOf(cart: seq<CartLine>, productId: string, size: string, color: string): int {
    match FindLine(cart, productId, size, color)
    case Some(i) => cart[i].quantity
    case None => 0
  }

  /** Adding keeps the cart triple-unique, raises the triple's quantity by exactly
      `quantity` and leaves every other triple's quantity alone. */
  lemma CartAddEffect(cart: seq<CartLine>, productId: string, quantity: int, size: string, color: string, now: int,
                      p: string, s: string, c: string)
    requires TripleUnique(cart)
    ensures TripleUnique(CartAdd(cart, productId, quantity, size, color, now))
    ensures QuantityOf(CartAdd(cart, productId, quantity, size, color, now), productId, size, color)
            == QuantityOf(cart, productId, size, color) + quantity
    ensures !(p == productId && s == size && c == color) ==>
      QuantityOf(CartAdd(cart, productId, quantity, size, color, now), p, s, c) == QuantityOf(cart, p, s, c)
  {
    var r := CartAdd(cart, productId, quantity, size, color, now);
    assert forall k :: 0 <= k < |cart| ==>
      r[k].productId == cart[k].productId && r[k].size == cart[k].size && r[k].color == cart[k].color;
    FindLineSameKeys(cart, r, p, s, c);
    FindLineSameKeys(cart, r, productId, size, color);
  }

  /** FindLine only looks at the keys, so two carts that agree on the keys of their
      common prefix agree on where a triple is found there. */
  lemma {:induction false} FindLineSameKeys(a: seq<CartLine>, b: seq<CartLine>, p: string, s: string, c: string)
    requires |a| <= |b|
    requires forall k :: 0 <= k < |a| ==> b[k].productId == a[k].productId && b[k].size == a[k].size && b[k].color == a[k].color
    ensures FindLine(a, p, s, c).Some? ==> FindLine(b, p, s, c) == FindLine(a, p, s, c)
    ensures FindLine(a, p, s, c).None? && |b| == |a| + 1 && SameLine(b[|a|], p, s, c) ==> FindLine(b, p, s, c) == Some(|a|)
    ensures FindLine(a, p, s, c).None? && |b| == |a| ==> FindLine(b, p, s, c).None?
  {
    var ra := FindLine(a, p, s, c);
    if ra.Some? {
      FindLineAt(b, p, s, c, ra.value);
    } else if |b| == |a| + 1 && SameLine(b[|a|], p, s, c) {
      FindLineAt(b, p, s, c, |a|);
    } else if |b| == |a| {
      assert forall j :: 0 <= j < |b| ==> !SameLine(b[j], p, s, c);
    }
  }

  /** The first matching position is the one FindLine reports. */
  lemma FindLineAt(cart: seq<CartLine>, p: string, s: string, c: string, i: nat)
    requires i < |cart| && SameLine(cart[i], p, s, c)
    requires forall j :: 0 <= j < i ==> !SameLine(cart[j], p, s, c)
    ensures FindLine(cart, p, s, c) == Some(i)
  {
    var r := FindLine(cart, p, s, c);
    assert r.Some?;
    assert !(r.value < i) && !(i < r.value);
  }

  /** `removeFromCart`: drops exactly the lines matching the triple. */
  function CartRemove(cart: seq<CartLine>, productId: string, size: string, color: string): (r: seq<CartLine>)
    ensures |r| <= |cart|
  {
    if cart == [] then []
    else if SameLine(cart[0], productId, size, color) then CartRemove(cart[1..], productId, size, color)
    else [cart[0]] + CartRemove(cart[1..], productId, size, color)
  }

  /** The kept lines are exactly the non-matching ones; a cart without the triple
      is left as it is; distinct triples stay distinct. */
  lemma CartRemoveKeeps(cart: seq<CartLine>, productId: string, size: string, color: string)
    ensures forall x :: x in CartRemove(cart, productId, size, color) <==>
      x in cart && !SameLine(x, productId, size, color)
    ensures (forall k :: 0 <= k < |cart| ==> !SameLine(cart[k], productId, size, color)) ==>
      CartRemove(cart, productId, size, color) == cart
    ensures TripleUnique(cart) ==> TripleUnique(CartRemove(cart, productId, size, color))
  {
    CartRemoveMembers(cart, productId, size, color);
    if forall k :: 0 <= k < |cart| ==> !SameLine(cart[k], productId, size, color) {
      CartRemoveAbsent(cart, productId, size, color);
    }
    if TripleUnique(cart) {
      CartRemoveUnique(cart, productId, size, color);
    }
  }

  lemma {:induction false} CartRemoveMembers(cart: seq<CartLine>, productId: string, size: string, color: string)
    ensures forall x :: x in CartRemove(cart, productId, size, color) <==>
      x in cart && !SameLine(x, productId, size, color)
  {
    if cart != [] {
      CartRemoveMembers(cart[1..], productId, size, color);
      assert cart == [cart[0]] + cart[1..];
    }
  }

  lemma {:induction false} CartRemoveAbsent(cart: seq<CartLine>, productId: string, size: string, color: string)
    requires forall k :: 0 <= k < |cart| ==> !SameLine(cart[k], productId, size, color)
    ensures CartRemove(cart, productId, size, color) == cart
  {
    if cart != [] {
      CartRemoveAbsent(cart[1..], productId, size, color);
      assert cart == [cart[0]] + cart[1..];
    }
  }

  lemma {:induction false} CartRemoveUnique(cart: seq<CartLine>, productId: string, size: string, color: string)
    requires TripleUnique(cart)
    ensures TripleUnique(CartRemove(cart, productId, size, color))
  {
    if cart != [] {
      assert TripleUnique(cart[1..]);
      CartRemoveUnique(cart[1..], productId, size, color);
      CartRemoveMembers(cart[1..], productId, size, color);
      var rest := CartRemove(cart[1..], productId, size, color);
      if !SameLine(cart[0], productId, size, color) {
        var r := [cart[0]] + rest;
        forall i, j | 0 <= i < j < |r|
          ensures !SameLine(r[j], r[i].productId, r[i].size, r[i].color)
        {
          if i == 0 {
            assert r[j] in rest;
            assert r[j] in cart[1..];
          } else {
            assert r[i] == rest[i - 1] && r[j] == rest[j - 1];
          }
        }
      }
    }
  }

  // ---------------------------------------------------------------------------
  // Wishlist

  predicate InWishlist(wishlist: seq<WishlistEntry>, productId: string) {
    exists i :: 0 <= i < |wishlist| && wishlist[i].productId == productId
  }

  predicate WishlistUnique(wishlist: seq<WishlistEntry>) {
    forall i, j :: 0 <= i < j < |wishlist| ==> wishlist[i].productId != wishlist[j].productId
  }

  /** `wishlist.filter(item => item.productId !== productId)`. */
  function WishlistRemove(wishlist: seq<WishlistEntry>, productId: string): (r: seq<WishlistEntry>)
    ensures forall x :: x in r <==> x in wishlist && x.productId != productId
  {
    if wishlist == [] then []
    else if wishlist[0].productId == productId then WishlistRemove(wishlist[1..], productId)
    else [wishlist[0]] + WishlistRemove(wishlist[1..], productId)
  }

  lemma {:induction false} WishlistRemoveUnique(wishlist: seq<WishlistEntry>, productId: string)
    requires WishlistUnique(wishlist)
    ensures WishlistUnique(WishlistRemove(wishlist, productId))
  {
    if wishlist != [] {
      assert WishlistUnique(wishlist[1..]);
      WishlistRemoveUnique(wishlist[1..], productId);
      var rest := WishlistRemove(wishlist[1..], productId);
      if wishlist[0].productId != productId {
        forall j | 0 <= j < |rest| ensures rest[j].productId != wishlist[0].productId {
          assert rest[j] in wishlist[1..];
        }
      }
    }
  }

  // ---------------------------------------------------------------------------
  // The document

  predicate QuantitiesValid(cart: seq<CartLine>) {
    forall i :: 0 <= i < |cart| ==> cart[i].quantity >= 1
  }

  class UserAccount {
    var address: UserAddress
    var cart: seq<CartLine>
    var wishlist: seq<WishlistEntry>

    /** The shape every cart and wishlist method keeps. */
    predicate Valid()
      reads this
    {
      TripleUnique(cart) && WishlistUnique(wishlist)
    }

    constructor (address: UserAddress)
      ensures Valid()
      ensures this.address == address && cart == [] && wishlist == []
    {
      this.address := address;
      cart := [];
      wishlist := [];
    }

    /** `addToCart(productId, quantity = 1, size, color)`. The save then enforces the
        schema's `min: 1` on every quantity; `saved` is whether it passes. */
    method AddToCart(productId: string, quantity: Option<int>, size: string, color: string, now: int)
      returns (saved: bool)
      requires Valid()
      modifies this
      ensures Valid()
      ensures cart == CartAdd(old(cart), productId, quantity.GetOr(1), size, color, now)
      ensures QuantityOf(cart, productId, size, color) == old(QuantityOf(cart, productId, size, color)) + quantity.GetOr(1)
      ensures saved <==> QuantitiesValid(cart)
      ensures wishlist == old(wishlist) && address == old(address)
    {
      var q := quantity.GetOr(1);
      CartAddEffect(cart, productId, q, size, color, now, productId, size, color);
      match FindLine(cart, productId, size, color) {
        case Some(i) => cart := cart[i := cart[i].(quantity := cart[i].quantity + q)];
        case None => cart := cart + [CartLine(productId, q, size, color, now)];
      }
      saved := forall i :: 0 <= i < |cart| ==> cart[i].quantity >= 1;
    }

    /** `removeFromCart(productId, size, color)`. */
    method RemoveFromCart(productId: string, size: string, color: string)
      requires Valid()
      modifies this
      ensures Valid()
      ensures cart == CartRemove(old(cart), productId, size, color)
      ensures forall x :: x in cart <==> x in old(cart) && !SameLine(x, productId, size, color)
      ensures wishlist == old(wishlist) && address == old(address)
    {
      CartRemoveKeeps(cart, productId, size, color);
      cart := CartRemove(cart, productId, size, color);
    }

    /** `clearCart`. */
    method ClearCart()
      requires Valid()
      modifies this
      ensures Valid()
      ensures cart == []
      ensures wishlist == old(wishlist) && address == old(address)
    {
      cart := [];
    }

    /** `addToWishlist`: appends the product unless some entry already has it. */
    method AddToWishlist(productId: string, now: int)
      requires Valid()
      modifies this
      ensures Valid()
      ensures InWishlist(wishlist, productId)
      ensures InWishlist(old(wishlist), productId) ==> wishlist == old(wishlist)
      ensures !InWishlist(old(wishlist), productId) ==> wishlist == old(wishlist) + [WishlistEntry(productId, now)]
      ensures cart == old(cart) && address == old(address)
    {
      if !(exists i :: 0 <= i < |wishlist| && wishlist[i].productId == productId) {
        wishlist := wishlist + [WishlistEntry(productId, now)];
        assert wishlist[|wishlist| - 1].productId == productId;
      }
    }

    /** `removeFromWishlist`: drops every entry for the product. */
    method RemoveFromWishlist(productId: string)
      requires Valid()
      modifies this
      ensures Valid()
      ensures !InWishlist(wishlist, productId)
      ensures forall x :: x in wishlist <==> x in old(wishlist) && x.productId != productId
      ensures cart == old(cart) && address == old(address)
    {
      WishlistRemoveUnique(wishlist, productId);
      wishlist := WishlistRemove(wishlist, productId);
      assert forall i :: 0 <= i < |wishlist| ==> wishlist[i] in wishlist;
    }
  }

}
