/** The order routes of backend/routes/orders.js: request validation, the POST /
    sequence (check every line against the catalogue and price it, find or create
    the customer, create the order, then take the stock), and the rule that adding
    tracking marks an order shipped. The product store is a map from product id to
    its document; the user store is the set of known e-mail addresses. */
module OrderRoutes {
  import opened Basics
  import opened Validators
  import opened ProductModel
  import opened OrderModel

  datatype LineRequest = LineRequest(productId: string, quantity: int, size: string, color: string)

  datatype CustomerInfo = CustomerInfo(name: string, email: string, phone: string, organization: string)

  datatype OrderRequest = OrderRequest(
    items: seq<LineRequest>,
    customer: CustomerInfo,
    shippingAddress: Address,
    billingAddress: Option<Address>,
    paymentMethod: string)

  // ---------------------------------------------------------------------------
  // createOrderValidation

  function ParsePaymentMethod(name: string): (r: Option<PaymentMethod>)
    ensures r.Some? <==> name in ["cod", "online", "bank_transfer", "cheque"]
  {
    if name == "cod" then Some(Cod)
    else if name == "online" then Some(Online)
    else if name == "bank_transfer" then Some(BankTransfer)
    else if name == "cheque" then Some(Cheque)
    else None
  }

  predicate LineValid(line: LineRequest) {
    && Trim(line.productId) != ""
    && line.quantity >= 1
    && Trim(line.size) != ""
    && Trim(line.color) != ""
  }

  /** The validation chain; the e-mail check (`isEmail`) is not part of this model. */
  predicate RequestValid(req: OrderRequest) {
    && |req.items| >= 1
    && (forall i :: 0 <= i < |req.items| ==> LineValid(req.items[i]))
    && 2 <= |Trim(req.customer.name)| <= 100
    && PhoneValid(req.customer.phone)
    && Trim(req.shippingAddress.street) != ""
    && Trim(req.shippingAddress.city) != ""
    && Trim(req.shippingAddress.state) != ""
    && PincodeValid(req.shippingAddress.pincode)
    && ParsePaymentMethod(req.paymentMethod).Some?
  }

  /** Each of these alone gets the request rejected before any lookup. */
  lemma RejectedBeforeLookup(req: OrderRequest)
    ensures req.items == [] ==> !RequestValid(req)
    ensures (exists i :: 0 <= i < |req.items| && req.items[i].quantity < 1) ==> !RequestValid(req)
    ensures !PincodeValid(req.shippingAddress.pincode) ==> !RequestValid(req)
    ensures req.paymentMethod !in ["cod", "online", "bank_transfer", "cheque"] ==> !RequestValid(req)
  {
  }

  /** The `trim()` sanitizers rewrite the fields they validate. */
  function SanitizeLine(line: LineRequest): LineRequest {
    line.(productId := Trim(line.productId), size := Trim(line.size), color := Trim(line.color))
  }

  /** The sanitizers applied to every line, in order. */
  function SanitizeLines(lines: seq<LineRequest>): (r: seq<LineRequest>)
    ensures |r| == |lines|
    ensures forall i :: 0 <= i < |lines| ==> r[i] == SanitizeLine(lines[i])
  {
    if lines == [] then [] else SanitizeLines(lines[..|lines| - 1]) + [SanitizeLine(lines[|lines| - 1])]
  }

  function Sanitize(req: OrderRequest): (r: OrderRequest)
    ensures |r.items| == |req.items|
    ensures forall i :: 0 <= i < |req.items| ==> r.items[i] == SanitizeLine(req.items[i])
  {
    req.(items := SanitizeLines(req.items),
         customer := req.customer.(name := Trim(req.customer.name)),
         shippingAddress := req.shippingAddress.(street := Trim(req.shippingAddress.street),
                                                  city := Trim(req.shippingAddress.city),
                                                  state := Trim(req.shippingAddress.state)))
  }

  // ---------------------------------------------------------------------------
  // Checking and pricing the lines, on a snapshot of the catalogue

  /** What the route reads from, and changes in, a product document. */
  datatype ProductView = ProductView(name: string, isActive: bool, price: Price, images: seq<Image>,
                                     sizes: seq<StockEntry>, colors: seq<StockEntry>, salesCount: int)

  function ViewOf(p: ProductDocument): ProductView
    reads p
  {
    ProductView(p.name, p.isActive, p.price, p.images, p.sizes, p.colors, p.salesCount)
  }

  function Snapshot(catalogue: map<string, ProductDocument>): (r: map<string, ProductView>)
    reads catalogue.Values
    ensures r.Keys == catalogue.Keys
  {
    map id | id in catalogue :: ViewOf(catalogue[id])
  }

  /** `product.primaryImage?.url || product.images[0]?.url` ("" for undefined). */
  function ItemImage(images: seq<Image>): string {
    var primary := match PrimaryImage(images) case Some(img) => img.url case None => "";
    if primary != "" then primary else if images != [] then images[0].url else ""
  }

  /** One pass of the checking loop: the product must exist and be active, then the
      first entry of the line's size, then of its colour, must exist and hold at
      least the quantity. Stock is read as it was before the order. */
  function CheckLine(view: map<string, ProductView>, line: LineRequest): Result<OrderItem, string> {
    if line.productId !in view || !view[line.productId].isActive then
      Err("Product not found: " + line.productId)
    else
      var p := view[line.productId];
      var s := FindEntry(p.sizes, line.size);
      var c := FindEntry(p.colors, line.color);
      if s.None? || p.sizes[s.value].stock < line.quantity then
        Err("Insufficient stock for " + p.name + " in size " + line.size)
      else if c.None? || p.colors[c.value].stock < line.quantity then
        Err("Insufficient stock for " + p.name + " in color " + line.color)
      else
        Ok(OrderItem(line.productId, p.name, ItemImage(p.images), EffectivePrice(p.price),
                     line.quantity, line.size, line.color))
  }

  /** The checking loop over all lines: the first failing line decides the error. */
  function CheckLines(view: map<string, ProductView>, lines: seq<LineRequest>): (r: Result<seq<OrderItem>, string>)
    ensures r.Ok? ==> |r.value| == |lines|
  {
    if lines == [] then Ok([])
    else match CheckLines(view, lines[..|lines| - 1])
      case Err(e) => Err(e)
      case Ok(items) =>
        match CheckLine(view, lines[|lines| - 1])
        case Err(e) => Err(e)
        case Ok(item) => Ok(items + [item])
  }

  /** Validation, then the checking loop: the request's outcome up to pricing. */
  function Validate(view: map<string, ProductView>, req: OrderRequest): Result<seq<OrderItem>, string> {
    if !RequestValid(req) then Err("Validation failed") else CheckLines(view, Sanitize(req).items)
  }

  /** The lines fail exactly when some line fails, the error is that of the first
      failing line, and otherwise the items are the lines' checked items in order. */
  lemma CheckLinesFirstFailure(view: map<string, ProductView>, lines: seq<LineRequest>)
    ensures CheckLines(view, lines).Err? <==> exists i :: 0 <= i < |lines| && CheckLine(view, lines[i]).Err?
    ensures CheckLines(view, lines).Err? ==>
      exists i :: 0 <= i < |lines| && CheckLine(view, lines[i]) == Err(CheckLines(view, lines).error)
        && forall j :: 0 <= j < i ==> CheckLine(view, lines[j]).Ok?
    ensures CheckLines(view, lines).Ok? ==>
      forall i :: 0 <= i < |lines| ==> CheckLines(view, lines).value[i] == CheckLine(view, lines[i]).value
  {
    if CheckLines(view, lines).Ok? {
      CheckLinesOkValues(view, lines);
    } else {
      var i := CheckLinesErrWitness(view, lines);
    }
  }

  /** A passing list of lines passes line by line, each item from its own line. */
  lemma {:induction false} CheckLinesOkValues(view: map<string, ProductView>, lines: seq<LineRequest>)
    requires CheckLines(view, lines).Ok?
    ensures forall i :: 0 <= i < |lines| ==> CheckLine(view, lines[i]).Ok?
    ensures forall i :: 0 <= i < |lines| ==> CheckLines(view, lines).value[i] == CheckLine(view, lines[i]).value
  {
    if lines != [] {
      var init := lines[..|lines| - 1];
      var last := lines[|lines| - 1];
      assert CheckLines(view, init).Ok? && CheckLine(view, last).Ok?;
      CheckLinesOkValues(view, init);
      var items := CheckLines(view, init).value;
      var item := CheckLine(view, last).value;
      assert CheckLines(view, lines).value == items + [item];
      forall i | 0 <= i < |lines|
        ensures CheckLine(view, lines[i]).Ok? && CheckLines(view, lines).value[i] == CheckLine(view, lines[i]).value
      {
        if i < |init| {
          assert lines[i] == init[i];
        }
      }
    }
  }

  /** A failing list of lines has a first failing line, and its error is the result. */
  lemma {:induction false} CheckLinesErrWitness(view: map<string, ProductView>, lines: seq<LineRequest>) returns (i: nat)
    requires CheckLines(view, lines).Err?
    ensures i < |lines| && CheckLine(view, lines[i]) == Err(CheckLines(view, lines).error)
    ensures forall j :: 0 <= j < i ==> CheckLine(view, lines[j]).Ok?
  {
    var init := lines[..|lines| - 1];
    assert forall j :: 0 <= j < |init| ==> init[j] == lines[j];
    if CheckLines(view, init).Err? {
      i := CheckLinesErrWitness(view, init);
    } else {
      CheckLinesOkValues(view, init);
      i := |lines| - 1;
    }
  }

  /** An error found on a prefix is the error of the whole. */
  lemma {:induction false} CheckLinesErrorSticks(view: map<string, ProductView>, lines: seq<LineRequest>, k: nat)
    requires k <= |lines|
    requires CheckLines(view, lines[..k]).Err?
    ensures CheckLines(view, lines) == CheckLines(view, lines[..k])
    decreases |lines| - k
  {
    if k < |lines| {
      assert lines[..k + 1][..k] == lines[..k];
      CheckLinesErrorSticks(view, lines, k + 1);
    } else {
      assert lines[..k] == lines;
    }
  }

  /** Every checked item names a product of the catalogue. */
  lemma {:induction false} CheckLinesKnownProducts(view: map<string, ProductView>, lines: seq<LineRequest>)
    requires CheckLines(view, lines).Ok?
    ensures forall i :: 0 <= i < |lines| ==> CheckLines(view, lines).value[i].productId in view
  {
    if lines != [] {
      CheckLinesKnownProducts(view, lines[..|lines| - 1]);
    }
  }

  // ---------------------------------------------------------------------------
  // Pricing

  /** `subtotal`: each line's effective price times its quantity, summed. */
  function Subtotal(items: seq<OrderItem>): int {
    if items == [] then 0 else Subtotal(items[..|items| - 1]) + items[|items| - 1].price * items[|items| - 1].quantity
  }

  /** `Math.round(subtotal * 0.18)`, taken as exact 18% of whole rupees rounded half up. */
  function Tax(subtotal: int): (r: int)
    ensures 100 * r - 50 <= 18 * subtotal < 100 * r + 50
  {
    RoundDiv(18 * subtotal, 100)
  }

  /** Free shipping from ₹2000, otherwise ₹100. */
  function ShippingFee(subtotal: int): int {
    if subtotal >= 2000 then 0 else 100
  }

  function PricingOf(subtotal: int): (r: Pricing)
    ensures r.total == r.subtotal + r.tax + r.shipping && r.discount == 0
  {
    var tax := Tax(subtotal);
    var shipping := ShippingFee(subtotal);
    Pricing(subtotal, tax, shipping, 0, subtotal + tax + shipping)
  }

  lemma PricingExamples()
    ensures PricingOf(1000) == Pricing(1000, 180, 100, 0, 1280)
    ensures PricingOf(2000) == Pricing(2000, 360, 0, 0, 2360)
    ensures PricingOf(1999).shipping == 100 && PricingOf(1999).tax == 360
  {
  }

  /** Tax is never negative on a non-negative subtotal, and the total is at least the
      subtotal plus 18% of it, up to the half-rupee of rounding. */
  lemma PricingBounds(subtotal: int)
    requires subtotal >= 0
    ensures PricingOf(subtotal).tax >= 0
    ensures 100 * PricingOf(subtotal).total >= 118 * subtotal - 50
    ensures PricingOf(subtotal).shipping == 0 <==> subtotal >= 2000
  {
  }

  // ---------------------------------------------------------------------------
  // Taking the stock

  /** `updateStock(size, color, quantity)` then `incrementSales(quantity)` on one product. */
  function ApplyItem(p: ProductView, item: OrderItem): ProductView {
    p.(sizes := DecrementFirst(p.sizes, item.size, item.quantity),
       colors := DecrementFirst(p.colors, item.color, item.quantity),
       salesCount := p.salesCount + item.quantity)
  }

  /** The stock loop over all validated items, in order. */
  function ApplyItems(view: map<string, ProductView>, items: seq<OrderItem>): (r: map<string, ProductView>)
    ensures r.Keys == view.Keys
  {
    if items == [] then view
    else
      var m := ApplyItems(view, items[..|items| - 1]);
      var item := items[|items| - 1];
      if item.productId in m then m[item.productId := ApplyItem(m[item.productId], item)] else m
  }

  predicate StockNonNegative(view: map<string, ProductView>) {
    forall id :: id in view ==> NonNegativeStock(view[id].sizes) && NonNegativeStock(view[id].colors)
  }

  /** Taking stock never drives a counter below zero. */
  lemma {:induction false} ApplyItemsNonNegative(view: map<string, ProductView>, items: seq<OrderItem>)
    requires StockNonNegative(view)
    ensures StockNonNegative(ApplyItems(view, items))
  {
    if items != [] {
      var m := ApplyItems(view, items[..|items| - 1]);
      ApplyItemsNonNegative(view, items[..|items| - 1]);
      var item := items[|items| - 1];
      if item.productId in m {
        DecrementFirstNonNegative(m[item.productId].sizes, item.size, item.quantity);
        DecrementFirstNonNegative(m[item.productId].colors, item.color, item.quantity);
      }
    }
  }

  /** A product "P1" with the given stock in size M and colour Navy. */
  function PoloView(stock: int, sales: int): ProductView {
    ProductView("Polo", true, Price(500, None), [], [StockEntry("M", stock)], [StockEntry("Navy", stock)], sales)
  }

  /** Each line is checked against the stock as it was before the order: two lines
      for the same product and size that fit one at a time (2 of 3) but not
      together both pass. */
  lemma SameSizeTwiceBothPass()
    ensures var line := LineRequest("P1", 2, "M", "Navy");
      CheckLines(map["P1" := PoloView(3, 0)], [line, line])
        == Ok([OrderItem("P1", "Polo", "", 500, 2, "M", "Navy"), OrderItem("P1", "Polo", "", 500, 2, "M", "Navy")])
  {
    var view := map["P1" := PoloView(3, 0)];
    var line := LineRequest("P1", 2, "M", "Navy");
    var item := OrderItem("P1", "Polo", "", 500, 2, "M", "Navy");
    assert FindEntry([StockEntry("M", 3)], "M") == Some(0);
    assert FindEntry([StockEntry("Navy", 3)], "Navy") == Some(0);
    assert ItemImage([]) == "";
    assert CheckLine(view, line) == Ok(item);
    assert [line, line][..1] == [line] && [line][..0] == [] && [line, line][1] == line;
    assert CheckLines(view, []) == Ok([]);
    assert [] + [item] == [item] && [item] + [item] == [item, item];
    assert CheckLines(view, [line]) == Ok([item]);
  }

  /** Both of those lines are then taken from stock: the second decrement is
      floored at zero and the sales count grows by both quantities. */
  lemma SameSizeTwiceBothTaken()
    ensures var item := OrderItem("P1", "Polo", "", 500, 2, "M", "Navy");
      ApplyItems(map["P1" := PoloView(3, 0)], [item, item]) == map["P1" := PoloView(0, 4)]
  {
    var view := map["P1" := PoloView(3, 0)];
    var item := OrderItem("P1", "Polo", "", 500, 2, "M", "Navy");
    assert FindEntry([StockEntry("M", 3)], "M") == Some(0);
    assert FindEntry([StockEntry("Navy", 3)], "Navy") == Some(0);
    assert FindEntry([StockEntry("M", 1)], "M") == Some(0);
    assert FindEntry([StockEntry("Navy", 1)], "Navy") == Some(0);
    assert ApplyItem(PoloView(3, 0), item) == PoloView(1, 2);
    assert ApplyItem(PoloView(1, 2), item) == PoloView(0, 4);
    assert [item, item][..1] == [item] && [item][..0] == [] && [item, item][1] == item;
    assert ApplyItems(view, []) == view;
    assert ApplyItems(view, [item]) == map["P1" := PoloView(1, 2)];
  }

  // ---------------------------------------------------------------------------
  // POST /

  datatype PlaceOutcome = Rejected(status: int, message: string) | Placed(order: Order)

  predicate ImagesPresent(items: seq<OrderItem>) {
    forall i :: 0 <= i < |items| ==> items[i].image != ""
  }

  /** Mongoose validates the document `Order.create` receives before any
      `pre('save')` hook runs: `orderId` and every item's `image` are required
      strings, and an absent or empty one fails `required`. */
  predicate CreateValidates(orderId: Option<string>, items: seq<OrderItem>) {
    orderId.Some? && orderId.value != "" && ImagesPresent(items)
  }

  predicate Distinct(catalogue: map<string, ProductDocument>) {
    forall a, b :: a in catalogue && b in catalogue && a != b ==> catalogue[a] != catalogue[b]
  }

  /** The checking loop of POST /: walks the lines in order against the stored
      products, stops at the first failing line, and sums each line's effective
      price times its quantity. It changes nothing. */
  method CheckAndPrice(catalogue: map<string, ProductDocument>, lines: seq<LineRequest>)
    returns (r: Result<seq<OrderItem>, string>, subtotal: int)
    ensures r == CheckLines(Snapshot(catalogue), lines)
    ensures r.Ok? ==> subtotal == Subtotal(r.value)
  {
    ghost var view := Snapshot(catalogue);
    subtotal := 0;
    var validated: seq<OrderItem> := [];
    var i := 0;
    while i < |lines|
      invariant 0 <= i <= |lines|
      invariant CheckLines(view, lines[..i]) == Ok(validated)
      invariant subtotal == Subtotal(validated)
    {
      var line := lines[i];
      var checked := CheckOne(catalogue, line);
      if checked.Err? {
        r := Err(checked.error);
        CheckLinesFailAt(view, lines, i, validated, checked);
        return;
      }
      var item := checked.value;
      CheckLinesStep(view, lines, i, validated, checked);
      subtotal := subtotal + item.price * item.quantity;
      validated := validated + [item];
      i := i + 1;
    }
    assert lines[..|lines|] == lines;
    r := Ok(validated);
  }

  /** A line that checks extends the checked prefix by its item, and the
      running subtotal by its line total. */
  lemma CheckLinesStep(view: map<string, ProductView>, lines: seq<LineRequest>, i: nat,
                       validated: seq<OrderItem>, checked: Result<OrderItem, string>)
    requires i < |lines|
    requires CheckLines(view, lines[..i]) == Ok(validated)
    requires CheckLine(view, lines[i]) == checked && checked.Ok?
    ensures CheckLines(view, lines[..i + 1]) == Ok(validated + [checked.value])
    ensures Subtotal(validated + [checked.value]) == Subtotal(validated) + checked.value.price * checked.value.quantity
  {
    var item := checked.value;
    assert lines[..i + 1][..i] == lines[..i] && lines[..i + 1][i] == lines[i];
    assert (validated + [item])[..|validated|] == validated;
  }

  /** A line that fails after a checked prefix is the outcome of the whole list. */
  lemma CheckLinesFailAt(view: map<string, ProductView>, lines: seq<LineRequest>, i: nat,
                         validated: seq<OrderItem>, checked: Result<OrderItem, string>)
    requires i < |lines|
    requires CheckLines(view, lines[..i]) == Ok(validated)
    requires CheckLine(view, lines[i]) == checked && checked.Err?
    ensures CheckLines(view, lines) == Err(checked.error)
  {
    assert lines[..i + 1][..i] == lines[..i] && lines[..i + 1][i] == lines[i];
    CheckLinesErrorSticks(view, lines, i + 1);
  }

  /** One pass of the checking loop: `findOne` among active products, then the
      first matching size and colour entries and their stock. */
  method CheckOne(catalogue: map<string, ProductDocument>, line: LineRequest) returns (r: Result<OrderItem, string>)
    ensures r == CheckLine(Snapshot(catalogue), line)
  {
    if line.productId !in catalogue || !catalogue[line.productId].isActive {
      return Err("Product not found: " + line.productId);
    }
    var product := catalogue[line.productId];
    assert Snapshot(catalogue)[line.productId] == ViewOf(product);
    var sizeEntry := FindEntry(product.sizes, line.size);
    var colorEntry := FindEntry(product.colors, line.color);
    if sizeEntry.None? || product.sizes[sizeEntry.value].stock < line.quantity {
      return Err("Insufficient stock for " + product.name + " in size " + line.size);
    }
    if colorEntry.None? || product.colors[colorEntry.value].stock < line.quantity {
      return Err("Insufficient stock for " + product.name + " in color " + line.color);
    }
    r := Ok(OrderItem(line.productId, product.name, ItemImage(product.images), EffectivePrice(product.price),
                      line.quantity, line.size, line.color));
  }

  /** The stock loop of POST /: `updateStock` then `incrementSales` on each item's
      product, in order. */
  method TakeStock(catalogue: map<string, ProductDocument>, items: seq<OrderItem>)
    requires forall id :: id in catalogue ==> catalogue[id].Valid()
    requires Distinct(catalogue)
    requires forall i :: 0 <= i < |items| ==> items[i].productId in catalogue
    modifies catalogue.Values
    ensures forall id :: id in catalogue ==> catalogue[id].Valid()
    ensures Snapshot(catalogue) == ApplyItems(old(Snapshot(catalogue)), items)
  {
    ghost var view := Snapshot(catalogue);
    assert items[..0] == [];
    var k := 0;
    while k < |items|
      invariant 0 <= k <= |items|
      invariant Tracks(catalogue, ApplyItems(view, items[..k]))
    {
      ghost var expected := ApplyItems(view, items[..k]);
      ApplyItemsStep(view, items, k);
      assert items[k].productId in catalogue;
      TakeItem(catalogue, items[k], expected);
      k := k + 1;
    }
    assert items[..k] == items;
    TracksSnapshot(catalogue, ApplyItems(view, items));
  }

  /** A catalogue that tracks a view shows exactly that view. */
  lemma TracksSnapshot(catalogue: map<string, ProductDocument>, expected: map<string, ProductView>)
    requires Tracks(catalogue, expected)
    ensures Snapshot(catalogue) == expected
  {
    var after := Snapshot(catalogue);
    assert forall id :: id in after ==> after[id] == expected[id];
  }

  /** Every stored product is valid and shows the expected view. */
  predicate Tracks(catalogue: map<string, ProductDocument>, expected: map<string, ProductView>)
    reads catalogue.Values
  {
    && expected.Keys == catalogue.Keys
    && forall id :: id in catalogue ==> catalogue[id].Valid() && ViewOf(catalogue[id]) == expected[id]
  }

  /** One pass of the stock loop. */
  method TakeItem(catalogue: map<string, ProductDocument>, item: OrderItem, ghost expected: map<string, ProductView>)
    requires Distinct(catalogue) && item.productId in catalogue
    requires Tracks(catalogue, expected)
    modifies catalogue.Values
    ensures Tracks(catalogue, expected[item.productId := ApplyItem(expected[item.productId], item)])
  {
    var product := catalogue[item.productId];
    label Before:
    TakeOne(product, item);
    forall id | id in catalogue
      ensures catalogue[id].Valid()
      ensures ViewOf(catalogue[id]) == expected[item.productId := ApplyItem(expected[item.productId], item)][id]
    {
      if id != item.productId {
        assert catalogue[id] != product;
        assert ViewOf(catalogue[id]) == old@Before(ViewOf(catalogue[id]));
      }
    }
  }

  /** `updateStock` then `incrementSales` on one product. */
  method TakeOne(product: ProductDocument, item: OrderItem)
    requires product.Valid()
    modifies product
    ensures product.Valid()
    ensures ViewOf(product) == ApplyItem(old(ViewOf(product)), item)
  {
    product.UpdateStock(item.size, item.color, item.quantity);
    product.IncrementSales(Some(item.quantity));
  }

  lemma ApplyItemsStep(view: map<string, ProductView>, items: seq<OrderItem>, k: nat)
    requires k < |items|
    ensures var m := ApplyItems(view, items[..k]);
      ApplyItems(view, items[..k + 1]) ==
        if items[k].productId in m then m[items[k].productId := ApplyItem(m[items[k].productId], items[k])] else m
  {
    assert items[..k + 1][..k] == items[..k];
  }

  /** POST / as written. A rejected request or line changes nothing and creates no
      user. Past the checks an unknown e-mail becomes a guest user, and then
      `Order.create` is called without an `orderId`: the schema requires one and
      only the `pre('save')` hook would set it, which runs after validation, so the
      create throws and the route answers 500 with the guest already created and
      no stock taken, whatever the request. */
  method PlaceOrderAsWritten(catalogue: map<string, ProductDocument>, users: set<string>, req: OrderRequest)
    returns (outcome: PlaceOutcome, usersAfter: set<string>)
    requires forall id :: id in catalogue ==> catalogue[id].Valid()
    requires Distinct(catalogue)
    modifies catalogue.Values
    ensures forall id :: id in catalogue ==> catalogue[id].Valid()
    ensures Snapshot(catalogue) == old(Snapshot(catalogue))
    ensures Validate(old(Snapshot(catalogue)), req).Err? ==>
      && outcome == Rejected(400, Validate(old(Snapshot(catalogue)), req).error)
      && usersAfter == users
    ensures Validate(old(Snapshot(catalogue)), req).Ok? ==>
      && outcome == Rejected(500, "Error creating order. Please try again.")
      && usersAfter == users + {req.customer.email}
  {
    ghost var view := Snapshot(catalogue);
    var checked, subtotal := ValidateRequest(catalogue, req);
    if checked.Err? {
      return Rejected(400, checked.error), users;
    }
    CheckLinesKnownProducts(view, Sanitize(req).items);
    var clean := Sanitize(req);
    var payMethod := match ParsePaymentMethod(req.paymentMethod) case Some(m) => m case None => Cod;
    outcome, usersAfter := Fulfil(catalogue, users, req.customer.email, clean.shippingAddress,
                                  clean.billingAddress, payMethod, checked.value, subtotal, None);
  }

  /** The document the route passes to `Order.create` has no `orderId`, so one line
      with an image and a valid product still fails validation; the same line with
      a generated id (eight timestamp digits and four random characters) passes. */
  lemma UnsetOrderIdRejected()
    ensures var items := [OrderItem("64b7f0c2a1d3e4f5a6b7c8d9", "School Shirt", "/shirt.jpg", 450, 2, "M", "white")];
      !CreateValidates(None, items) && CreateValidates(Some("12345678AB3K"), items)
  {
  }

  /** POST / as evidently intended: the same route with the generated `orderId`
      already on the document `Order.create` validates. A rejected request or line
      changes nothing and creates no user. Past the checks an unknown e-mail
      becomes a guest user; a document that fails validation (an item without an
      image) makes the route answer 500 with stock untouched; otherwise the order
      is created and every validated item takes its stock and sales. */
  method PlaceOrder(catalogue: map<string, ProductDocument>, users: set<string>, req: OrderRequest, orderId: string)
    returns (outcome: PlaceOutcome, usersAfter: set<string>)
    requires forall id :: id in catalogue ==> catalogue[id].Valid()
    requires Distinct(catalogue)
    modifies catalogue.Values
    ensures forall id :: id in catalogue ==> catalogue[id].Valid()
    ensures Validate(old(Snapshot(catalogue)), req).Err? ==>
      && outcome == Rejected(400, Validate(old(Snapshot(catalogue)), req).error)
      && usersAfter == users
      && Snapshot(catalogue) == old(Snapshot(catalogue))
    ensures Validate(old(Snapshot(catalogue)), req).Ok? ==> usersAfter == users + {req.customer.email}
    ensures Validate(old(Snapshot(catalogue)), req).Ok? && !CreateValidates(Some(orderId), Validate(old(Snapshot(catalogue)), req).value) ==>
      && outcome == Rejected(500, "Error creating order. Please try again.")
      && Snapshot(catalogue) == old(Snapshot(catalogue))
    ensures Validate(old(Snapshot(catalogue)), req).Ok? && CreateValidates(Some(orderId), Validate(old(Snapshot(catalogue)), req).value) ==>
      var items := Validate(old(Snapshot(catalogue)), req).value;
      && outcome.Placed? && fresh(outcome.order)
      && outcome.order.orderId == orderId
      && outcome.order.items == items
      && outcome.order.pricing == PricingOf(Subtotal(items))
      && outcome.order.status == Pending
      && outcome.order.payment == Payment(ParsePaymentMethod(req.paymentMethod).value, PaymentPending, None, 0, None, 0, None)
      && outcome.order.billingAddress == Sanitize(req).billingAddress.GetOr(Sanitize(req).shippingAddress)
      && Snapshot(catalogue) == ApplyItems(old(Snapshot(catalogue)), items)
  {
    ghost var view := Snapshot(catalogue);
    var checked, subtotal := ValidateRequest(catalogue, req);
    if checked.Err? {
      return Rejected(400, checked.error), users;
    }
    CheckLinesKnownProducts(view, Sanitize(req).items);
    var clean := Sanitize(req);
    var payMethod := match ParsePaymentMethod(req.paymentMethod) case Some(m) => m case None => Cod;
    outcome, usersAfter := Fulfil(catalogue, users, req.customer.email, clean.shippingAddress,
                                  clean.billingAddress, payMethod, checked.value, subtotal, Some(orderId));
  }

  /** What POST / does once every line has passed: find or create the customer,
      create the order from a document carrying `orderId` (absent as written),
      take the stock. */
  method Fulfil(catalogue: map<string, ProductDocument>, users: set<string>, email: string,
                shippingAddress: Address, billingAddress: Option<Address>, payMethod: PaymentMethod,
                items: seq<OrderItem>, subtotal: int, orderId: Option<string>)
    returns (outcome: PlaceOutcome, usersAfter: set<string>)
    requires forall id :: id in catalogue ==> catalogue[id].Valid()
    requires Distinct(catalogue)
    requires forall i :: 0 <= i < |items| ==> items[i].productId in catalogue
    modifies catalogue.Values
    ensures forall id :: id in catalogue ==> catalogue[id].Valid()
    ensures usersAfter == users + {email}
    ensures !CreateValidates(orderId, items) ==>
      && outcome == Rejected(500, "Error creating order. Please try again.")
      && Snapshot(catalogue) == old(Snapshot(catalogue))
    ensures CreateValidates(orderId, items) ==>
      && outcome.Placed? && fresh(outcome.order)
      && outcome.order.orderId == orderId.value
      && outcome.order.items == items
      && outcome.order.pricing == PricingOf(subtotal)
      && outcome.order.status == Pending
      && outcome.order.payment == Payment(payMethod, PaymentPending, None, 0, None, 0, None)
      && outcome.order.billingAddress == billingAddress.GetOr(shippingAddress)
      && Snapshot(catalogue) == ApplyItems(old(Snapshot(catalogue)), items)
  {
    var created;
    usersAfter, created := FindOrCreateUser(users, email);
    if !CreateValidates(orderId, items) {
      outcome := Rejected(500, "Error creating order. Please try again.");
      return;
    }
    var order := new Order(orderId.value, items, shippingAddress, billingAddress, PricingOf(subtotal), payMethod);
    assert Snapshot(catalogue) == old(Snapshot(catalogue)) by {
      assert forall id :: id in catalogue ==> ViewOf(catalogue[id]) == old(ViewOf(catalogue[id]));
    }
    TakeStock(catalogue, items);
    outcome := Placed(order);
  }

  /** A sequence that keeps `before` as its prefix and is two longer is `before`
      followed by its last two elements. */
  lemma TwoAppended<T>(before: seq<T>, after: seq<T>)
    requires |after| == |before| + 2 && after[..|before|] == before
    ensures after == before + [after[|before|], after[|before| + 1]]
  {
  }

  /** `User.findOne({ email })`, and a guest account with a random password when
      there is none. */
  method FindOrCreateUser(users: set<string>, email: string) returns (usersAfter: set<string>, created: bool)
    ensures usersAfter == users + {email}
    ensures created <==> email !in users
  {
    if email in users {
      assert users + {email} == users;
      return users, false;
    }
    return users + {email}, true;
  }

  /** The validation chain, then the checking loop on the sanitized lines. */
  method ValidateRequest(catalogue: map<string, ProductDocument>, req: OrderRequest)
    returns (r: Result<seq<OrderItem>, string>, subtotal: int)
    ensures r == Validate(Snapshot(catalogue), req)
    ensures r.Ok? ==> subtotal == Subtotal(r.value)
  {
    if !RequestValid(req) {
      return Err("Validation failed"), 0;
    }
    r, subtotal := CheckAndPrice(catalogue, Sanitize(req).items);
  }

  // ---------------------------------------------------------------------------
  // POST /:id/tracking

  /** POST /:id/tracking: carrier and tracking number are required (trimmed), an
      unknown order is 404; otherwise the tracking fields are set and, unless the
      order is already shipped or delivered, it goes to shipped through
      `updateStatus`, cancelled and returned orders included. */
  method AddTracking(order: Order?, carrier: string, trackingNumber: string,
                     estimatedDelivery: Option<int>, now: int) returns (status: int)
    requires order != null ==> order.Valid()
    modifies order
    ensures Trim(carrier) == "" || Trim(trackingNumber) == "" ==> status == 400
    ensures status != 200 ==> order == null || unchanged(order)
    ensures Trim(carrier) != "" && Trim(trackingNumber) != "" ==> status == (if order == null then 404 else 200)
    ensures status == 200 ==>
      && order.Valid()
      && order.tracking == old(order.tracking).(carrier := Some(Trim(carrier)),
                                                trackingNumber := Some(Trim(trackingNumber)),
                                                estimatedDelivery := if estimatedDelivery.Some? then estimatedDelivery
                                                                     else old(order.tracking.estimatedDelivery))
      && order.payment == old(order.payment)
      && order.estimatedCompletionDate == old(order.estimatedCompletionDate)
      && order.actualCompletionDate == old(order.actualCompletionDate)
      && order.status == (if old(order.status) in {Shipped, Delivered} then old(order.status) else Shipped)
      && (old(order.status) in {Shipped, Delivered} ==> order.timeline == old(order.timeline))
      && (old(order.status) !in {Shipped, Delivered} ==>
            order.timeline == old(order.timeline) + [
              TimelineEntry(Shipped, "Order shipped via " + Trim(carrier) + ". Tracking: " + Trim(trackingNumber), now, "system"),
              TimelineEntry(Shipped, "Order status changed to shipped", now, "system")])
  {
    var c := Trim(carrier);
    var t := Trim(trackingNumber);
    if c == "" || t == "" {
      return 400;
    }
    if order == null {
      return 404;
    }
    order.tracking := order.tracking.(carrier := Some(c), trackingNumber := Some(t));
    if estimatedDelivery.Some? {
      order.tracking := order.tracking.(estimatedDelivery := estimatedDelivery);
    }
    if order.status != Shipped && order.status != Delivered {
      ghost var before := order.timeline;
      order.UpdateStatus(Shipped, "Order shipped via " + c + ". Tracking: " + t, None, now);
      assert "Order status changed to " + StatusName(Shipped) == "Order status changed to shipped";
      TwoAppended(before, order.timeline);
    }
    order.Save(now);
    return 200;
  }
}
