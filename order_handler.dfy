/**
 * Order submission (base/shop/order_handler.py): a cart replaces the user's
 * unpaid order, every line is checked in cart order against the catalogue,
 * and only a cart whose every line passes is saved, in one transaction that
 * creates the order, reserves the stock of every line and records the
 * requirement titles the products impose.
 *
 * The database seen through the product and order services is the state of
 * an `OrderHandler`: the catalogue (`products`) and the unpaid order of each
 * user (`unpaidOrders`). Each service call that may fail without the core
 * deciding it (delete, create, attach, requirement save) receives its
 * outcome as an input.
 */
module OrderHandling {
  import opened Wrappers

  type ProductId = int
  type UserId = nat
  /** The data submitted for one requirement (the fields a serializer validated). */
  type Payload = map<string, string>

  datatype ErrorId = INVALID_ID | NO_PRODUCT_HANDLER | OUT_OF_STOCK | LOW_STOCK | SAVE_ERROR

  /** The `info` dict of an error: the product, and its title and stock where the source adds them. */
  datatype ErrorInfo = ErrorInfo(productId: ProductId, productTitle: Option<string>, stock: Option<int>)

  datatype OrderError = OrderError(errorId: ErrorId, info: Option<ErrorInfo>)

  /** `True` or an `OrderError`. */
  datatype SubmitResult = Submitted | Rejected(error: OrderError)

  datatype CheckoutDetail = CheckoutDetail(price: int, requirements: map<string, Option<Payload>>)

  /** One entry of the cart: `{"id": ..., "count": ...}`. */
  datatype CartLine = CartLine(id: ProductId, count: int)

  /** The three product classes a type tag can select. */
  datatype ProductKind = Game | GiftCard | Steam

  /** A product object built by `createProduct`. */
  datatype ProductHandle = ProductHandle(kind: ProductKind, productType: string, id: ProductId)

  /**
   * A catalogue entry: its type tag (nullable), title, signed stock (negative
   * means unlimited) and the requirement title its class reports, if any.
   */
  datatype ProductRecord = ProductRecord(productType: Option<string>, title: string, stock: int,
                                         requirement: Option<string>)

  /** An unpaid order: its product lines and its requirement values (None until submitted). */
  datatype Order = Order(lines: seq<CartLine>, requirements: map<string, Option<Payload>>)

  /** Whether each fallible service call succeeds. */
  datatype StoreOutcomes = StoreOutcomes(deleteSucceeds: bool, createSucceeds: bool, attachSucceeds: bool,
                                         requirementsSaveSucceeds: bool)

  /** The `_handlers` table. */
  const Handlers: map<string, ProductKind> :=
    map["game-pc-steam" := Game, "game-pc-epic" := Game, "game-pc-ubisoft" := Game,
        "gift-card" := GiftCard, "steam-gem" := Steam, "steam-tf2" := Steam]

  // ---------------------------------------------------------------------------
  // createProduct

  /** The product object for a type tag, or None when the tag is null or unregistered. */
  function CreateProduct(productType: Option<string>, productId: ProductId): (p: Option<ProductHandle>)
    ensures p.Some? <==> productType.Some? && productType.value in Handlers
    ensures p.Some? ==> p.value.kind == Handlers[productType.value] && p.value.productType == productType.value
                        && p.value.id == productId
  {
    if productType.None? then None
    else if productType.value !in Handlers then None
    else Some(ProductHandle(Handlers[productType.value], productType.value, productId))
  }

  /** Exactly six tags have a handler; the three game stores share Game, the two Steam items share Steam. */
  lemma HandlerTable(tag: string)
    ensures CreateProduct(Some(tag), 0).Some? <==>
              tag in {"game-pc-steam", "game-pc-epic", "game-pc-ubisoft", "gift-card", "steam-gem", "steam-tf2"}
    ensures tag in {"game-pc-steam", "game-pc-epic", "game-pc-ubisoft"} ==> CreateProduct(Some(tag), 0).value.kind == Game
    ensures tag == "gift-card" ==> CreateProduct(Some(tag), 0).value.kind == GiftCard
    ensures tag in {"steam-gem", "steam-tf2"} ==> CreateProduct(Some(tag), 0).value.kind == Steam
  {
  }

  // ---------------------------------------------------------------------------
  // The per-line checks of submitOrder

  /** The error one cart line raises, checked in the source's order, or None. */
  function LineError(products: map<ProductId, ProductRecord>, line: CartLine): (e: Option<OrderError>)
    ensures e.None? <==> && line.id in products
                         && CreateProduct(products[line.id].productType, line.id).Some?
                         && products[line.id].stock != 0
                         && !(products[line.id].stock > 0 && line.count > products[line.id].stock)
    ensures e.Some? ==> e.value.errorId != SAVE_ERROR && e.value.info.Some? && e.value.info.value.productId == line.id
    ensures e.Some? && e.value.errorId == INVALID_ID <==> line.id !in products
    ensures e.Some? && e.value.errorId == NO_PRODUCT_HANDLER <==>
              line.id in products && CreateProduct(products[line.id].productType, line.id).None?
    ensures e.Some? && e.value.errorId == OUT_OF_STOCK <==>
              && line.id in products && CreateProduct(products[line.id].productType, line.id).Some?
              && products[line.id].stock == 0
    ensures e.Some? && e.value.errorId == LOW_STOCK <==>
              && line.id in products && CreateProduct(products[line.id].productType, line.id).Some?
              && 0 < products[line.id].stock < line.count
    ensures e.Some? && line.id in products ==> e.value.info.value.productTitle == Some(products[line.id].title)
    ensures e.Some? && line.id !in products ==> e.value.info.value.productTitle.None?
    ensures e.Some? ==> (e.value.info.value.stock.Some? <==> e.value.errorId == LOW_STOCK)
    ensures e.Some? && e.value.errorId == LOW_STOCK ==> e.value.info.value.stock == Some(products[line.id].stock)
  {
    if line.id !in products then
      Some(OrderError(INVALID_ID, Some(ErrorInfo(line.id, None, None))))
    else
      var item := products[line.id];
      if CreateProduct(item.productType, line.id).None? then
        Some(OrderError(NO_PRODUCT_HANDLER, Some(ErrorInfo(line.id, Some(item.title), None))))
      else if item.stock == 0 then
        Some(OrderError(OUT_OF_STOCK, Some(ErrorInfo(line.id, Some(item.title), None))))
      else if item.stock > 0 && line.count > item.stock then
        Some(OrderError(LOW_STOCK, Some(ErrorInfo(line.id, Some(item.title), Some(item.stock)))))
      else None
  }

  /** The error of the first failing line in cart order, or None when every line passes. */
  function FirstCartError(products: map<ProductId, ProductRecord>, cart: seq<CartLine>): Option<OrderError>
  {
    if cart == [] then None
    else if LineError(products, cart[0]).Some? then LineError(products, cart[0])
    else FirstCartError(products, cart[1..])
  }

  /** FirstCartError names the earliest failing line, and is None exactly when no line fails. */
  lemma {:induction false} FirstCartErrorIsFirst(products: map<ProductId, ProductRecord>, cart: seq<CartLine>)
    ensures FirstCartError(products, cart).None? <==>
              forall i :: 0 <= i < |cart| ==> LineError(products, cart[i]).None?
    ensures FirstCartError(products, cart).Some? ==>
              exists i :: 0 <= i < |cart| && FirstCartError(products, cart) == LineError(products, cart[i])
                          && forall j :: 0 <= j < i ==> LineError(products, cart[j]).None?
  {
    if cart != [] && LineError(products, cart[0]).None? {
      FirstCartErrorIsFirst(products, cart[1..]);
      assert forall i :: 1 <= i < |cart| ==> cart[i] == cart[1..][i - 1];
      if FirstCartError(products, cart).Some? {
        var k :| 0 <= k < |cart[1..]| && FirstCartError(products, cart[1..]) == LineError(products, cart[1..][k])
                 && forall j :: 0 <= j < k ==> LineError(products, cart[1..][j]).None?;
        assert FirstCartError(products, cart) == LineError(products, cart[k + 1]);
        assert forall j :: 0 <= j < k + 1 ==> LineError(products, cart[j]).None? by {
          forall j | 0 <= j < k + 1 ensures LineError(products, cart[j]).None? {
            if j > 0 { assert cart[j] == cart[1..][j - 1]; }
          }
        }
      }
    } else if cart != [] {
      assert FirstCartError(products, cart) == LineError(products, cart[0]);
    }
  }

  /** Unlimited (negative) stock never yields OUT_OF_STOCK or LOW_STOCK, whatever the count. */
  lemma UnlimitedStockNeverShort(products: map<ProductId, ProductRecord>, line: CartLine)
    requires line.id in products && products[line.id].stock < 0
    ensures LineError(products, line).Some? ==> LineError(products, line).value.errorId == NO_PRODUCT_HANDLER
  {
  }

  lemma LowStockExample()
    ensures FirstCartError(map[1 := ProductRecord(Some("gift-card"), "card", 1, None)], [CartLine(1, 2)])
         == Some(OrderError(LOW_STOCK, Some(ErrorInfo(1, Some("card"), Some(1)))))
  {
  }

  lemma OutOfStockExample()
    ensures FirstCartError(map[1 := ProductRecord(Some("gift-card"), "card", 0, None)], [CartLine(1, 1)])
         == Some(OrderError(OUT_OF_STOCK, Some(ErrorInfo(1, Some("card"), None))))
  {
  }

  // ---------------------------------------------------------------------------
  // Carrying requirements forward

  /** The previous order's requirement values that are not None. */
  function CarriedRequirements(requirements: map<string, Option<Payload>>): (carried: map<string, Payload>)
    ensures forall k :: k in carried <==> k in requirements && requirements[k].Some?
    ensures forall k :: k in carried ==> requirements[k] == Some(carried[k])
  {
    map k | k in requirements && requirements[k].Some? :: requirements[k].value
  }

  /**
   * The requirements stored for the new order: every requirement title of the
   * cart, with the carried value of that title where there is one. This is the
   * behaviour assumed of `saveRequirementTitleList`, whose code is not shown.
   */
  function RequirementMap(titles: set<string>, carried: map<string, Payload>): (reqs: map<string, Option<Payload>>)
    ensures reqs.Keys == titles
    ensures forall t :: t in reqs ==> reqs[t] == if t in carried then Some(carried[t]) else None
  {
    map t | t in titles :: if t in carried then Some(carried[t]) else None
  }

  /** Resubmitting keeps the entered value of every title the new cart still requires; a title never entered stays None. */
  lemma ResubmitKeepsEnteredValues(previous: map<string, Option<Payload>>, titles: set<string>, t: string)
    requires t in titles
    ensures RequirementMap(titles, CarriedRequirements(previous))[t]
         == if t in previous then previous[t] else None
  {
  }

  // ---------------------------------------------------------------------------
  // Reservation and requirement titles inside _saveUserOrder

  /**
   * `reserve(count, order_id)` as every product kind is assumed to behave:
   * unlimited stock is left alone, bounded stock is checked and decremented.
   */
  function Reserve(p: ProductRecord, count: int): (r: Option<ProductRecord>)
    ensures r.Some? <==> p.stock < 0 || count <= p.stock
    ensures p.stock < 0 ==> r == Some(p)
    ensures r.Some? && p.stock >= 0 ==> r.value == p.(stock := p.stock - count) && r.value.stock >= 0
  {
    if p.stock < 0 then Some(p)
    else if count <= p.stock then Some(p.(stock := p.stock - count))
    else None
  }

  /** Reserving every line in turn, each one seeing the stock the earlier ones left. */
  function ReserveAll(products: map<ProductId, ProductRecord>, lines: seq<CartLine>)
    : (r: Option<map<ProductId, ProductRecord>>)
    ensures r.Some? ==> r.value.Keys == products.Keys
    ensures r.Some? ==> forall id :: id in products ==> r.value[id] == products[id].(stock := r.value[id].stock)
    ensures r.Some? ==> forall id :: id in products && products[id].stock < 0 ==> r.value[id] == products[id]
    ensures r.Some? ==> forall id :: id in products && products[id].stock >= 0 ==> r.value[id].stock >= 0
    decreases |lines|
  {
    if lines == [] then Some(products)
    else if lines[0].id !in products then None
    else match Reserve(products[lines[0].id], lines[0].count)
      case None => None
      case Some(p) => ReserveAll(products[lines[0].id := p], lines[1..])
  }

  /** The units of one product the lines ask for. */
  function Demand(lines: seq<CartLine>, id: ProductId): int
  {
    if lines == [] then 0 else (if lines[0].id == id then lines[0].count else 0) + Demand(lines[1..], id)
  }

  lemma {:induction false} DemandNonNegative(lines: seq<CartLine>, id: ProductId)
    requires forall i :: 0 <= i < |lines| ==> lines[i].count >= 0
    ensures Demand(lines, id) >= 0
  {
    if lines != [] {
      DemandNonNegative(lines[1..], id);
    }
  }

  /** No bounded product is asked for more units in total than it has. */
  predicate WithinStock(products: map<ProductId, ProductRecord>, lines: seq<CartLine>) {
    forall id :: id in products && products[id].stock >= 0 ==> Demand(lines, id) <= products[id].stock
  }

  /** Each bounded stock has dropped by exactly its demand. */
  predicate DrawnDown(before: map<ProductId, ProductRecord>, after: map<ProductId, ProductRecord>,
                      lines: seq<CartLine>)
    requires after.Keys == before.Keys
  {
    forall id :: id in before && before[id].stock >= 0 ==> after[id].stock == before[id].stock - Demand(lines, id)
  }

  lemma DemandUnfold(lines: seq<CartLine>, id: ProductId)
    requires lines != []
    ensures Demand(lines, id) == (if lines[0].id == id then lines[0].count else 0) + Demand(lines[1..], id)
  {
  }

  /**
   * With non-negative counts, reserving a cart succeeds exactly when no bounded
   * product is asked for more units in total than it has, and then each
   * bounded stock drops by exactly its demand: units are never oversold.
   */
  lemma {:induction false} ReserveAllExact(products: map<ProductId, ProductRecord>, lines: seq<CartLine>)
    requires forall i :: 0 <= i < |lines| ==> lines[i].count >= 0 && lines[i].id in products
    ensures ReserveAll(products, lines).Some? <==> WithinStock(products, lines)
    ensures ReserveAll(products, lines).Some? ==> DrawnDown(products, ReserveAll(products, lines).value, lines)
    decreases |lines|
  {
    if lines == [] {
      assert WithinStock(products, lines);
    } else {
      var line := lines[0];
      var rest := lines[1..];
      assert forall i :: 0 <= i < |rest| ==> rest[i] == lines[i + 1];
      var p := products[line.id];
      if p.stock < 0 {
        ReserveUnlimitedStep(products, lines);
      } else if line.count <= p.stock {
        ReserveBoundedStep(products, lines);
      } else {
        DemandNonNegative(rest, line.id);
        DemandUnfold(lines, line.id);
        assert !WithinStock(products, lines);
      }
    }
  }

  lemma {:induction false} ReserveUnlimitedStep(products: map<ProductId, ProductRecord>, lines: seq<CartLine>)
    requires lines != [] && lines[0].id in products && products[lines[0].id].stock < 0
    requires forall i :: 0 <= i < |lines| ==> lines[i].count >= 0 && lines[i].id in products
    ensures ReserveAll(products, lines).Some? <==> WithinStock(products, lines)
    ensures ReserveAll(products, lines).Some? ==> DrawnDown(products, ReserveAll(products, lines).value, lines)
    decreases |lines|, 0
  {
    var line := lines[0];
    var rest := lines[1..];
    assert forall i :: 0 <= i < |rest| ==> rest[i] == lines[i + 1];
    assert products[line.id := products[line.id]] == products;
    assert ReserveAll(products, lines) == ReserveAll(products, rest);
    ReserveAllExact(products, rest);
    forall id | id in products && products[id].stock >= 0
      ensures Demand(lines, id) == Demand(rest, id)
    {
      DemandUnfold(lines, id);
    }
  }

  lemma {:induction false} ReserveBoundedStep(products: map<ProductId, ProductRecord>, lines: seq<CartLine>)
    requires lines != [] && lines[0].id in products
    requires 0 <= products[lines[0].id].stock && lines[0].count <= products[lines[0].id].stock
    requires forall i :: 0 <= i < |lines| ==> lines[i].count >= 0 && lines[i].id in products
    ensures ReserveAll(products, lines).Some? <==> WithinStock(products, lines)
    ensures ReserveAll(products, lines).Some? ==> DrawnDown(products, ReserveAll(products, lines).value, lines)
    decreases |lines|, 0
  {
    var line := lines[0];
    var rest := lines[1..];
    assert forall i :: 0 <= i < |rest| ==> rest[i] == lines[i + 1];
    var p := products[line.id];
    var next := products[line.id := p.(stock := p.stock - line.count)];
    assert ReserveAll(products, lines) == ReserveAll(next, rest);
    ReserveAllExact(next, rest);
    BoundedStepWithinStock(products, lines, next);
    if ReserveAll(next, rest).Some? {
      BoundedStepDrawnDown(products, lines, next, ReserveAll(next, rest).value);
    }
  }

  /** After a bounded first line is reserved, every bounded stock less the remaining demand is unchanged. */
  lemma BoundedStepSlack(products: map<ProductId, ProductRecord>, lines: seq<CartLine>,
                         next: map<ProductId, ProductRecord>, id: ProductId)
    requires lines != [] && lines[0].id in products
    requires 0 <= lines[0].count <= products[lines[0].id].stock
    requires next == products[lines[0].id := products[lines[0].id].(stock := products[lines[0].id].stock - lines[0].count)]
    requires id in products
    ensures (next[id].stock >= 0) == (products[id].stock >= 0)
    ensures products[id].stock >= 0 ==> next[id].stock - Demand(lines[1..], id) == products[id].stock - Demand(lines, id)
  {
    DemandUnfold(lines, id);
  }

  lemma {:induction false} BoundedStepWithinStock(products: map<ProductId, ProductRecord>, lines: seq<CartLine>,
                                                  next: map<ProductId, ProductRecord>)
    requires lines != [] && lines[0].id in products
    requires 0 <= lines[0].count <= products[lines[0].id].stock
    requires next == products[lines[0].id := products[lines[0].id].(stock := products[lines[0].id].stock - lines[0].count)]
    ensures WithinStock(next, lines[1..]) <==> WithinStock(products, lines)
  {
    assert next.Keys == products.Keys;
    if WithinStock(next, lines[1..]) {
      forall id | id in products && products[id].stock >= 0
        ensures Demand(lines, id) <= products[id].stock
      {
        BoundedStepSlack(products, lines, next, id);
      }
    }
    if WithinStock(products, lines) {
      forall id | id in next && next[id].stock >= 0
        ensures Demand(lines[1..], id) <= next[id].stock
      {
        BoundedStepSlack(products, lines, next, id);
      }
    }
  }

  lemma {:induction false} BoundedStepDrawnDown(products: map<ProductId, ProductRecord>, lines: seq<CartLine>,
                                                next: map<ProductId, ProductRecord>, after: map<ProductId, ProductRecord>)
    requires lines != [] && lines[0].id in products
    requires 0 <= lines[0].count <= products[lines[0].id].stock
    requires next == products[lines[0].id := products[lines[0].id].(stock := products[lines[0].id].stock - lines[0].count)]
    requires after.Keys == products.Keys
    ensures next.Keys == products.Keys
    ensures DrawnDown(next, after, lines[1..]) ==> DrawnDown(products, after, lines)
  {
    assert next.Keys == products.Keys;
    if DrawnDown(next, after, lines[1..]) {
      forall id | id in products && products[id].stock >= 0
        ensures after[id].stock == products[id].stock - Demand(lines, id)
      {
        BoundedStepSlack(products, lines, next, id);
      }
    }
  }

  /**
   * A cart listing one product twice passes every per-line check yet cannot be
   * reserved: the second reservation sees the stock the first one left.
   */
  lemma DuplicateLinesFailOnlyInTransaction()
    ensures var products := map[7 := ProductRecord(Some("steam-gem"), "gems", 3, None)];
            var cart := [CartLine(7, 2), CartLine(7, 2)];
            FirstCartError(products, cart).None? && ReserveAll(products, cart).None?
  {
    var products := map[7 := ProductRecord(Some("steam-gem"), "gems", 3, None)];
    var cart := [CartLine(7, 2), CartLine(7, 2)];
    assert cart[1..] == [CartLine(7, 2)];
    assert cart[1..][1..] == [];
    var after := products[7 := ProductRecord(Some("steam-gem"), "gems", 1, None)];
    assert ReserveAll(products, cart) == ReserveAll(after, cart[1..]);
  }

  /** The requirement title a product's class reports, if the product exists. */
  function RequirementOf(products: map<ProductId, ProductRecord>, id: ProductId): Option<string>
  {
    if id in products then products[id].requirement else None
  }

  /** The set built by `requirements.add(req)` for every truthy `getRequirement()`, line by line. */
  function RequirementTitles(products: map<ProductId, ProductRecord>, lines: seq<CartLine>): set<string>
    decreases |lines|
  {
    if lines == [] then {}
    else
      var req := RequirementOf(products, lines[|lines| - 1].id);
      RequirementTitles(products, lines[..|lines| - 1]) + (if req.Some? && req.value != "" then {req.value} else {})
  }

  /** A title is saved iff it is non-empty and some line's product reports it. */
  lemma {:induction false} RequirementTitlesMembers(products: map<ProductId, ProductRecord>, lines: seq<CartLine>,
                                                    t: string)
    ensures t in RequirementTitles(products, lines) <==>
              t != "" && exists i :: 0 <= i < |lines| && RequirementOf(products, lines[i].id) == Some(t)
    decreases |lines|
  {
    if lines != [] {
      var init := lines[..|lines| - 1];
      RequirementTitlesMembers(products, init, t);
      assert forall i :: 0 <= i < |init| ==> init[i] == lines[i];
      if t != "" && exists i :: 0 <= i < |lines| && RequirementOf(products, lines[i].id) == Some(t) {
        var i :| 0 <= i < |lines| && RequirementOf(products, lines[i].id) == Some(t);
        if i < |init| {
          assert RequirementOf(products, init[i].id) == Some(t);
        }
      }
    }
  }

  /** `zip(products, products_count)` as the product lines of the order. */
  function Zip(handles: seq<ProductHandle>, counts: seq<int>): (lines: seq<CartLine>)
    ensures |lines| == if |handles| <= |counts| then |handles| else |counts|
    ensures forall i :: 0 <= i < |lines| ==> lines[i] == CartLine(handles[i].id, counts[i])
  {
    var n := if |handles| <= |counts| then |handles| else |counts|;
    seq(n, i requires 0 <= i < n => CartLine(handles[i].id, counts[i]))
  }

  class OrderHandler {
    /** The catalogue: what getProductSummaryByIds and getStock read, and what reserve decrements. */
    var products: map<ProductId, ProductRecord>
    /** The unpaid order of each user. */
    var unpaidOrders: map<UserId, Order>

    constructor (products: map<ProductId, ProductRecord>, unpaidOrders: map<UserId, Order>)
      ensures this.products == products && this.unpaidOrders == unpaidOrders
    {
      this.products := products;
      this.unpaidOrders := unpaidOrders;
    }

    /**
     * The loop of submitOrder over the cart: each line is looked up and checked
     * in order, the first failing line ends the loop with its error, and a
     * passing line adds its product object and count to the two lists.
     */
    method CheckCart(cart: seq<CartLine>) returns (error: Option<OrderError>, handles: seq<ProductHandle>,
                                                   counts: seq<int>)
      ensures error == FirstCartError(products, cart)
      ensures error.None? ==> |handles| == |cart| && |counts| == |cart|
      ensures error.None? ==> forall i :: 0 <= i < |cart| ==>
                LineError(products, cart[i]).None?
                && handles[i] == CreateProduct(products[cart[i].id].productType, cart[i].id).value
                && counts[i] == cart[i].count
    {
      handles, counts := [], [];
      var i := 0;
      while i < |cart|
        invariant 0 <= i <= |cart|
        invariant FirstCartError(products, cart) == FirstCartError(products, cart[i..])
        invariant |handles| == i && |counts| == i
        invariant forall j :: 0 <= j < i ==>
                    LineError(products, cart[j]).None?
                    && handles[j] == CreateProduct(products[cart[j].id].productType, cart[j].id).value
                    && counts[j] == cart[j].count
      {
        var productCart := cart[i];
        assert cart[i..][0] == productCart && cart[i..][1..] == cart[i + 1..];
        if productCart.id !in products {
          return Some(OrderError(INVALID_ID, Some(ErrorInfo(productCart.id, None, None)))), handles, counts;
        }
        var item := products[productCart.id];
        var product := CreateProduct(item.productType, productCart.id);
        if product.None? {
          return Some(OrderError(NO_PRODUCT_HANDLER, Some(ErrorInfo(productCart.id, Some(item.title), None)))),
                 handles, counts;
        }
        var stock := item.stock;
        if stock == 0 {
          return Some(OrderError(OUT_OF_STOCK, Some(ErrorInfo(productCart.id, Some(item.title), None)))),
                 handles, counts;
        }
        if stock > 0 && productCart.count > stock {
          return Some(OrderError(LOW_STOCK, Some(ErrorInfo(productCart.id, Some(item.title), Some(stock))))),
                 handles, counts;
        }
        handles := handles + [product.value];
        counts := counts + [productCart.count];
        i := i + 1;
      }
      return None, handles, counts;
    }

    /**
     * The reservation loop of `_saveUserOrder`: every line reserves from the
     * transaction's copy of the catalogue, and the first refusal aborts.
     */
    method ReserveLines(lines: seq<CartLine>) returns (stock: Option<map<ProductId, ProductRecord>>)
      ensures stock == ReserveAll(products, lines)
    {
      var current := products;
      var i := 0;
      while i < |lines|
        invariant 0 <= i <= |lines|
        invariant ReserveAll(products, lines) == ReserveAll(current, lines[i..])
      {
        var line := lines[i];
        assert lines[i..][0] == line && lines[i..][1..] == lines[i + 1..];
        if line.id !in current {
          return None;
        }
        var reserved := Reserve(current[line.id], line.count);
        if reserved.None? {
          return None;
        }
        current := current[line.id := reserved.value];
        i := i + 1;
      }
      assert lines[i..] == [];
      return Some(current);
    }

    /** The requirement loop of `_saveUserOrder`: the set of truthy requirement titles of the lines. */
    method CollectRequirementTitles(lines: seq<CartLine>) returns (requirements: set<string>)
      ensures requirements == RequirementTitles(products, lines)
    {
      requirements := {};
      for j := 0 to |lines|
        invariant requirements == RequirementTitles(products, lines[..j])
      {
        assert lines[..j + 1][..j] == lines[..j];
        var req := RequirementOf(products, lines[j].id);
        if req.Some? && req.value != "" {
          requirements := requirements + {req.value};
        }
      }
      assert lines[..|lines|] == lines;
    }

    /**
     * The transaction of `_saveUserOrder`: create the order, attach its lines,
     * reserve every line, save the requirement titles when there are any.
     * Either every step succeeds and all of it is committed, or nothing is.
     */
    method SaveUserOrder(user: UserId, handles: seq<ProductHandle>, counts: seq<int>,
                         prevReqs: map<string, Payload>, outcomes: StoreOutcomes)
      returns (saved: bool)
      requires |handles| == |counts|
      modifies this
      ensures var lines := Zip(handles, counts);
              var reserved := ReserveAll(old(products), lines);
              var titles := RequirementTitles(old(products), lines);
              && saved == (outcomes.createSucceeds && outcomes.attachSucceeds && reserved.Some?
                           && (titles == {} || outcomes.requirementsSaveSucceeds))
              && products == (if saved then reserved.value else old(products))
              && unpaidOrders == (if saved then old(unpaidOrders)[user := Order(lines, RequirementMap(titles, prevReqs))]
                                  else old(unpaidOrders))
    {
      if !outcomes.createSucceeds {
        return false;
      }
      var productList := Zip(handles, counts);
      if !outcomes.attachSucceeds {
        return false;
      }

      var reserved := ReserveLines(productList);
      if reserved.None? {
        return false;
      }
      var requirements := CollectRequirementTitles(productList);
      if |requirements| > 0 && !outcomes.requirementsSaveSucceeds {
        return false;
      }
      products := reserved.value;
      unpaidOrders := unpaidOrders[user := Order(productList, RequirementMap(requirements, prevReqs))];
      return true;
    }

    /**
     * Replaces the user's unpaid order by the cart. The previous order is
     * deleted first (a failed delete is ignored) and its non-None requirement
     * values are carried forward; the first failing line rejects the cart with
     * nothing saved; otherwise the cart is saved as one transaction, and a
     * failed transaction is SAVE_ERROR.
     */
    method SubmitOrder(user: UserId, cart: seq<CartLine>, outcomes: StoreOutcomes) returns (result: SubmitResult)
      modifies this
      ensures var carried := if user in old(unpaidOrders)
                             then CarriedRequirements(old(unpaidOrders)[user].requirements) else map[];
              var remaining := if user in old(unpaidOrders) && outcomes.deleteSucceeds
                               then old(unpaidOrders) - {user} else old(unpaidOrders);
              var error := FirstCartError(old(products), cart);
              var reserved := ReserveAll(old(products), cart);
              var titles := RequirementTitles(old(products), cart);
              var saved := error.None? && outcomes.createSucceeds && outcomes.attachSucceeds && reserved.Some?
                           && (titles == {} || outcomes.requirementsSaveSucceeds);
              && result == (if error.Some? then Rejected(error.value)
                            else if saved then Submitted
                            else Rejected(OrderError(SAVE_ERROR, None)))
              && products == (if saved then reserved.value else old(products))
              && unpaidOrders == (if saved then remaining[user := Order(cart, RequirementMap(titles, carried))]
                                  else remaining)
    {
      var lastUnpaidOrderReqs: map<string, Payload> := map[];
      if user in unpaidOrders {
        var order := unpaidOrders[user];
        lastUnpaidOrderReqs := CarriedRequirements(order.requirements);
        if outcomes.deleteSucceeds {
          unpaidOrders := unpaidOrders - {user};
        }
      }

      var error, handles, counts := CheckCart(cart);
      if error.Some? {
        return Rejected(error.value);
      }
      assert Zip(handles, counts) == cart;

      var saved := SaveUserOrder(user, handles, counts, lastUnpaidOrderReqs, outcomes);
      if !saved {
        return Rejected(OrderError(SAVE_ERROR, None));
      }
      return Submitted;
    }

    /** The checkout view of the unpaid order: None without an order or without a price. */
    function GetUnpaidOrderCheckoutDetails(user: UserId, calcOrderPrice: Order -> Option<int>)
      : (detail: Option<CheckoutDetail>)
      reads this
      ensures detail.None? <==> user !in unpaidOrders || calcOrderPrice(unpaidOrders[user]).None?
      ensures detail.Some? ==> detail.value.price == calcOrderPrice(unpaidOrders[user]).value
                               && detail.value.requirements == unpaidOrders[user].requirements
    {
      if user !in unpaidOrders then None
      else
        var order := unpaidOrders[user];
        match calcOrderPrice(order)
        case None => None
        case Some(price) => Some(CheckoutDetail(price, order.requirements))
    }

    /**
     * Stores the data of one requirement of the unpaid order: None without an
     * order, false for a name the order does not list, otherwise the outcome
     * of the save.
     */
    method SubmitRequirement(user: UserId, reqName: string, data: Payload, saveSucceeds: bool)
      returns (result: Option<bool>)
      modifies this
      ensures products == old(products)
      ensures user !in old(unpaidOrders) ==> result.None? && unpaidOrders == old(unpaidOrders)
      ensures user in old(unpaidOrders) && reqName !in old(unpaidOrders)[user].requirements ==>
                result == Some(false) && unpaidOrders == old(unpaidOrders)
      ensures user in old(unpaidOrders) && reqName in old(unpaidOrders)[user].requirements ==>
                && result == Some(saveSucceeds)
                && unpaidOrders == if saveSucceeds
                                   then var order := old(unpaidOrders)[user];
                                        old(unpaidOrders)[user := order.(requirements := order.requirements[reqName := Some(data)])]
                                   else old(unpaidOrders)
    {
      if user !in unpaidOrders {
        return None;
      }
      var order := unpaidOrders[user];
      if reqName !in order.requirements {
        return Some(false);
      }
      if saveSucceeds {
        unpaidOrders := unpaidOrders[user := order.(requirements := order.requirements[reqName := Some(data)])];
      }
      return Some(saveSucceeds);
    }
  }

  /** The scenario of a requirement the order does not list: refused, order untouched. */
  method SubmitUnlistedRequirement(handler: OrderHandler, user: UserId, data: Payload)
    returns (result: Option<bool>)
    requires user in handler.unpaidOrders && handler.unpaidOrders[user].requirements.Keys == {"steam-tradelink"}
    modifies handler
    ensures result == Some(false) && handler.unpaidOrders == old(handler.unpaidOrders)
  {
    result := handler.SubmitRequirement(user, "unknown-field", data, true);
  }
}
