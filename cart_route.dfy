/**
 * `/api/cart` (joanie-store/src/app/api/cart/route.ts): GET lists the caller's
 * cart rows with their totals, POST adds a quantity of a product to the
 * caller's cart, raising the existing row or creating one.
 */
module CartRoute {
  import opened Store
  import opened Database
  import opened Pricing

  datatype Totals = Totals(totalItems: int, totalPrice: int)

  datatype CartBody =
    | Listing(items: seq<CartItem>, totalItems: int, totalPrice: int)
    | Added(item: CartItem)
    | Error(error: string)

  /** The JSON body of a POST: `{ productId, quantity }`, either field possibly absent. */
  datatype PostBody = PostBody(productId: Option<ProductId>, quantity: Option<int>)

  /** `const { quantity = 1 } = await req.json()` */
  function RequestedQuantity(body: PostBody): (q: int)
    ensures body.quantity.None? ==> q == 1
    ensures body.quantity.Some? ==> q == body.quantity.value
  {
    if body.quantity.Some? then body.quantity.value else 1
  }

  /** What `quantity` units of a product add to the server's total price: `(salePrice || price) * quantity`. */
  function LineValue(p: Product, quantity: int): int {
    ServerUnitPrice(p) * quantity
  }

  /**
   * The `reduce` over the listed rows, left to right from `{ totalItems: 0,
   * totalPrice: 0 }`: each row adds its quantity, and its quantity times the
   * `salePrice || price` of its product.
   */
  function Fold(items: seq<CartItem>): (t: Totals)
    ensures items == [] ==> t == Totals(0, 0)
  {
    if items == [] then Totals(0, 0)
    else
      var acc := Fold(items[..|items| - 1]);
      var item := items[|items| - 1];
      Totals(acc.totalItems + item.quantity, acc.totalPrice + LineValue(item.product, item.quantity))
  }

  /** The totals of a concatenation are the sums of the totals of its two parts. */
  lemma {:induction false} FoldAppend(a: seq<CartItem>, b: seq<CartItem>)
    ensures Fold(a + b) == Totals(Fold(a).totalItems + Fold(b).totalItems, Fold(a).totalPrice + Fold(b).totalPrice)
    decreases |b|
  {
    if b == [] {
      assert a + b == a;
    } else {
      FoldAppend(a, b[..|b| - 1]);
      assert (a + b)[..|a + b| - 1] == a + b[..|b| - 1];
    }
  }

  /** Appending one row adds its quantity and its quantity times its unit price. */
  lemma FoldSnoc(items: seq<CartItem>, item: CartItem)
    ensures Fold(items + [item])
         == Totals(Fold(items).totalItems + item.quantity, Fold(items).totalPrice + LineValue(item.product, item.quantity))
  {
    assert (items + [item])[..|items|] == items;
  }

  /** Rows of non-negative quantity and unit price never total below zero. */
  lemma {:induction false} FoldNonNegative(items: seq<CartItem>)
    requires forall i :: 0 <= i < |items| ==> items[i].quantity >= 0 && ServerUnitPrice(items[i].product) >= 0
    ensures Fold(items).totalItems >= 0 && Fold(items).totalPrice >= 0
    decreases |items|
  {
    if items != [] {
      FoldNonNegative(items[..|items| - 1]);
      var x := items[|items| - 1];
      assert LineValue(x.product, x.quantity) >= 0 by {
        ProductGrows(ServerUnitPrice(x.product), x.quantity);
      }
    }
  }

  /** The totals do not depend on the order of the rows: any rearrangement folds to the same totals. */
  lemma {:induction false} FoldPermutation(a: seq<CartItem>, b: seq<CartItem>)
    requires multiset(a) == multiset(b)
    ensures Fold(a) == Fold(b)
    decreases |a|
  {
    if a != [] {
      var x := a[|a| - 1];
      assert x in multiset(b);
      var j :| 0 <= j < |b| && b[j] == x;
      var rest := b[..j] + b[j + 1..];
      assert b == b[..j] + [x] + b[j + 1..];
      assert a == a[..|a| - 1] + [x];
      assert multiset(a) == multiset(a[..|a| - 1]) + multiset{x};
      assert multiset(b) == multiset(b[..j]) + multiset{x} + multiset(b[j + 1..]);
      assert multiset(rest) == multiset(b[..j]) + multiset(b[j + 1..]);
      assert multiset(a[..|a| - 1]) == multiset(a) - multiset{x};
      assert multiset(b) - multiset{x} == multiset(rest);
      FoldPermutation(a[..|a| - 1], rest);
      FoldAppend(b[..j], [x]);
      FoldAppend(b[..j] + [x], b[j + 1..]);
      FoldAppend(b[..j], b[j + 1..]);
      FoldAppend(a[..|a| - 1], [x]);
    }
  }

  /** One stored row joined with its product (`include: { product: true }`). */
  function Joined(rows: map<Key, CartRow>, products: map<ProductId, Product>, user: UserId, p: ProductId): (item: CartItem)
    requires (user, p) in rows && p in products
    ensures item.userId == user && item.productId == p && item.product == products[p]
    ensures item.quantity == rows[(user, p)].quantity && item.createdAt == rows[(user, p)].createdAt
  {
    var row := rows[(user, p)];
    CartItem(row.id, p, products[p], row.quantity, user, row.createdAt, row.updatedAt)
  }

  /** The joined rows of `ps`, in the order of `ps`. */
  function JoinAll(rows: map<Key, CartRow>, products: map<ProductId, Product>, user: UserId, ps: seq<ProductId>): (items: seq<CartItem>)
    requires forall p :: p in ps ==> (user, p) in rows && p in products
    ensures |items| == |ps|
    ensures forall i :: 0 <= i < |ps| ==> items[i] == Joined(rows, products, user, ps[i])
    decreases |ps|
  {
    if ps == [] then []
    else JoinAll(rows, products, user, ps[..|ps| - 1]) + [Joined(rows, products, user, ps[|ps| - 1])]
  }

  /** The quantity the user holds of each product (0 for a product not in the cart). */
  ghost function QuantityOf(rows: map<Key, CartRow>, user: UserId): ProductId -> int {
    p => if (user, p) in rows then rows[(user, p)].quantity else 0
  }

  /** What each of the user's rows adds to the server's total price. */
  ghost function ValueOf(rows: map<Key, CartRow>, products: map<ProductId, Product>, user: UserId): ProductId -> int {
    p => if (user, p) in rows && p in products then LineValue(products[p], rows[(user, p)].quantity) else 0
  }

  /** The number of units in the user's cart: the sum of quantities over the user's rows. */
  ghost function UserQuantity(rows: map<Key, CartRow>, user: UserId): int {
    SetSum(OwnedBy(rows, user), QuantityOf(rows, user))
  }

  /** The server's price of the user's cart: the sum of `(salePrice || price) * quantity` over the user's rows. */
  ghost function UserValue(rows: map<Key, CartRow>, products: map<ProductId, Product>, user: UserId): int {
    SetSum(OwnedBy(rows, user), ValueOf(rows, products, user))
  }

  /** Folding the joined rows of distinct products sums their quantities and values. */
  lemma FoldJoinAll(rows: map<Key, CartRow>, products: map<ProductId, Product>, user: UserId, ps: seq<ProductId>)
    requires NoDuplicates(ps)
    requires forall p :: p in ps ==> (user, p) in rows && p in products
    ensures Fold(JoinAll(rows, products, user, ps))
         == Totals(SetSum(Elements(ps), QuantityOf(rows, user)), SetSum(Elements(ps), ValueOf(rows, products, user)))
  {
    FoldJoinAllQuantity(rows, products, user, ps);
    FoldJoinAllValue(rows, products, user, ps);
  }

  /** The unit count of the joined rows of distinct products is the sum of their quantities. */
  lemma {:induction false} FoldJoinAllQuantity(rows: map<Key, CartRow>, products: map<ProductId, Product>, user: UserId, ps: seq<ProductId>)
    requires NoDuplicates(ps)
    requires forall p :: p in ps ==> (user, p) in rows && p in products
    ensures Fold(JoinAll(rows, products, user, ps)).totalItems == SetSum(Elements(ps), QuantityOf(rows, user))
    decreases |ps|
  {
    if ps != [] {
      var init, p := ps[..|ps| - 1], ps[|ps| - 1];
      var f := QuantityOf(rows, user);
      FoldJoinAllQuantity(rows, products, user, init);
      var item := Joined(rows, products, user, p);
      assert JoinAll(rows, products, user, ps) == JoinAll(rows, products, user, init) + [item];
      FoldSnoc(JoinAll(rows, products, user, init), item);
      assert f(p) == item.quantity;
      assert Elements(ps) == Elements(init) + {p};
      assert p !in Elements(init);
      SetSumInsert(Elements(init), f, f, p);
    }
  }

  /** The price of the joined rows of distinct products is the sum of their line values. */
  lemma {:induction false} FoldJoinAllValue(rows: map<Key, CartRow>, products: map<ProductId, Product>, user: UserId, ps: seq<ProductId>)
    requires NoDuplicates(ps)
    requires forall p :: p in ps ==> (user, p) in rows && p in products
    ensures Fold(JoinAll(rows, products, user, ps)).totalPrice == SetSum(Elements(ps), ValueOf(rows, products, user))
    decreases |ps|
  {
    if ps != [] {
      var init, p := ps[..|ps| - 1], ps[|ps| - 1];
      var v := ValueOf(rows, products, user);
      FoldJoinAllValue(rows, products, user, init);
      var item := Joined(rows, products, user, p);
      assert JoinAll(rows, products, user, ps) == JoinAll(rows, products, user, init) + [item];
      FoldSnoc(JoinAll(rows, products, user, init), item);
      assert v(p) == LineValue(item.product, item.quantity);
      assert Elements(ps) == Elements(init) + {p};
      assert p !in Elements(init);
      SetSumInsert(Elements(init), v, v, p);
    }
  }

  /**
   * `items` is the user's cart: one joined entry per row the user owns, and
   * nothing else.
   */
  ghost predicate IsUserCart(items: seq<CartItem>, rows: map<Key, CartRow>, products: map<ProductId, Product>, user: UserId) {
    && (forall i :: 0 <= i < |items| ==>
          (user, items[i].productId) in rows && items[i].productId in products
          && items[i] == Joined(rows, products, user, items[i].productId))
    && (forall p :: (user, p) in rows ==> exists i :: 0 <= i < |items| && items[i].productId == p)
    && (forall i, j :: 0 <= i < j < |items| ==> items[i].productId != items[j].productId)
  }

  /** `orderBy: { createdAt: 'desc' }` */
  ghost predicate NewestFirst(items: seq<CartItem>) {
    forall i, j :: 0 <= i < j < |items| ==> items[i].createdAt >= items[j].createdAt
  }

  /** GET /api/cart */
  method Get(db: Db, session: Option<Session>, fault: Fault) returns (r: Response<CartBody>)
    requires db.Valid()
    ensures fault == SessionThrows ==> r == Response(500, Error("Failed to fetch cart"))
    ensures fault != SessionThrows && !SignedIn(session) ==> r == Response(401, Error("Unauthorized"))
    ensures fault != SessionThrows && SignedIn(session) && fault == DatabaseThrows ==>
                  r == Response(500, Error("Failed to fetch cart"))
    ensures r.status == 200 <==> fault != SessionThrows && fault != DatabaseThrows && SignedIn(session)
    ensures r.status == 200 ==>
              && r.body.Listing?
              && IsUserCart(r.body.items, db.cartItems, db.products, UserIdOf(session))
              && NewestFirst(r.body.items)
              && Fold(r.body.items) == Totals(r.body.totalItems, r.body.totalPrice)
              && r.body.totalItems == UserQuantity(db.cartItems, UserIdOf(session))
              && r.body.totalPrice == UserValue(db.cartItems, db.products, UserIdOf(session))
  {
    if fault == SessionThrows {
      return Response(500, Error("Failed to fetch cart"));
    }
    if !SignedIn(session) {
      return Response(401, Error("Unauthorized"));
    }
    if fault == DatabaseThrows {
      return Response(500, Error("Failed to fetch cart"));
    }
    var user := UserIdOf(session);
    var ps := ListNewestFirst(db.cartItems, user, (row: CartRow) => row.createdAt);
    var items := JoinAll(db.cartItems, db.products, user, ps);
    var totals := Fold(items);
    ListingIsUserCart(db.cartItems, db.products, user, ps);
    r := Response(200, Listing(items, totals.totalItems, totals.totalPrice));
  }

  /**
   * The joined rows of a newest-first listing of the user's products are the
   * user's cart, newest first, and their fold is the user's unit count and price.
   */
  lemma ListingIsUserCart(rows: map<Key, CartRow>, products: map<ProductId, Product>, user: UserId, ps: seq<ProductId>)
    requires forall k :: k in rows ==> k.1 in products
    requires NoDuplicates(ps)
    requires forall p :: p in ps <==> (user, p) in rows
    requires forall i, j :: 0 <= i < j < |ps| ==> rows[(user, ps[i])].createdAt >= rows[(user, ps[j])].createdAt
    ensures IsUserCart(JoinAll(rows, products, user, ps), rows, products, user)
    ensures NewestFirst(JoinAll(rows, products, user, ps))
    ensures Fold(JoinAll(rows, products, user, ps)) == Totals(UserQuantity(rows, user), UserValue(rows, products, user))
  {
    JoinAllIsUserCart(rows, products, user, ps);
    JoinAllNewestFirst(rows, products, user, ps);
    FoldJoinAll(rows, products, user, ps);
    assert Elements(ps) == OwnedBy(rows, user);
  }

  /** The joined rows of a duplicate-free listing of exactly the user's products are the user's cart. */
  lemma JoinAllIsUserCart(rows: map<Key, CartRow>, products: map<ProductId, Product>, user: UserId, ps: seq<ProductId>)
    requires forall k :: k in rows ==> k.1 in products
    requires NoDuplicates(ps)
    requires forall p :: p in ps <==> (user, p) in rows
    ensures IsUserCart(JoinAll(rows, products, user, ps), rows, products, user)
  {
    var items := JoinAll(rows, products, user, ps);
    forall i | 0 <= i < |items|
      ensures (user, items[i].productId) in rows && items[i].productId in products
      ensures items[i] == Joined(rows, products, user, items[i].productId)
    {
      assert items[i] == Joined(rows, products, user, ps[i]);
    }
    forall p | (user, p) in rows
      ensures exists i :: 0 <= i < |items| && items[i].productId == p
    {
      var i :| 0 <= i < |ps| && ps[i] == p;
      assert items[i].productId == p;
    }
    forall i, j | 0 <= i < j < |items| ensures items[i].productId != items[j].productId {
      assert items[i].productId == ps[i] && items[j].productId == ps[j];
    }
  }

  /** Joining keeps the creation times, so a newest-first listing joins newest first. */
  lemma JoinAllNewestFirst(rows: map<Key, CartRow>, products: map<ProductId, Product>, user: UserId, ps: seq<ProductId>)
    requires forall p :: p in ps ==> (user, p) in rows && p in products
    requires forall i, j :: 0 <= i < j < |ps| ==> rows[(user, ps[i])].createdAt >= rows[(user, ps[j])].createdAt
    ensures NewestFirst(JoinAll(rows, products, user, ps))
  {
    var items := JoinAll(rows, products, user, ps);
    forall i, j | 0 <= i < j < |items| ensures items[i].createdAt >= items[j].createdAt {
      assert items[i].createdAt == rows[(user, ps[i])].createdAt;
      assert items[j].createdAt == rows[(user, ps[j])].createdAt;
    }
  }

  /**
   * `prisma.cartItem.upsert`: an existing (user, product) row has `quantity`
   * added to it; otherwise a row with that quantity is created. No other row
   * changes, and there is still one row per pair.
   */
  function Upsert(rows: map<Key, CartRow>, key: Key, quantity: int, newId: string, now: int): (r: map<Key, CartRow>)
    ensures r.Keys == rows.Keys + {key}
    ensures key in rows ==> r[key] == rows[key].(quantity := rows[key].quantity + quantity, updatedAt := now)
    ensures key !in rows ==> r[key] == CartRow(newId, quantity, now, now)
    ensures forall k :: k in rows && k != key ==> r[k] == rows[k]
  {
    if key in rows then rows[key := rows[key].(quantity := rows[key].quantity + quantity, updatedAt := now)]
    else rows[key := CartRow(newId, quantity, now, now)]
  }

  /** An upsert raises the user's unit count by exactly the requested quantity. */
  lemma UpsertAddsQuantity(rows: map<Key, CartRow>, user: UserId, p: ProductId, quantity: int, newId: string, now: int)
    ensures UserQuantity(Upsert(rows, (user, p), quantity, newId, now), user) == UserQuantity(rows, user) + quantity
  {
    var after := Upsert(rows, (user, p), quantity, newId, now);
    var s := OwnedBy(rows, user);
    var f, g := QuantityOf(rows, user), QuantityOf(after, user);
    if (user, p) in rows {
      assert OwnedBy(after, user) == s;
      SetSumBump(s, f, g, p, quantity);
    } else {
      assert OwnedBy(after, user) == s + {p};
      SetSumInsert(s, f, g, p);
    }
  }

  /** An upsert raises the user's price by the product's unit price times the requested quantity. */
  lemma UpsertAddsValue(rows: map<Key, CartRow>, products: map<ProductId, Product>, user: UserId, p: ProductId,
                        quantity: int, newId: string, now: int)
    requires p in products
    ensures UserValue(Upsert(rows, (user, p), quantity, newId, now), products, user)
         == UserValue(rows, products, user) + ServerUnitPrice(products[p]) * quantity
  {
    var after := Upsert(rows, (user, p), quantity, newId, now);
    var s := OwnedBy(rows, user);
    var f, g := ValueOf(rows, products, user), ValueOf(after, products, user);
    var unit := ServerUnitPrice(products[p]);
    if (user, p) in rows {
      assert OwnedBy(after, user) == s;
      var held := rows[(user, p)].quantity;
      assert g(p) == unit * (held + quantity) == unit * held + unit * quantity;
      SetSumBump(s, f, g, p, unit * quantity);
    } else {
      assert OwnedBy(after, user) == s + {p};
      SetSumInsert(s, f, g, p);
    }
  }

  /** An upsert for one user leaves every other user's unit count and price as they were. */
  lemma UpsertLeavesOtherUsers(rows: map<Key, CartRow>, products: map<ProductId, Product>, user: UserId, p: ProductId,
                               quantity: int, newId: string, now: int, other: UserId)
    requires other != user
    ensures UserQuantity(Upsert(rows, (user, p), quantity, newId, now), other) == UserQuantity(rows, other)
    ensures UserValue(Upsert(rows, (user, p), quantity, newId, now), products, other) == UserValue(rows, products, other)
  {
    var after := Upsert(rows, (user, p), quantity, newId, now);
    assert OwnedBy(after, other) == OwnedBy(rows, other);
    SetSumAgree(OwnedBy(rows, other), QuantityOf(rows, other), QuantityOf(after, other));
    SetSumAgree(OwnedBy(rows, other), ValueOf(rows, products, other), ValueOf(after, products, other));
  }

  /** POST /api/cart */
  method Post(db: Db, session: Option<Session>, body: PostBody, fault: Fault, newId: string, now: int)
    returns (r: Response<CartBody>)
    requires db.Valid()
    modifies db
    ensures db.Valid()
    ensures db.products == old(db.products) && db.wishlistItems == old(db.wishlistItems)
    ensures fault == SessionThrows ==> r == Response(500, Error("Failed to add to cart"))
    ensures fault != SessionThrows && !SignedIn(session) ==> r == Response(401, Error("Unauthorized"))
    ensures fault != SessionThrows && SignedIn(session) && fault == BodyThrows ==>
                  r == Response(500, Error("Failed to add to cart"))
    ensures fault != SessionThrows && fault != BodyThrows && SignedIn(session) && !Truthy(body.productId) ==>
                  r == Response(400, Error("Product ID required"))
    ensures fault == DatabaseThrows && SignedIn(session) && Truthy(body.productId) ==>
                  r == Response(500, Error("Failed to add to cart"))
    ensures fault == NoFault && SignedIn(session) && Truthy(body.productId) && body.productId.value !in db.products ==>
                  r == Response(404, Error("Product not found"))
    ensures r.status == 200 <==>
              fault == NoFault && SignedIn(session) && Truthy(body.productId) && body.productId.value in db.products
    ensures r.status == 200 ==>
              && db.cartItems == Upsert(old(db.cartItems), (UserIdOf(session), body.productId.value),
                                        RequestedQuantity(body), newId, now)
              && r.body == Added(Joined(db.cartItems, db.products, UserIdOf(session), body.productId.value))
    ensures r.status != 200 ==> db.cartItems == old(db.cartItems)
  {
    if fault == SessionThrows {
      return Response(500, Error("Failed to add to cart"));
    }
    if !SignedIn(session) {
      return Response(401, Error("Unauthorized"));
    }
    if fault == BodyThrows {
      return Response(500, Error("Failed to add to cart"));
    }
    if !Truthy(body.productId) {
      return Response(400, Error("Product ID required"));
    }
    if fault == DatabaseThrows {
      return Response(500, Error("Failed to add to cart"));
    }
    var user, productId := UserIdOf(session), body.productId.value;
    if productId !in db.products {
      return Response(404, Error("Product not found"));
    }
    db.cartItems := Upsert(db.cartItems, (user, productId), RequestedQuantity(body), newId, now);
    r := Response(200, Added(Joined(db.cartItems, db.products, user, productId)));
  }

  /**
   * The seeded regular product (160 dollars, no sale price) added once and then
   * twice more to a cart that is empty: one row of quantity 3, 3 units, 480 dollars.
   */
  lemma RepeatedAddIncrements(rows: map<Key, CartRow>, products: map<ProductId, Product>, user: UserId, p: ProductId,
                              id1: string, t1: int, id2: string, t2: int)
    requires p in products && products[p].price == 16000 && products[p].salePrice == None
    requires OwnedBy(rows, user) == {}
    ensures var after := Upsert(Upsert(rows, (user, p), 1, id1, t1), (user, p), 2, id2, t2);
            && OwnedBy(after, user) == {p}
            && after[(user, p)].quantity == 3 && after[(user, p)].id == id1
            && UserQuantity(after, user) == 3
            && UserValue(after, products, user) == 48000
  {
    var once := Upsert(rows, (user, p), 1, id1, t1);
    assert UserQuantity(rows, user) == 0 && UserValue(rows, products, user) == 0;
    UpsertAddsQuantity(rows, user, p, 1, id1, t1);
    UpsertAddsValue(rows, products, user, p, 1, id1, t1);
    UpsertAddsQuantity(once, user, p, 2, id2, t2);
    UpsertAddsValue(once, products, user, p, 2, id2, t2);
  }

  /** One unit of the seeded sale product (1160 dollars, on sale at 960) adds 960 dollars, not 1160. */
  lemma SaleUnitCountsAtSalePrice(rows: map<Key, CartRow>, products: map<ProductId, Product>, user: UserId, p: ProductId,
                                  newId: string, now: int)
    requires p in products && products[p].price == 116000 && products[p].salePrice == Some(96000)
    ensures UserValue(Upsert(rows, (user, p), 1, newId, now), products, user) == UserValue(rows, products, user) + 96000
  {
    UpsertAddsValue(rows, products, user, p, 1, newId, now);
  }
}
