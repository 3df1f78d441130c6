/**
 * `/api/wishlist` (joanie-store/src/app/api/wishlist/route.ts): GET lists the
 * caller's wishlist, POST toggles one product in or out of it. The client
 * never says which way: the server deletes the row if it exists and creates
 * it otherwise.
 */
module WishlistRoute {
  import opened Store
  import opened Database

  datatype Action = Added | Removed

  datatype WishlistBody =
    | Items(items: seq<WishlistItem>)
    | Toggled(action: Action, isWishlisted: bool, item: Option<WishlistItem>)
    | Error(error: string)

  /** The JSON body of a POST: `{ productId }`, possibly absent. */
  datatype PostBody = PostBody(productId: Option<ProductId>)

  /** One stored row joined with its product (`include: { product: true }`). */
  function Joined(rows: map<Key, WishlistRow>, products: map<ProductId, Product>, user: UserId, p: ProductId): (item: WishlistItem)
    requires (user, p) in rows && p in products
    ensures item.userId == user && item.productId == p && item.product == products[p]
    ensures item.id == rows[(user, p)].id && item.createdAt == rows[(user, p)].createdAt
  {
    var row := rows[(user, p)];
    WishlistItem(row.id, p, products[p], user, row.createdAt)
  }

  /** The joined rows of `ps`, in the order of `ps`. */
  function JoinAll(rows: map<Key, WishlistRow>, products: map<ProductId, Product>, user: UserId, ps: seq<ProductId>): (items: seq<WishlistItem>)
    requires forall p :: p in ps ==> (user, p) in rows && p in products
    ensures |items| == |ps|
    ensures forall i :: 0 <= i < |ps| ==> items[i] == Joined(rows, products, user, ps[i])
    decreases |ps|
  {
    if ps == [] then []
    else JoinAll(rows, products, user, ps[..|ps| - 1]) + [Joined(rows, products, user, ps[|ps| - 1])]
  }

  /** `items` is the user's wishlist: one joined entry per row the user owns, and nothing else. */
  ghost predicate IsUserWishlist(items: seq<WishlistItem>, rows: map<Key, WishlistRow>, products: map<ProductId, Product>, user: UserId) {
    && (forall i :: 0 <= i < |items| ==>
          (user, items[i].productId) in rows && items[i].productId in products
          && items[i] == Joined(rows, products, user, items[i].productId))
    && (forall p :: (user, p) in rows ==> exists i :: 0 <= i < |items| && items[i].productId == p)
    && (forall i, j :: 0 <= i < j < |items| ==> items[i].productId != items[j].productId)
  }

  /** `orderBy: { createdAt: 'desc' }` */
  ghost predicate NewestFirst(items: seq<WishlistItem>) {
    forall i, j :: 0 <= i < j < |items| ==> items[i].createdAt >= items[j].createdAt
  }

  /** The joined rows of a newest-first listing of the user's products are the user's wishlist, newest first. */
  lemma ListingIsUserWishlist(rows: map<Key, WishlistRow>, products: map<ProductId, Product>, user: UserId, ps: seq<ProductId>)
    requires forall k :: k in rows ==> k.1 in products
    requires NoDuplicates(ps)
    requires forall p :: p in ps <==> (user, p) in rows
    requires forall i, j :: 0 <= i < j < |ps| ==> rows[(user, ps[i])].createdAt >= rows[(user, ps[j])].createdAt
    ensures IsUserWishlist(JoinAll(rows, products, user, ps), rows, products, user)
    ensures NewestFirst(JoinAll(rows, products, user, ps))
  {
    var items := JoinAll(rows, products, user, ps);
    forall i | 0 <= i < |items|
      ensures (user, items[i].productId) in rows && items[i].productId in products
      ensures items[i] == Joined(rows, products, user, items[i].productId)
    {
      assert items[i] == Joined(rows, products, user, ps[i]);
    }
    forall p | (user, p) in rows
      ensures exists i :: 0 <= i < |items| && items[i].productId == p
    {
      var i :| 0 <= i < |ps| && ps[i] == p;
      assert items[i].productId == p;
    }
    forall i, j | 0 <= i < j < |items| ensures items[i].productId != items[j].productId {
      assert items[i].productId == ps[i] && items[j].productId == ps[j];
    }
    forall i, j | 0 <= i < j < |items| ensures items[i].createdAt >= items[j].createdAt {
      assert items[i].createdAt == rows[(user, ps[i])].createdAt;
      assert items[j].createdAt == rows[(user, ps[j])].createdAt;
    }
  }

  /** GET /api/wishlist */
  method Get(db: Db, session: Option<Session>, fault: Fault) returns (r: Response<WishlistBody>)
    requires db.Valid()
    ensures fault == SessionThrows ==> r == Response(500, Error("Failed to fetch wishlist"))
    ensures fault != SessionThrows && !SignedIn(session) ==> r == Response(401, Error("Unauthorized"))
    ensures fault != SessionThrows && SignedIn(session) && fault == DatabaseThrows ==>
              r == Response(500, Error("Failed to fetch wishlist"))
    ensures r.status == 200 <==> fault != SessionThrows && fault != DatabaseThrows && SignedIn(session)
    ensures r.status == 200 ==>
              && r.body.Items?
              && IsUserWishlist(r.body.items, db.wishlistItems, db.products, UserIdOf(session))
              && NewestFirst(r.body.items)
  {
    if fault == SessionThrows {
      return Response(500, Error("Failed to fetch wishlist"));
    }
    if !SignedIn(session) {
      return Response(401, Error("Unauthorized"));
    }
    if fault == DatabaseThrows {
      return Response(500, Error("Failed to fetch wishlist"));
    }
    var user := UserIdOf(session);
    var ps := ListNewestFirst(db.wishlistItems, user, (row: WishlistRow) => row.createdAt);
    ListingIsUserWishlist(db.wishlistItems, db.products, user, ps);
    r := Response(200, Items(JoinAll(db.wishlistItems, db.products, user, ps)));
  }

  /**
   * The toggle: delete the (user, product) row if it exists, otherwise create
   * it. Membership of that one pair flips; every other row stays as it was.
   */
  function Toggle(rows: map<Key, WishlistRow>, key: Key, newId: string, now: int): (r: map<Key, WishlistRow>)
    ensures key in r <==> key !in rows
    ensures key !in rows ==> r[key] == WishlistRow(newId, now)
    ensures forall k :: k != key ==> (k in r <==> k in rows)
    ensures forall k :: k != key && k in rows ==> r[k] == rows[k]
  {
    if key in rows then rows - {key} else rows[key := WishlistRow(newId, now)]
  }

  /**
   * Two toggles of the same pair restore its membership. A pair that was absent
   * is restored exactly; a pair that was present comes back as a new row, with
   * the id and creation time of the second toggle.
   */
  lemma ToggleTwice(rows: map<Key, WishlistRow>, key: Key, id1: string, t1: int, id2: string, t2: int)
    ensures Toggle(Toggle(rows, key, id1, t1), key, id2, t2).Keys == rows.Keys
    ensures key !in rows ==> Toggle(Toggle(rows, key, id1, t1), key, id2, t2) == rows
    ensures key in rows ==> Toggle(Toggle(rows, key, id1, t1), key, id2, t2) == rows[key := WishlistRow(id2, t2)]
  {
    var twice := Toggle(Toggle(rows, key, id1, t1), key, id2, t2);
    assert twice.Keys == rows.Keys;
    if key !in rows {
      assert forall k :: k in rows ==> twice[k] == rows[k];
    }
  }

  /** POST /api/wishlist */
  method Post(db: Db, session: Option<Session>, body: PostBody, fault: Fault, newId: string, now: int)
    returns (r: Response<WishlistBody>)
    requires db.Valid()
    modifies db
    ensures db.Valid()
    ensures db.products == old(db.products) && db.cartItems == old(db.cartItems)
    ensures fault == SessionThrows ==> r == Response(500, Error("Failed to update wishlist"))
    ensures fault != SessionThrows && !SignedIn(session) ==> r == Response(401, Error("Unauthorized"))
    ensures fault != SessionThrows && SignedIn(session) && fault == BodyThrows ==>
              r == Response(500, Error("Failed to update wishlist"))
    ensures fault != SessionThrows && fault != BodyThrows && SignedIn(session) && !Truthy(body.productId) ==>
              r == Response(400, Error("Product ID required"))
    ensures fault == DatabaseThrows && SignedIn(session) && Truthy(body.productId) ==>
              r == Response(500, Error("Failed to update wishlist"))
    ensures fault == NoFault && SignedIn(session) && Truthy(body.productId) && body.productId.value !in db.products ==>
              r == Response(404, Error("Product not found"))
    ensures r.status == 200 <==>
              fault == NoFault && SignedIn(session) && Truthy(body.productId) && body.productId.value in db.products
    ensures r.status == 200 ==>
              var key := (UserIdOf(session), body.productId.value);
              && db.wishlistItems == Toggle(old(db.wishlistItems), key, newId, now)
              && r.body.Toggled?
              && r.body.isWishlisted == (key in db.wishlistItems)
              && (key in old(db.wishlistItems) ==> r.body == Toggled(Removed, false, None))
              && (key !in old(db.wishlistItems) ==>
                    r.body == Toggled(Added, true, Some(Joined(db.wishlistItems, db.products, key.0, key.1))))
    ensures r.status != 200 ==> db.wishlistItems == old(db.wishlistItems)
  {
    if fault == SessionThrows {
      return Response(500, Error("Failed to update wishlist"));
    }
    if !SignedIn(session) {
      return Response(401, Error("Unauthorized"));
    }
    if fault == BodyThrows {
      return Response(500, Error("Failed to update wishlist"));
    }
    if !Truthy(body.productId) {
      return Response(400, Error("Product ID required"));
    }
    if fault == DatabaseThrows {
      return Response(500, Error("Failed to update wishlist"));
    }
    var user, productId := UserIdOf(session), body.productId.value;
    if productId !in db.products {
      return Response(404, Error("Product not found"));
    }
    var key := (user, productId);
    var existing := key in db.wishlistItems;
    db.wishlistItems := Toggle(db.wishlistItems, key, newId, now);
    if existing {
      r := Response(200, Toggled(Removed, false, None));
    } else {
      r := Response(200, Toggled(Added, true, Some(Joined(db.wishlistItems, db.products, user, productId))));
    }
  }
}
