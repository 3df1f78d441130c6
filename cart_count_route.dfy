/**
 * `/api/cart/count` (joanie-store/src/app/api/cart/count/route.ts): the number
 * of units in the caller's cart, for the header badge. It never fails: an
 * anonymous caller and a thrown error both get a count of zero.
 */
module CartCountRoute {
  import opened Store
  import opened Database
  import CartRoute

  /** The quantities of the user's rows, in the order of `ps` (`select: { quantity: true }`). */
  function Quantities(rows: map<Key, CartRow>, user: UserId, ps: seq<ProductId>): (qs: seq<int>)
    requires forall p :: p in ps ==> (user, p) in rows
    ensures |qs| == |ps|
    ensures forall i :: 0 <= i < |ps| ==> qs[i] == rows[(user, ps[i])].quantity
    decreases |ps|
  {
    if ps == [] then []
    else Quantities(rows, user, ps[..|ps| - 1]) + [rows[(user, ps[|ps| - 1])].quantity]
  }

  /** `items.reduce((sum, item) => sum + item.quantity, 0)` */
  function Sum(qs: seq<int>): (s: int)
    ensures (forall i :: 0 <= i < |qs| ==> qs[i] >= 0) ==> s >= 0
    ensures |qs| == 1 ==> s == qs[0]
  {
    if qs == [] then 0 else Sum(qs[..|qs| - 1]) + qs[|qs| - 1]
  }

  /** Summing the quantities of distinct products gives the user's unit count over those products. */
  lemma {:induction false} SumQuantities(rows: map<Key, CartRow>, user: UserId, ps: seq<ProductId>)
    requires NoDuplicates(ps)
    requires forall p :: p in ps ==> (user, p) in rows
    ensures Sum(Quantities(rows, user, ps)) == SetSum(Elements(ps), CartRoute.QuantityOf(rows, user))
    decreases |ps|
  {
    if ps != [] {
      var init, p := ps[..|ps| - 1], ps[|ps| - 1];
      var qs := Quantities(rows, user, ps);
      var f := CartRoute.QuantityOf(rows, user);
      SumQuantities(rows, user, init);
      assert qs[..|qs| - 1] == Quantities(rows, user, init);
      assert qs[|qs| - 1] == f(p);
      assert Sum(qs) == Sum(qs[..|qs| - 1]) + qs[|qs| - 1];
      assert Elements(ps) == Elements(init) + {p};
      assert p !in Elements(init);
      SetSumInsert(Elements(init), f, f, p);
    }
  }

  /** GET /api/cart/count */
  method Get(db: Db, session: Option<Session>, fault: Fault) returns (r: Response<int>)
    ensures r.status == 200
    ensures fault == SessionThrows || !SignedIn(session) || fault == DatabaseThrows ==> r.body == 0
    ensures fault != SessionThrows && fault != DatabaseThrows && SignedIn(session) ==>
              r.body == CartRoute.UserQuantity(db.cartItems, UserIdOf(session))
  {
    if fault == SessionThrows || !SignedIn(session) || fault == DatabaseThrows {
      return Response(200, 0);
    }
    var user := UserIdOf(session);
    var ps := ListOwned(db.cartItems, user);
    var count := Sum(Quantities(db.cartItems, user, ps));
    SumQuantities(db.cartItems, user, ps);
    assert Elements(ps) == OwnedBy(db.cartItems, user);
    r := Response(200, count);
  }

  /**
   * For the same caller and the same store, the badge count and the cart
   * listing's `totalItems` agree; an anonymous caller sees 0 on the badge and
   * a 401 from the listing.
   */
  method CountMatchesCartTotal(db: Db, session: Option<Session>)
    returns (count: Response<int>, cart: Response<CartRoute.CartBody>)
    requires db.Valid()
    ensures count.status == 200
    ensures cart.status == 200 ==> cart.body.Listing? && count.body == cart.body.totalItems
    ensures cart.status == 401 <==> count.body == 0 && !SignedIn(session)
  {
    count := Get(db, session, NoFault);
    cart := CartRoute.Get(db, session, NoFault);
  }
}
