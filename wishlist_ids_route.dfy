/**
 * `/api/wishlist/ids` (joanie-store/src/app/api/wishlist/ids/route.ts): the
 * product ids on the caller's wishlist, so that product cards can fill their
 * hearts. It never fails: an anonymous caller and a thrown error both get an
 * empty list.
 */
module WishlistIdsRoute {
  import opened Store
  import opened Database

  /** GET /api/wishlist/ids */
  method Get(db: Db, session: Option<Session>, fault: Fault) returns (r: Response<seq<ProductId>>)
    ensures r.status == 200
    ensures fault == SessionThrows || !SignedIn(session) || fault == DatabaseThrows ==> r.body == []
    ensures fault != SessionThrows && fault != DatabaseThrows && SignedIn(session) ==>
              && NoDuplicates(r.body)
              && forall p :: p in r.body <==> (UserIdOf(session), p) in db.wishlistItems
  {
    if fault == SessionThrows || !SignedIn(session) || fault == DatabaseThrows {
      return Response(200, []);
    }
    var productIds := ListOwned(db.wishlistItems, UserIdOf(session));
    r := Response(200, productIds);
  }
}
