/**
 * The `useWishlist` hook (joanie-store/src/hooks/useWishlist.ts): the list of
 * product ids the browser believes are on the caller's wishlist. A toggle
 * flips the id in the list before asking the server, and undoes the flip if the
 * server refuses or the request fails.
 *
 * Each call is one atomic step; `fetch` is replaced by the reply it would
 * yield, and each method returns the requests it sends.
 */
module UseWishlist {
  import opened Store
  import opened Database
  import WishlistRoute

  datatype Request = GetWishlistIds | PostWishlist(productId: ProductId)

  /** What `fetch('/api/wishlist/ids')` yields. */
  datatype IdsReply = IdsOk(productIds: seq<ProductId>) | IdsNotOk | IdsThrew

  /**
   * What `fetch('/api/wishlist', { method: 'POST' })` yields: an ok reply, a
   * non-ok reply whose body carries `error` (absent if the body has none), a
   * non-ok reply whose body does not parse, or a thrown error.
   */
  datatype ToggleReply = ToggleOk | ToggleNotOk(error: Option<string>) | ToggleNotOkUnparsable | ToggleThrew

  /** `{ success: true }` or `{ success: false, error }` */
  datatype Outcome = Success | Failure(error: Option<string>)

  /** `ids.filter(x => x !== id)` */
  function Without(ids: seq<ProductId>, id: ProductId): (r: seq<ProductId>)
    ensures forall x :: x in r <==> x in ids && x != id
    ensures |r| <= |ids|
    decreases |ids|
  {
    if ids == [] then []
    else if ids[0] == id then Without(ids[1..], id)
    else [ids[0]] + Without(ids[1..], id)
  }

  /** Filtering a concatenation filters each part: the kept ids stay in their order. */
  lemma {:induction false} WithoutAppend(a: seq<ProductId>, b: seq<ProductId>, id: ProductId)
    ensures Without(a + b, id) == Without(a, id) + Without(b, id)
    decreases |a|
  {
    if a != [] {
      assert (a + b)[1..] == a[1..] + b;
      WithoutAppend(a[1..], b, id);
    } else {
      assert a + b == b;
    }
  }

  /** Filtering out an absent id changes nothing. */
  lemma {:induction false} WithoutAbsent(ids: seq<ProductId>, id: ProductId)
    requires id !in ids
    ensures Without(ids, id) == ids
    decreases |ids|
  {
    if ids != [] {
      WithoutAbsent(ids[1..], id);
      assert [ids[0]] + ids[1..] == ids;
    }
  }

  /** Filtering twice is filtering once. */
  lemma WithoutIdempotent(ids: seq<ProductId>, id: ProductId)
    ensures Without(Without(ids, id), id) == Without(ids, id)
  {
    WithoutAbsent(Without(ids, id), id);
  }

  /** The optimistic step: drop every copy of `id` if it was listed, else append it. */
  function Flip(ids: seq<ProductId>, id: ProductId, wasWishlisted: bool): (r: seq<ProductId>)
    ensures id in r <==> !wasWishlisted
    ensures forall x :: x != id ==> (x in r <==> x in ids)
  {
    if wasWishlisted then Without(ids, id) else ids + [id]
  }

  /** The revert: append `id` if it was listed, else drop every copy of it. */
  function Revert(ids: seq<ProductId>, id: ProductId, wasWishlisted: bool): (r: seq<ProductId>)
    ensures id in r <==> wasWishlisted
    ensures forall x :: x != id ==> (x in r <==> x in ids)
  {
    if wasWishlisted then ids + [id] else Without(ids, id)
  }

  /**
   * One revert undoes one flip as far as membership goes. An id that was not
   * listed leaves the list exactly as it was; an id that was listed comes back
   * once, at the end, whatever its old position and however many copies it had.
   */
  lemma RevertUndoesFlip(ids: seq<ProductId>, id: ProductId)
    ensures forall x :: x in Revert(Flip(ids, id, id in ids), id, id in ids) <==> x in ids
    ensures id !in ids ==> Revert(Flip(ids, id, false), id, false) == ids
    ensures id in ids ==> Revert(Flip(ids, id, true), id, true) == Without(ids, id) + [id]
  {
    if id !in ids {
      WithoutAppend(ids, [id], id);
      WithoutAbsent(ids, id);
      assert Without([id], id) == [];
    }
  }

  /**
   * The revert applied twice (a non-ok reply whose body does not parse): an id
   * that was listed ends up listed twice at the end; an id that was not listed
   * is gone as it should be.
   */
  lemma DoubleRevert(ids: seq<ProductId>, id: ProductId)
    ensures id in ids ==>
              Revert(Revert(Flip(ids, id, true), id, true), id, true) == Without(ids, id) + [id, id]
    ensures id !in ids ==>
              Revert(Revert(Flip(ids, id, false), id, false), id, false) == ids
  {
    if id in ids {
      assert Without(ids, id) + [id] + [id] == Without(ids, id) + [id, id];
    } else {
      RevertUndoesFlip(ids, id);
      WithoutAbsent(ids, id);
    }
  }

  /** Two successful toggles of the same id restore its membership and everyone else's. */
  lemma FlipTwice(ids: seq<ProductId>, id: ProductId)
    ensures var once := Flip(ids, id, id in ids);
            forall x :: x in Flip(once, id, id in once) <==> x in ids
  {
  }

  /** The browser's list agrees with the server's rows for `user`. */
  ghost predicate InSync(ids: seq<ProductId>, rows: map<Key, WishlistRow>, user: UserId) {
    forall p :: p in ids <==> (user, p) in rows
  }

  /** The optimistic flip makes the same move as the server's toggle, so agreement survives a successful toggle. */
  lemma FlipMatchesToggle(ids: seq<ProductId>, rows: map<Key, WishlistRow>, user: UserId, id: ProductId,
                          newId: string, now: int)
    requires InSync(ids, rows, user)
    ensures InSync(Flip(ids, id, id in ids), WishlistRoute.Toggle(rows, (user, id), newId, now), user)
  {
    var after := WishlistRoute.Toggle(rows, (user, id), newId, now);
    forall p ensures p in Flip(ids, id, id in ids) <==> (user, p) in after {
      if p != id {
        assert (user, p) != (user, id);
      }
    }
  }

  /** `res.ok` and `res.json()` of a reply of POST /api/wishlist (the route always answers JSON). */
  function ToggleReplyOf(r: Response<WishlistRoute.WishlistBody>): (reply: ToggleReply)
    ensures reply.ToggleOk? <==> 200 <= r.status < 300
    ensures !reply.ToggleOk? ==> reply.ToggleNotOk?
    ensures reply.ToggleNotOk? && r.body.Error? ==> reply.error == Some(r.body.error)
  {
    if 200 <= r.status < 300 then ToggleOk
    else ToggleNotOk(if r.body.Error? then Some(r.body.error) else None)
  }

  class WishlistHook {
    var wishlistedIds: seq<ProductId>

    /** `useState<string[]>([])` */
    constructor ()
      ensures wishlistedIds == []
    {
      wishlistedIds := [];
    }

    /** `isWishlisted(id)` */
    predicate IsWishlisted(id: ProductId)
      reads this
      ensures IsWishlisted(id) <==> exists i :: 0 <= i < |wishlistedIds| && wishlistedIds[i] == id
    {
      id in wishlistedIds
    }

    /**
     * The effect that runs whenever the signed-in user changes: ask for the
     * ids (with no session check of its own) and take them if the reply is ok.
     */
    method Reload(reply: IdsReply) returns (sent: seq<Request>)
      modifies this
      ensures sent == [GetWishlistIds]
      ensures reply.IdsOk? ==> wishlistedIds == reply.productIds
      ensures !reply.IdsOk? ==> wishlistedIds == old(wishlistedIds)
    {
      sent := [GetWishlistIds];
      if reply.IdsOk? {
        wishlistedIds := reply.productIds;
      }
    }

    /**
     * `toggleWishlist(productId)`: refused without a signed-in user; otherwise
     * flip, POST, and keep the flip on an ok reply. A non-ok reply reverts and
     * hands back the server's error. If that reply's body does not parse, the
     * error handler reverts a second time and hands back "Failed to update
     * wishlist", as does a thrown request after its single revert.
     */
    method ToggleWishlist(session: Option<Session>, productId: ProductId, reply: ToggleReply)
      returns (outcome: Outcome, sent: seq<Request>)
      modifies this
      ensures !SignedIn(session) ==>
                && outcome == Failure(Some("Please sign in to save items"))
                && sent == []
                && wishlistedIds == old(wishlistedIds)
      ensures SignedIn(session) ==>
                var was := productId in old(wishlistedIds);
                var flipped := Flip(old(wishlistedIds), productId, was);
                && sent == [PostWishlist(productId)]
                && (reply.ToggleOk? ==> outcome == Success && wishlistedIds == flipped)
                && (reply.ToggleNotOk? ==>
                      outcome == Failure(reply.error) && wishlistedIds == Revert(flipped, productId, was))
                && (reply.ToggleNotOkUnparsable? ==>
                      && outcome == Failure(Some("Failed to update wishlist"))
                      && wishlistedIds == Revert(Revert(flipped, productId, was), productId, was))
                && (reply.ToggleThrew? ==>
                      outcome == Failure(Some("Failed to update wishlist")) && wishlistedIds == Revert(flipped, productId, was))
      ensures SignedIn(session) ==> (IsWishlisted(productId) <==> old(IsWishlisted(productId)) != reply.ToggleOk?)
    {
      if !SignedIn(session) {
        return Failure(Some("Please sign in to save items")), [];
      }
      var wasWishlisted := productId in wishlistedIds;
      wishlistedIds := Flip(wishlistedIds, productId, wasWishlisted);
      sent := [PostWishlist(productId)];
      match reply {
        case ToggleOk =>
          outcome := Success;
        case ToggleNotOk(error) =>
          wishlistedIds := Revert(wishlistedIds, productId, wasWishlisted);
          outcome := Failure(error);
        case ToggleNotOkUnparsable =>
          wishlistedIds := Revert(wishlistedIds, productId, wasWishlisted);
          wishlistedIds := Revert(wishlistedIds, productId, wasWishlisted);
          outcome := Failure(Some("Failed to update wishlist"));
        case ToggleThrew =>
          wishlistedIds := Revert(wishlistedIds, productId, wasWishlisted);
          outcome := Failure(Some("Failed to update wishlist"));
      }
    }
  }

  /**
   * The hook and the wishlist route together: if the browser's list agreed with
   * the server before a toggle, it still agrees afterwards, whether the server
   * toggled (the flip made the same move) or refused (the revert undid the flip
   * and the server changed nothing).
   */
  method ToggleThroughServer(hook: WishlistHook, db: Db, session: Option<Session>, productId: ProductId,
                             fault: Fault, newId: string, now: int)
    returns (outcome: Outcome)
    requires db.Valid()
    requires SignedIn(session) ==> InSync(hook.wishlistedIds, db.wishlistItems, UserIdOf(session))
    modifies hook, db
    ensures db.Valid()
    ensures SignedIn(session) ==> InSync(hook.wishlistedIds, db.wishlistItems, UserIdOf(session))
    ensures outcome.Success? <==>
              fault == NoFault && SignedIn(session) && productId != "" && productId in db.products
    ensures !SignedIn(session) ==> outcome == Failure(Some("Please sign in to save items"))
  {
    var sent;
    if !SignedIn(session) {
      outcome, sent := hook.ToggleWishlist(session, productId, ToggleThrew);
      return;
    }
    var user := UserIdOf(session);
    var ids := hook.wishlistedIds;
    var rows := db.wishlistItems;
    var r := WishlistRoute.Post(db, session, WishlistRoute.PostBody(Some(productId)), fault, newId, now);
    outcome, sent := hook.ToggleWishlist(session, productId, ToggleReplyOf(r));
    if r.status == 200 {
      FlipMatchesToggle(ids, rows, user, productId, newId, now);
    } else {
      RevertUndoesFlip(ids, productId);
    }
  }
}
