/**
 * The `useCart` hook (joanie-store/src/hooks/useCart.ts): the browser's copy of
 * the caller's cart. It holds the last listing the server sent and re-fetches
 * it after every mutation the server accepts.
 *
 * Each call is one atomic step. `fetch` is replaced by the reply it would
 * yield, passed in as a parameter, and each method returns the requests it
 * sends, in order.
 */
module UseCart {
  import opened Store
  import opened Database
  import CartRoute

  datatype Request =
    | GetCart
    | PostCart(productId: ProductId, quantity: int)
    | DeleteCartItem(itemId: string)
    | PatchCartItem(itemId: string, quantity: int)

  /** What `fetch('/api/cart')` yields: an ok listing, a non-ok status, or a thrown error. */
  datatype CartReply = CartOk(items: seq<CartItem>, totalItems: int, totalPrice: int) | CartNotOk | CartThrew

  /**
   * What a mutating request yields: an ok reply carrying the `item` field of
   * its body, a non-ok reply carrying the `error` field (absent if the body has
   * none), or a thrown error (network failure or an unparsable body).
   */
  datatype MutationReply = MutationOk(item: Option<CartItem>) | MutationNotOk(error: Option<string>) | MutationThrew

  /** `{ success: true, item }` or `{ success: false, error }` */
  datatype Outcome = Success(item: Option<CartItem>) | Failure(error: Option<string>)

  /** The hook's three state fields taken together. */
  datatype CartView = CartView(items: seq<CartItem>, totalItems: int, totalPrice: int)

  /** The view a signed-in `fetchCart` leaves: the server's listing if ok, the old view otherwise. */
  function AfterFetch(v: CartView, reply: CartReply): (w: CartView)
    ensures reply.CartOk? ==> w.items == reply.items
    ensures reply.CartOk? ==> w.totalItems == reply.totalItems && w.totalPrice == reply.totalPrice
    ensures !reply.CartOk? ==> w == v
    ensures Consistent(v) && (reply.CartOk? ==>
              CartRoute.Fold(reply.items) == CartRoute.Totals(reply.totalItems, reply.totalPrice)) ==>
            Consistent(w)
  {
    if reply.CartOk? then CartView(reply.items, reply.totalItems, reply.totalPrice) else v
  }

  /** The view's totals are the totals of its own items. */
  predicate Consistent(v: CartView) {
    CartRoute.Fold(v.items) == CartRoute.Totals(v.totalItems, v.totalPrice)
  }

  /** `res.ok` and `res.json()` of a reply of GET /api/cart. */
  function CartReplyOf(r: Response<CartRoute.CartBody>): (reply: CartReply)
    ensures reply.CartOk? <==> 200 <= r.status < 300 && r.body.Listing?
    ensures reply.CartOk? ==> reply == CartOk(r.body.items, r.body.totalItems, r.body.totalPrice)
  {
    if 200 <= r.status < 300 && r.body.Listing? then CartOk(r.body.items, r.body.totalItems, r.body.totalPrice)
    else CartNotOk
  }

  /** `res.ok` and `res.json()` of a reply of POST /api/cart. */
  function MutationReplyOf(r: Response<CartRoute.CartBody>): (reply: MutationReply)
    ensures reply.MutationOk? <==> 200 <= r.status < 300
    ensures reply.MutationOk? && r.body.Added? ==> reply.item == Some(r.body.item)
    ensures reply.MutationNotOk? && r.body.Error? ==> reply.error == Some(r.body.error)
  {
    if 200 <= r.status < 300 then MutationOk(if r.body.Added? then Some(r.body.item) else None)
    else MutationNotOk(if r.body.Error? then Some(r.body.error) else None)
  }

  /**
   * The quantity `addToCart` sends: its argument, 1 when the caller gives
   * none, which is the server's own default, so the server adds what the
   * hook sends.
   */
  function SentQuantity(quantity: Option<int>): (q: int)
    ensures q == CartRoute.RequestedQuantity(CartRoute.PostBody(None, quantity))
  {
    if quantity.Some? then quantity.value else 1
  }

  class CartHook {
    var items: seq<CartItem>
    var totalItems: int
    var totalPrice: int

    function View(): CartView
      reads this
    {
      CartView(items, totalItems, totalPrice)
    }

    /** `useState([])`, `useState(0)`, `useState(0)` */
    constructor ()
      ensures View() == CartView([], 0, 0)
      ensures Consistent(View())
    {
      items, totalItems, totalPrice := [], 0, 0;
    }

    /**
     * `fetchCart`: without a signed-in user, clear everything and ask nothing;
     * otherwise ask for the listing and copy it verbatim if the reply is ok. A
     * non-ok reply or a thrown error leaves the view as it was (the error
     * propagates to the caller, which is not modelled here).
     */
    method FetchCart(session: Option<Session>, reply: CartReply) returns (sent: seq<Request>)
      modifies this
      ensures !SignedIn(session) ==> sent == [] && View() == CartView([], 0, 0)
      ensures SignedIn(session) ==> sent == [GetCart] && View() == AfterFetch(old(View()), reply)
    {
      if !SignedIn(session) {
        items, totalItems, totalPrice := [], 0, 0;
        return [];
      }
      sent := [GetCart];
      if reply.CartOk? {
        items, totalItems, totalPrice := reply.items, reply.totalItems, reply.totalPrice;
      }
    }

    /**
     * `addToCart(productId, quantity = 1)`: refused without a signed-in user;
     * otherwise POST the product and quantity. A non-ok reply hands back the
     * server's error without re-fetching; an ok reply re-fetches the cart
     * (`refetch` is what that fetch yields) and hands back the added item. Any
     * thrown error, including one from the re-fetch, becomes "Failed to add to
     * cart".
     */
    method AddToCart(session: Option<Session>, productId: ProductId, quantity: Option<int>,
                     reply: MutationReply, refetch: CartReply)
      returns (outcome: Outcome, sent: seq<Request>)
      modifies this
      ensures !SignedIn(session) ==>
                outcome == Failure(Some("Please sign in to add items to cart")) && sent == [] && View() == old(View())
      ensures SignedIn(session) && !reply.MutationOk? ==>
                sent == [PostCart(productId, SentQuantity(quantity))] && View() == old(View())
      ensures SignedIn(session) && reply.MutationNotOk? ==> outcome == Failure(reply.error)
      ensures SignedIn(session) && reply.MutationThrew? ==> outcome == Failure(Some("Failed to add to cart"))
      ensures SignedIn(session) && reply.MutationOk? ==>
                && sent == [PostCart(productId, SentQuantity(quantity)), GetCart]
                && View() == AfterFetch(old(View()), refetch)
                && outcome == if refetch.CartThrew? then Failure(Some("Failed to add to cart")) else Success(reply.item)
    {
      if !SignedIn(session) {
        return Failure(Some("Please sign in to add items to cart")), [];
      }
      sent := [PostCart(productId, SentQuantity(quantity))];
      match reply {
        case MutationThrew =>
          outcome := Failure(Some("Failed to add to cart"));
        case MutationNotOk(error) =>
          outcome := Failure(error);
        case MutationOk(item) =>
          var fetched := FetchCart(session, refetch);
          sent := sent + fetched;
          outcome := if refetch.CartThrew? then Failure(Some("Failed to add to cart")) else Success(item);
      }
    }

    /**
     * `removeFromCart(itemId)`: DELETE the row with no session check of its
     * own; re-fetch only if the server accepts.
     */
    method RemoveFromCart(session: Option<Session>, itemId: string, reply: MutationReply, refetch: CartReply)
      returns (outcome: Outcome, sent: seq<Request>)
      modifies this
      ensures !reply.MutationOk? ==> sent == [DeleteCartItem(itemId)] && View() == old(View())
      ensures reply.MutationNotOk? ==> outcome == Failure(reply.error)
      ensures reply.MutationThrew? ==> outcome == Failure(Some("Failed to remove from cart"))
      ensures reply.MutationOk? && SignedIn(session) ==>
                && sent == [DeleteCartItem(itemId), GetCart]
                && View() == AfterFetch(old(View()), refetch)
      ensures reply.MutationOk? && !SignedIn(session) ==>
                sent == [DeleteCartItem(itemId)] && View() == CartView([], 0, 0)
      ensures reply.MutationOk? ==>
                outcome == if SignedIn(session) && refetch.CartThrew? then Failure(Some("Failed to remove from cart"))
                           else Success(None)
    {
      sent := [DeleteCartItem(itemId)];
      match reply {
        case MutationThrew =>
          outcome := Failure(Some("Failed to remove from cart"));
        case MutationNotOk(error) =>
          outcome := Failure(error);
        case MutationOk(_) =>
          var fetched := FetchCart(session, refetch);
          sent := sent + fetched;
          outcome := if SignedIn(session) && refetch.CartThrew? then Failure(Some("Failed to remove from cart"))
                     else Success(None);
      }
    }

    /**
     * `updateQuantity(itemId, quantity)`: PATCH the row's quantity with no
     * session or range check of its own; re-fetch only if the server accepts.
     */
    method UpdateQuantity(session: Option<Session>, itemId: string, quantity: int, reply: MutationReply, refetch: CartReply)
      returns (outcome: Outcome, sent: seq<Request>)
      modifies this
      ensures !reply.MutationOk? ==> sent == [PatchCartItem(itemId, quantity)] && View() == old(View())
      ensures reply.MutationNotOk? ==> outcome == Failure(reply.error)
      ensures reply.MutationThrew? ==> outcome == Failure(Some("Failed to update quantity"))
      ensures reply.MutationOk? && SignedIn(session) ==>
                && sent == [PatchCartItem(itemId, quantity), GetCart]
                && View() == AfterFetch(old(View()), refetch)
      ensures reply.MutationOk? && !SignedIn(session) ==>
                sent == [PatchCartItem(itemId, quantity)] && View() == CartView([], 0, 0)
      ensures reply.MutationOk? ==>
                outcome == if SignedIn(session) && refetch.CartThrew? then Failure(Some("Failed to update quantity"))
                           else Success(None)
    {
      sent := [PatchCartItem(itemId, quantity)];
      match reply {
        case MutationThrew =>
          outcome := Failure(Some("Failed to update quantity"));
        case MutationNotOk(error) =>
          outcome := Failure(error);
        case MutationOk(_) =>
          var fetched := FetchCart(session, refetch);
          sent := sent + fetched;
          outcome := if SignedIn(session) && refetch.CartThrew? then Failure(Some("Failed to update quantity"))
                     else Success(None);
      }
    }
  }

  /**
   * The hook and the cart route together: `addToCart` for a signed-in user
   * posts to the server and, when the server accepts, shows afterwards exactly
   * the server's cart for that user, newest first, with the server's totals.
   * The hook succeeds exactly when the server accepts.
   */
  method AddThroughServer(hook: CartHook, db: Db, session: Option<Session>, productId: ProductId,
                          quantity: Option<int>, newId: string, now: int)
    returns (outcome: Outcome)
    requires db.Valid()
    modifies hook, db
    ensures db.Valid()
    ensures !SignedIn(session) ==> outcome == Failure(Some("Please sign in to add items to cart"))
    ensures SignedIn(session) ==> (outcome.Success? <==> productId != "" && productId in db.products)
    ensures outcome.Success? ==>
              var user := UserIdOf(session);
              && CartRoute.IsUserCart(hook.items, db.cartItems, db.products, user)
              && CartRoute.NewestFirst(hook.items)
              && hook.totalItems == CartRoute.UserQuantity(db.cartItems, user)
              && hook.totalPrice == CartRoute.UserValue(db.cartItems, db.products, user)
              && Consistent(hook.View())
    ensures outcome.Failure? ==> hook.View() == old(hook.View())
  {
    if !SignedIn(session) {
      var sent;
      outcome, sent := hook.AddToCart(session, productId, quantity, MutationThrew, CartThrew);
      return;
    }
    var body := CartRoute.PostBody(Some(productId), Some(SentQuantity(quantity)));
    var posted := CartRoute.Post(db, session, body, NoFault, newId, now);
    var listed := CartRoute.Get(db, session, NoFault);
    var sent;
    outcome, sent := hook.AddToCart(session, productId, quantity, MutationReplyOf(posted), CartReplyOf(listed));
  }
}
