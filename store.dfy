/**
 * The storefront's records (joanie-store/src/types/index.ts) and the small
 * vocabulary every route and hook shares: sessions, JavaScript truthiness,
 * HTTP-shaped responses and the point at which a handler throws.
 *
 * Money is held in integer cents, timestamps in integer milliseconds and the
 * rating as a real number.
 */
module Store {

  datatype Option<+T> = None | Some(value: T)

  type UserId = string
  type ProductId = string

  datatype Category = NewArrivals | Trending

  datatype Product = Product(
    id: ProductId,
    name: string,
    price: int,
    salePrice: Option<int>,
    image: string,
    rating: real,
    reviewCount: int,
    category: Category,
    isOnSale: bool,
    createdAt: int,
    updatedAt: int)

  /** A cart row joined with its product, as the cart routes return it. */
  datatype CartItem = CartItem(
    id: string,
    productId: ProductId,
    product: Product,
    quantity: int,
    userId: UserId,
    createdAt: int,
    updatedAt: int)

  /** A wishlist row joined with its product. */
  datatype WishlistItem = WishlistItem(
    id: string,
    productId: ProductId,
    product: Product,
    userId: UserId,
    createdAt: int)

  datatype User = User(id: UserId, email: string, name: Option<string>, image: Option<string>)

  /** The user part of a next-auth session; every field may be missing. */
  datatype SessionUser = SessionUser(
    id: Option<string>,
    name: Option<string>,
    email: Option<string>,
    image: Option<string>)

  datatype Session = Session(user: Option<SessionUser>)

  /** JavaScript truthiness of an optional string: neither missing nor empty. */
  predicate Truthy(s: Option<string>) {
    s.Some? && s.value != ""
  }

  /** JavaScript truthiness of an optional number: neither missing nor zero. */
  predicate TruthyNumber(n: Option<int>) {
    n.Some? && n.value != 0
  }

  /** `session?.user?.id` is truthy: the guard of every route and of `fetchCart`, `addToCart` and `toggleWishlist`. */
  predicate SignedIn(session: Option<Session>)
    ensures SignedIn(session) ==> session.Some? && session.value.user.Some? && session.value.user.value.id.Some?
  {
    session.Some? && session.value.user.Some? && Truthy(session.value.user.value.id)
  }

  function UserIdOf(session: Option<Session>): (u: UserId)
    requires SignedIn(session)
    ensures u != ""
  {
    session.value.user.value.id.value
  }

  /** A JSON reply: its HTTP status and its decoded body. */
  datatype Response<T> = Response(status: int, body: T)

  /**
   * The first awaited call of a route handler that throws, if any. A handler
   * answers 500 only when it reaches that call: a request refused earlier
   * (401, 400, 404) never sees the fault.
   */
  datatype Fault = NoFault | SessionThrows | BodyThrows | DatabaseThrows

  /** `forall i < j: s[i] != s[j]` */
  predicate NoDuplicates<T(==)>(s: seq<T>) {
    forall i, j :: 0 <= i < j < |s| ==> s[i] != s[j]
  }
}
