/**
 * The persistence layer the routes talk to, reduced to three tables held as
 * maps. A cart or wishlist row is keyed by its (user, product) pair, so the
 * uniqueness of that pair is a property of the key, not a constraint to check.
 */
module Database {
  import opened Store

  type Key = (UserId, ProductId)

  datatype CartRow = CartRow(id: string, quantity: int, createdAt: int, updatedAt: int)

  datatype WishlistRow = WishlistRow(id: string, createdAt: int)

  class Db {
    var products: map<ProductId, Product>
    var cartItems: map<Key, CartRow>
    var wishlistItems: map<Key, WishlistRow>

    /** Products are stored under their own id; every row references a product. */
    ghost predicate Valid()
      reads this
    {
      && (forall id :: id in products ==> products[id].id == id)
      && (forall k :: k in cartItems ==> k.1 in products)
      && (forall k :: k in wishlistItems ==> k.1 in products)
    }

    constructor (catalog: map<ProductId, Product>)
      requires forall id :: id in catalog ==> catalog[id].id == id
      ensures Valid()
      ensures products == catalog && cartItems == map[] && wishlistItems == map[]
    {
      products := catalog;
      cartItems := map[];
      wishlistItems := map[];
    }
  }

  /** The product ids of the rows `user` owns. */
  function OwnedBy<V>(rows: map<Key, V>, user: UserId): (s: set<ProductId>)
    ensures forall p :: p in s <==> (user, p) in rows
  {
    var s := set k | k in rows.Keys && k.0 == user :: k.1;
    assert forall p :: (user, p) in rows ==> p in s by {
      forall p | (user, p) in rows ensures p in s {
        var k := (user, p);
        assert k in rows.Keys && k.0 == user;
      }
    }
    s
  }

  /** The sum of `f` over a finite set of products. */
  ghost function SetSum(s: set<ProductId>, f: ProductId -> int): int
    decreases s
  {
    if s == {} then 0 else var p :| p in s; f(p) + SetSum(s - {p}, f)
  }

  /** Any element can be taken out first. */
  lemma {:induction false} SetSumRemove(s: set<ProductId>, f: ProductId -> int, p: ProductId)
    requires p in s
    ensures SetSum(s, f) == f(p) + SetSum(s - {p}, f)
    decreases s
  {
    var q :| q in s && SetSum(s, f) == f(q) + SetSum(s - {q}, f);
    if q != p {
      SetSumRemove(s - {q}, f, p);
      SetSumRemove(s - {p}, f, q);
      assert s - {q} - {p} == s - {p} - {q};
    }
  }

  /** Two functions that agree on `s` have the same sum over it. */
  lemma {:induction false} SetSumAgree(s: set<ProductId>, f: ProductId -> int, g: ProductId -> int)
    requires forall p :: p in s ==> f(p) == g(p)
    ensures SetSum(s, f) == SetSum(s, g)
    decreases s
  {
    if s != {} {
      var p :| p in s;
      SetSumRemove(s, f, p);
      SetSumRemove(s, g, p);
      SetSumAgree(s - {p}, f, g);
    }
  }

  /** Raising `f` by `d` at one element of `s` raises the sum by `d`. */
  lemma SetSumBump(s: set<ProductId>, f: ProductId -> int, g: ProductId -> int, p: ProductId, d: int)
    requires p in s && g(p) == f(p) + d
    requires forall q :: q in s && q != p ==> f(q) == g(q)
    ensures SetSum(s, g) == SetSum(s, f) + d
  {
    SetSumRemove(s, f, p);
    SetSumRemove(s, g, p);
    SetSumAgree(s - {p}, f, g);
  }

  /** Adding a new element `p` to `s` adds `g(p)` to the sum. */
  lemma SetSumInsert(s: set<ProductId>, f: ProductId -> int, g: ProductId -> int, p: ProductId)
    requires p !in s
    requires forall q :: q in s ==> f(q) == g(q)
    ensures SetSum(s + {p}, g) == SetSum(s, f) + g(p)
  {
    SetSumRemove(s + {p}, g, p);
    assert s + {p} - {p} == s;
    SetSumAgree(s, f, g);
  }

  /** The elements of a sequence, as a set. */
  function Elements(ps: seq<ProductId>): (s: set<ProductId>)
    ensures forall p :: p in s <==> p in ps
  {
    set p | p in ps
  }

  /**
   * `findMany({ where: { userId } })` without an order: the product ids of the
   * user's rows, each once, in an order the database chooses.
   */
  method ListOwned<V>(rows: map<Key, V>, user: UserId) returns (ps: seq<ProductId>)
    ensures NoDuplicates(ps)
    ensures forall p :: p in ps <==> (user, p) in rows
  {
    var remaining := OwnedBy(rows, user);
    ps := [];
    while remaining != {}
      invariant forall p :: p in remaining ==> (user, p) in rows
      invariant forall p :: p in ps <==> (user, p) in rows && p !in remaining
      invariant NoDuplicates(ps)
      decreases remaining
    {
      var p :| p in remaining;
      ps := ps + [p];
      remaining := remaining - {p};
    }
  }

  /** Some owned row of `s` is at least as new as every other. */
  lemma {:induction false} LatestExists<V>(rows: map<Key, V>, user: UserId, s: set<ProductId>, createdAt: V -> int)
    requires s != {}
    requires forall p :: p in s ==> (user, p) in rows
    ensures exists p :: p in s && forall q :: q in s ==> createdAt(rows[(user, q)]) <= createdAt(rows[(user, p)])
    decreases s
  {
    var x :| x in s;
    if s != {x} {
      LatestExists(rows, user, s - {x}, createdAt);
      var y :| y in s - {x} && forall q :: q in s - {x} ==> createdAt(rows[(user, q)]) <= createdAt(rows[(user, y)]);
      if createdAt(rows[(user, x)]) <= createdAt(rows[(user, y)]) {
        assert forall q :: q in s ==> createdAt(rows[(user, q)]) <= createdAt(rows[(user, y)]);
      } else {
        assert forall q :: q in s ==> createdAt(rows[(user, q)]) <= createdAt(rows[(user, x)]);
      }
    } else {
      assert forall q :: q in s ==> q == x;
    }
  }

  /**
   * `findMany({ where: { userId }, orderBy: { createdAt: 'desc' } })`: the
   * product ids of the user's rows, each once, newest first. Rows created at
   * the same instant come out in an order the database chooses.
   */
  method ListNewestFirst<V>(rows: map<Key, V>, user: UserId, createdAt: V -> int) returns (ps: seq<ProductId>)
    ensures NoDuplicates(ps)
    ensures forall p :: p in ps <==> (user, p) in rows
    ensures forall i, j :: 0 <= i < j < |ps| ==> createdAt(rows[(user, ps[i])]) >= createdAt(rows[(user, ps[j])])
  {
    var remaining := OwnedBy(rows, user);
    ps := [];
    while remaining != {}
      invariant forall p :: p in remaining ==> (user, p) in rows
      invariant forall p :: p in ps <==> (user, p) in rows && p !in remaining
      invariant NoDuplicates(ps)
      invariant forall i, j :: 0 <= i < j < |ps| ==> createdAt(rows[(user, ps[i])]) >= createdAt(rows[(user, ps[j])])
      invariant forall i, q :: 0 <= i < |ps| && q in remaining ==> createdAt(rows[(user, q)]) <= createdAt(rows[(user, ps[i])])
      decreases remaining
    {
      LatestExists(rows, user, remaining, createdAt);
      var p :| p in remaining && forall q :: q in remaining ==> createdAt(rows[(user, q)]) <= createdAt(rows[(user, p)]);
      ps := ps + [p];
      remaining := remaining - {p};
    }
  }
}
