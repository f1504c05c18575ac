/** The key formats of the volatile store.

    The cache keeps three families of entries per product, all under the
    namespace `products:<productID>:` so that one SCAN pattern,
    `products:<productID>:*`, reaches all of them; the lock keeps one key
    per product under `products:locks:`.  This module proves that the
    formats are injective, that the pattern of a product matches exactly
    that product's cache keys, and that no lock key is ever matched. */
module Keys {
  import opened Errors
  import opened Decimal
  import opened Glob

  /** The common key prefix of the cache. */
  const CachePrefix := "products"
  /** The key prefix of the lock. */
  const LockPrefix := "products:locks"

  /** `products:<p>:`, the part every cache key of product p starts with. */
  function Namespace(p: int): string {
    CachePrefix + ":" + IntString(p) + ":"
  }

  /** `products:<p>:*`, the pattern InvalidateProduct scans for. */
  function InvalidationPattern(p: int): string {
    Namespace(p) + "*"
  }

  /** `products:<p>:rating` */
  function RatingKey(p: int): string {
    Namespace(p) + "rating"
  }

  /** `products:<p>:review:<r>` */
  function ReviewKey(p: int, r: int): string {
    Namespace(p) + "review:" + IntString(r)
  }

  /** `products:<p>:reviews:<offset>:<limit>` */
  function ReviewListKey(p: int, offset: int, limit: int): string {
    Namespace(p) + "reviews:" + IntString(offset) + ":" + IntString(limit)
  }

  /** `products:locks:<id>` */
  function LockKey(id: int): string {
    LockPrefix + ":" + IntString(id)
  }

  /** The three families of cache entries, by what identifies them. */
  datatype CacheKey =
    | RatingOf(productID: int)
    | ReviewOf(productID: int, reviewID: int)
    | ReviewListOf(productID: int, offset: int, limit: int)

  function Format(k: CacheKey): string {
    match k
    case RatingOf(p) => RatingKey(p)
    case ReviewOf(p, r) => ReviewKey(p, r)
    case ReviewListOf(p, o, l) => ReviewListKey(p, o, l)
  }

  /** The `:`-separated fields of a key.  The program never splits keys:
      this reading-back exists only to prove the key formats injective. */
  function Fields(s: string): (f: seq<string>)
    ensures |f| >= 1
    ensures forall i :: 0 <= i < |f| ==> ':' !in f[i]
    decreases |s|
  {
    if s == [] then [""]
    else
      var rest := Fields(s[1..]);
      if s[0] == ':' then [""] + rest else [[s[0]] + rest[0]] + rest[1..]
  }

  /** Reads a cache key back into the identifiers it was formatted from. */
  function Parse(s: string): Option<CacheKey> {
    var f := Fields(s);
    if |f| < 3 || f[0] != CachePrefix || ParseInt(f[1]).None? then None
    else
      var p := ParseInt(f[1]).value;
      if |f| == 3 && f[2] == "rating" then Some(RatingOf(p))
      else if |f| == 4 && f[2] == "review" && ParseInt(f[3]).Some? then
        Some(ReviewOf(p, ParseInt(f[3]).value))
      else if |f| == 5 && f[2] == "reviews" && ParseInt(f[3]).Some? && ParseInt(f[4]).Some? then
        Some(ReviewListOf(p, ParseInt(f[3]).value, ParseInt(f[4]).value))
      else None
  }

  lemma {:induction false} FieldsPlain(a: string)
    requires ':' !in a
    ensures Fields(a) == [a]
    decreases |a|
  {
    if a != [] {
      FieldsPlain(a[1..]);
      assert [a[0]] + a[1..] == a;
    }
  }

  lemma {:induction false} FieldsJoin(a: string, b: string)
    requires ':' !in a
    ensures Fields(a + ":" + b) == [a] + Fields(b)
    decreases |a|
  {
    var s := a + ":" + b;
    if a == [] {
      assert s[1..] == b;
    } else {
      assert s[1..] == a[1..] + ":" + b;
      FieldsJoin(a[1..], b);
      assert [a[0]] + a[1..] == a;
    }
  }

  /** Whatever follows the namespace of p, the first two fields are
      `products` and the printed p. */
  lemma FieldsOfNamespace(p: int, rest: string)
    ensures Fields(Namespace(p) + rest) == [CachePrefix, IntString(p)] + Fields(rest)
  {
    IntStringPlain(p);
    assert Namespace(p) + rest == CachePrefix + ":" + (IntString(p) + ":" + rest);
    FieldsJoin(CachePrefix, IntString(p) + ":" + rest);
    FieldsJoin(IntString(p), rest);
  }

  lemma FieldsOfRatingKey(p: int)
    ensures Fields(RatingKey(p)) == [CachePrefix, IntString(p), "rating"]
  {
    FieldsOfNamespace(p, "rating");
    FieldsPlain("rating");
  }

  lemma FieldsOfReviewKey(p: int, r: int)
    ensures Fields(ReviewKey(p, r)) == [CachePrefix, IntString(p), "review", IntString(r)]
  {
    IntStringPlain(r);
    var tail := "review" + ":" + IntString(r);
    assert ReviewKey(p, r) == Namespace(p) + tail;
    FieldsOfNamespace(p, tail);
    FieldsJoin("review", IntString(r));
    FieldsPlain(IntString(r));
  }

  lemma FieldsOfReviewListKey(p: int, o: int, l: int)
    ensures Fields(ReviewListKey(p, o, l)) ==
      [CachePrefix, IntString(p), "reviews", IntString(o), IntString(l)]
  {
    IntStringPlain(o);
    IntStringPlain(l);
    var tail := "reviews" + ":" + (IntString(o) + ":" + IntString(l));
    assert ReviewListKey(p, o, l) == Namespace(p) + tail;
    FieldsOfNamespace(p, tail);
    FieldsJoin("reviews", IntString(o) + ":" + IntString(l));
    FieldsJoin(IntString(o), IntString(l));
    FieldsPlain(IntString(l));
  }

  /** Parsing inverts formatting, for every family. */
  lemma ParseFormat(k: CacheKey)
    ensures Parse(Format(k)) == Some(k)
  {
    ParseIntString(k.productID);
    match k
    case RatingOf(p) =>
      FieldsOfRatingKey(p);
    case ReviewOf(p, r) =>
      FieldsOfReviewKey(p, r);
      ParseIntString(r);
    case ReviewListOf(p, o, l) =>
      FieldsOfReviewListKey(p, o, l);
      ParseIntString(o);
      ParseIntString(l);
  }

  /** Distinct (family, identifiers) give distinct keys: no two cache
      entries can collide, within a family or across families. */
  lemma FormatInjective(k1: CacheKey, k2: CacheKey)
    ensures Format(k1) == Format(k2) <==> k1 == k2
  {
    ParseFormat(k1);
    ParseFormat(k2);
  }

  /** Every cache key of product p lies in p's namespace. */
  lemma FormatInNamespace(k: CacheKey)
    ensures HasPrefix(Format(k), Namespace(k.productID))
  {
    var n := Namespace(k.productID);
    assert HasPrefix(n, n);
    match k
    case RatingOf(p) =>
      PrefixExtend(n, n, "rating");
    case ReviewOf(p, r) =>
      PrefixExtend(n, n, "review:");
      PrefixExtend(n + "review:", n, IntString(r));
    case ReviewListOf(p, o, l) =>
      PrefixExtend(n, n, "reviews:");
      PrefixExtend(n + "reviews:", n, IntString(o));
      PrefixExtend(n + "reviews:" + IntString(o), n, ":");
      PrefixExtend(n + "reviews:" + IntString(o) + ":", n, IntString(l));
  }

  /** A key lies in at most one product's namespace: the namespace of
      product 1 does not reach `products:12:rating`. */
  lemma NamespacesDisjoint(key: string, p: int, q: int)
    requires HasPrefix(key, Namespace(p)) && HasPrefix(key, Namespace(q))
    ensures p == q
  {
    var np, nq := Namespace(p), Namespace(q);
    var rp, rq := key[|np|..], key[|nq|..];
    assert np + rp == key;
    assert nq + rq == key;
    FieldsOfNamespace(p, rp);
    FieldsOfNamespace(q, rq);
    assert Fields(key)[1] == IntString(p) && Fields(key)[1] == IntString(q);
    IntStringInjective(p, q);
  }

  /** The invalidation pattern of p matches exactly the keys in p's namespace. */
  lemma PatternMatchesNamespace(key: string, p: int)
    ensures Match(InvalidationPattern(p), key) <==> HasPrefix(key, Namespace(p))
  {
    IntStringPlain(p);
    PrefixStar(Namespace(p), key);
  }

  /** The invalidation pattern of p matches a cache key iff the key
      belongs to product p: all three families are covered and no other
      product's entries are touched. */
  lemma PatternCoversCacheKeys(k: CacheKey, p: int)
    ensures Match(InvalidationPattern(p), Format(k)) <==> k.productID == p
  {
    PatternMatchesNamespace(Format(k), p);
    FormatInNamespace(k);
    if HasPrefix(Format(k), Namespace(p)) {
      NamespacesDisjoint(Format(k), p, k.productID);
    }
  }

  lemma FieldsOfLockKey(id: int)
    ensures Fields(LockKey(id)) == [CachePrefix, "locks", IntString(id)]
  {
    IntStringPlain(id);
    assert LockKey(id) == CachePrefix + ":" + ("locks" + ":" + IntString(id));
    FieldsJoin(CachePrefix, "locks" + ":" + IntString(id));
    FieldsJoin("locks", IntString(id));
    FieldsPlain(IntString(id));
  }

  /** No lock key lies in a product namespace, so invalidation never
      releases a lock, and no lock key is a cache key. */
  lemma LockKeyOutsideNamespaces(id: int, p: int)
    ensures !HasPrefix(LockKey(id), Namespace(p))
    ensures !Match(InvalidationPattern(p), LockKey(id))
  {
    PatternMatchesNamespace(LockKey(id), p);
    var key, n := LockKey(id), Namespace(p);
    assert key[9] == 'l';
    assert n[9] == IntString(p)[0];
    if |n| <= |key| {
      assert key[..|n|][9] == key[9];
    }
  }

  /** One lock per product: distinct identifiers give distinct lock keys. */
  lemma LockKeyInjective(a: int, b: int)
    ensures LockKey(a) == LockKey(b) <==> a == b
  {
    if LockKey(a) == LockKey(b) {
      FieldsOfLockKey(a);
      FieldsOfLockKey(b);
      IntStringInjective(a, b);
    }
  }
}
