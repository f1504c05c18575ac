/** The cache adapter over the volatile store (RedisCache).

    Ratings are written as float text, reviews and review pages as JSON;
    reading a key back decodes it, and a key that holds something else is
    a decode error.  JSON is modelled as lossless: an encoded value is
    stored as the value itself. */
module Cache {
  import opened Errors
  import opened Model
  import opened Glob
  import opened Keys
  import opened Redis

  /** Every cache entry is written with a one hour expiry. */
  const Ttl: nat := 3600
  /** How many keyspace positions one SCAN call of the invalidation walks. */
  const ScanCount: nat := 100

  /** What the value under a cache key is, if any. */
  function Lookup(data: map<string, Entry>, k: CacheKey): Option<Value> {
    if Format(k) in data then Some(data[Format(k)].value) else None
  }

  /** The store after writing `v` under `k` with the cache expiry. */
  function Put(data: map<string, Entry>, k: CacheKey, v: Value): map<string, Entry> {
    data[Format(k) := Entry(v, Ttl)]
  }

  /** The store after every key of product p's namespace is deleted. */
  function Invalidated(data: map<string, Entry>, p: ID): map<string, Entry> {
    map k | k in data && !Match(InvalidationPattern(p), k) :: data[k]
  }

  /** What GetProductRating returns when the store answers. */
  function ReadRating(data: map<string, Entry>, p: ID): Result<Float32> {
    match Lookup(data, RatingOf(p))
    case None => Fail(NotFound)
    case Some(v) => if v.FloatText? then Ok(v.number) else Fail(Wrapped("GetProductRating", DecodeFailure))
  }

  /** What GetProductReview returns when the store answers. */
  function ReadReview(data: map<string, Entry>, p: ID, r: ID): Result<Review> {
    match Lookup(data, ReviewOf(p, r))
    case None => Fail(NotFound)
    case Some(v) =>
      if v.ReviewJson? then Ok(v.review) else Fail(Wrapped("GetProductReview unmarshal", DecodeFailure))
  }

  /** What GetProductReviews returns when the store answers. */
  function ReadReviewList(data: map<string, Entry>, p: ID, offset: int, limit: int): Result<seq<Review>> {
    match Lookup(data, ReviewListOf(p, offset, limit))
    case None => Fail(NotFound)
    case Some(v) =>
      if v.ReviewListJson? then Ok(v.reviews) else Fail(Wrapped("GetProductReviews unmarshal", DecodeFailure))
  }

  /** Writing one cache key leaves every other cache key as it was. */
  lemma PutThenLookup(data: map<string, Entry>, k: CacheKey, v: Value, k': CacheKey)
    ensures Lookup(Put(data, k, v), k') == if k' == k then Some(v) else Lookup(data, k')
  {
    FormatInjective(k, k');
  }

  /** A written rating reads back; the other entries read as before. */
  lemma RatingWriteThenRead(data: map<string, Entry>, p: ID, rating: Float32)
    ensures ReadRating(Put(data, RatingOf(p), FloatText(rating)), p) == Ok(rating)
    ensures forall q :: q != p ==>
      ReadRating(Put(data, RatingOf(p), FloatText(rating)), q) == ReadRating(data, q)
    ensures forall q, r :: ReadReview(Put(data, RatingOf(p), FloatText(rating)), q, r) == ReadReview(data, q, r)
  {
    var d := Put(data, RatingOf(p), FloatText(rating));
    forall q | q != p ensures ReadRating(d, q) == ReadRating(data, q) {
      PutThenLookup(data, RatingOf(p), FloatText(rating), RatingOf(q));
    }
    forall q, r ensures ReadReview(d, q, r) == ReadReview(data, q, r) {
      PutThenLookup(data, RatingOf(p), FloatText(rating), ReviewOf(q, r));
    }
  }

  /** A written review reads back; the other entries read as before. */
  lemma ReviewWriteThenRead(data: map<string, Entry>, p: ID, r: ID, review: Review)
    ensures ReadReview(Put(data, ReviewOf(p, r), ReviewJson(review)), p, r) == Ok(review)
    ensures forall q, s :: (q, s) != (p, r) ==>
      ReadReview(Put(data, ReviewOf(p, r), ReviewJson(review)), q, s) == ReadReview(data, q, s)
    ensures forall q :: ReadRating(Put(data, ReviewOf(p, r), ReviewJson(review)), q) == ReadRating(data, q)
  {
    var d := Put(data, ReviewOf(p, r), ReviewJson(review));
    forall q, s | (q, s) != (p, r) ensures ReadReview(d, q, s) == ReadReview(data, q, s) {
      PutThenLookup(data, ReviewOf(p, r), ReviewJson(review), ReviewOf(q, s));
    }
    forall q ensures ReadRating(d, q) == ReadRating(data, q) {
      PutThenLookup(data, ReviewOf(p, r), ReviewJson(review), RatingOf(q));
    }
  }

  /** A written review page reads back; the other entries read as before. */
  lemma ReviewListWriteThenRead(data: map<string, Entry>, p: ID, offset: int, limit: int, reviews: seq<Review>)
    ensures ReadReviewList(Put(data, ReviewListOf(p, offset, limit), ReviewListJson(reviews)), p, offset, limit)
            == Ok(reviews)
    ensures forall q, o, l :: (q, o, l) != (p, offset, limit) ==>
      ReadReviewList(Put(data, ReviewListOf(p, offset, limit), ReviewListJson(reviews)), q, o, l)
      == ReadReviewList(data, q, o, l)
    ensures forall q :: ReadRating(Put(data, ReviewListOf(p, offset, limit), ReviewListJson(reviews)), q)
                        == ReadRating(data, q)
  {
    var k := ReviewListOf(p, offset, limit);
    var d := Put(data, k, ReviewListJson(reviews));
    forall q, o, l | (q, o, l) != (p, offset, limit)
      ensures ReadReviewList(d, q, o, l) == ReadReviewList(data, q, o, l)
    {
      PutThenLookup(data, k, ReviewListJson(reviews), ReviewListOf(q, o, l));
    }
    forall q ensures ReadRating(d, q) == ReadRating(data, q) {
      PutThenLookup(data, k, ReviewListJson(reviews), RatingOf(q));
    }
  }

  /** After invalidating product p, none of p's cache entries exists, and
      the entries of every other product are as they were. */
  lemma InvalidatedLookup(data: map<string, Entry>, p: ID, k: CacheKey)
    ensures Lookup(Invalidated(data, p), k) == if k.productID == p then None else Lookup(data, k)
  {
    PatternCoversCacheKeys(k, p);
  }

  /** So every read of p's rating, reviews and review pages misses. */
  lemma InvalidatedReadsMiss(data: map<string, Entry>, p: ID)
    ensures ReadRating(Invalidated(data, p), p) == Fail(NotFound)
    ensures forall r :: ReadReview(Invalidated(data, p), p, r) == Fail(NotFound)
    ensures forall o, l :: ReadReviewList(Invalidated(data, p), p, o, l) == Fail(NotFound)
  {
    InvalidatedLookup(data, p, RatingOf(p));
    forall r ensures ReadReview(Invalidated(data, p), p, r) == Fail(NotFound) {
      InvalidatedLookup(data, p, ReviewOf(p, r));
    }
    forall o, l ensures ReadReviewList(Invalidated(data, p), p, o, l) == Fail(NotFound) {
      InvalidatedLookup(data, p, ReviewListOf(p, o, l));
    }
  }

  /** Invalidation leaves every lock entry as it was. */
  lemma InvalidatedKeepsLocks(data: map<string, Entry>, p: ID, id: ID)
    ensures LockKey(id) in Invalidated(data, p) <==> LockKey(id) in data
    ensures LockKey(id) in data ==> Invalidated(data, p)[LockKey(id)] == data[LockKey(id)]
  {
    LockKeyOutsideNamespaces(id, p);
  }

  /** A cache miss and a store failure are told apart by errors.Is. */
  lemma {:induction false} StoreErrorIsNotNotFound(e: Error)
    requires Root(e) == StoreFailure || Root(e) == DecodeFailure
    ensures !Is(e, NotFound)
  {
    IsSentinel(e, NotFound);
  }

  /** A store that kept every key outside the pattern of `p`, dropped
      every key inside it and changed no entry is the invalidated store. */
  lemma InvalidatedExactly(d0: map<string, Entry>, d1: map<string, Entry>, p: ID)
    requires forall k :: k in d1 ==> k in d0 && d1[k] == d0[k]
    requires forall k :: k in d0 && !Match(InvalidationPattern(p), k) ==> k in d1
    requires forall k :: k in d0 && Match(InvalidationPattern(p), k) ==> k !in d1
    ensures d1 == Invalidated(d0, p)
  {
  }

  /** A command the invalidation walk may issue: a SCAN of the pattern in
      batches of ScanCount, or a DEL. */
  predicate WalkCommand(c: Command, pattern: string) {
    (c.ScanCmd? && c.pattern == pattern && c.count == ScanCount) || c.DelCmd?
  }

  /** Every command of the walk so far is one the walk may issue. */
  predicate WalkCommands(issued: seq<Command>, pattern: string) {
    forall i :: 0 <= i < |issued| ==> WalkCommand(issued[i], pattern)
  }

  /** One more command of the walk: it keeps the walk's shape, lands at the
      end of the log, and the walk stays failure-free exactly when it did not fail. */
  lemma WalkStep(log0: seq<Command>, issued: seq<Command>, c: Command, pattern: string)
    requires WalkCommands(issued, pattern) && WalkCommand(c, pattern)
    requires AllSucceeded(issued)
    ensures WalkCommands(issued + [c], pattern)
    ensures AllSucceeded(issued + [c]) <==> !c.Failed()
    ensures StopsAtFirstFailure(issued + [c])
    ensures (log0 + issued) + [c] == log0 + (issued + [c])
  {
    assert (issued + [c])[|issued|] == c;
  }

  class RedisCache {
    const store: Store

    constructor (store: Store)
      ensures this.store == store
    {
      this.store := store;
    }

    /** Scans `products:<productID>:*` in batches and deletes what it finds.
        A failed SCAN or DEL abandons the walk silently; `completed` says
        whether the walk reached cursor 0 with every command succeeding. */
    method InvalidateProduct(productID: ID) returns (ghost completed: bool, ghost issued: seq<Command>)
      modifies store
      // the commands issued: SCANs of the pattern and DELs, and the walk is
      // complete exactly when none of them failed
      ensures store.log == old(store.log) + issued
      ensures WalkCommands(issued, InvalidationPattern(productID))
      ensures completed <==> AllSucceeded(issued)
      // a failed SCAN or DEL is the last command the walk sends
      ensures StopsAtFirstFailure(issued)
      ensures forall k :: k in store.data ==> k in old(store.data) && store.data[k] == old(store.data)[k]
      ensures forall k :: k in old(store.data) && !Match(InvalidationPattern(productID), k) ==> k in store.data
      ensures completed ==> store.data == Invalidated(old(store.data), productID)
    {
      var pattern := InvalidationPattern(productID);
      ghost var d0 := store.data;
      var cursor: nat := 0;
      issued := [];
      while true
        invariant store.log == old(store.log) + issued
        invariant WalkCommands(issued, pattern)
        invariant AllSucceeded(issued)
        invariant cursor == 0 ==> store.data == d0
        invariant forall k :: k in store.data ==> k in d0 && store.data[k] == d0[k]
        invariant forall k :: k in d0 && !Match(pattern, k) ==> k in store.data
        invariant cursor > 0 ==> cursor < |store.snapshot|
        invariant cursor > 0 ==> forall k :: k in d0 ==> k in store.snapshot
        invariant forall i :: 0 <= i < cursor && i < |store.snapshot| ==>
          !(store.snapshot[i] in store.data && Match(pattern, store.snapshot[i]))
        decreases (if cursor == 0 then 1 else 0), |store.snapshot| - cursor
      {
        var keys, next, ok := store.Scan(cursor, pattern, ScanCount);
        WalkStep(old(store.log), issued, ScanCmd(cursor, pattern, ScanCount, !ok), pattern);
        issued := issued + [ScanCmd(cursor, pattern, ScanCount, !ok)];
        if !ok {
          return false, issued;
        }
        ghost var w := Window(store.snapshot, cursor, ScanCount);
        if |keys| > 0 {
          var deleted := store.Del(keys);
          WalkStep(old(store.log), issued, DelCmd(keys, !deleted), pattern);
          issued := issued + [DelCmd(keys, !deleted)];
          if !deleted {
            return false, issued;
          }
        }
        ghost var snap := store.snapshot;
        ghost var hi := if cursor + ScanCount < |snap| then cursor + ScanCount else |snap|;
        assert forall i :: 0 <= i < hi ==> !(snap[i] in store.data && Match(pattern, snap[i])) by {
          forall i | 0 <= i < hi ensures !(snap[i] in store.data && Match(pattern, snap[i])) {
            if cursor <= i {
              assert snap[i] in w;
            }
          }
        }
        cursor := next;
        if cursor == 0 {
          assert hi == |snap|;
          break;
        }
      }
      completed := true;
      forall k | k in d0 && Match(pattern, k) ensures k !in store.data {
        var i :| 0 <= i < |store.snapshot| && store.snapshot[i] == k;
      }
      InvalidatedExactly(d0, store.data, productID);
    }

    /** Reads `products:<productID>:rating`; an absent key is exactly NotFound. */
    method GetProductRating(productID: ID) returns (r: Result<Float32>)
      modifies store`log
      ensures store.log == old(store.log) + [GetCmd(RatingKey(productID), r == Fail(Wrapped("GetProductRating", StoreFailure)))]
      ensures r == ReadRating(store.data, productID) || r == Fail(Wrapped("GetProductRating", StoreFailure))
      ensures r == Fail(NotFound) ==> RatingKey(productID) !in store.data
      ensures RatingKey(productID) !in store.data ==>
        r == Fail(NotFound) || r == Fail(Wrapped("GetProductRating", StoreFailure))
    {
      var reply := store.Get(RatingKey(productID));
      match reply
      case Nil =>
        r := Fail(NotFound);
      case Failure =>
        r := Fail(Wrapped("GetProductRating", StoreFailure));
      case Reply(v) =>
        r := if v.FloatText? then Ok(v.number) else Fail(Wrapped("GetProductRating", DecodeFailure));
    }

    /** Writes the rating with the cache expiry; a failure is swallowed and
        leaves the store as it was. */
    method SetProductRating(productID: ID, rating: Float32) returns (ghost stored: bool)
      modifies store`data, store`log
      ensures store.log == old(store.log) + [SetCmd(RatingKey(productID), !stored)]
      ensures store.data == if stored then Put(old(store.data), RatingOf(productID), FloatText(rating))
                                      else old(store.data)
    {
      stored := store.Set(RatingKey(productID), FloatText(rating), Ttl);
    }

    /** Reads `products:<productID>:review:<reviewID>`. */
    method GetProductReview(productID: ID, reviewID: ID) returns (r: Result<Review>)
      modifies store`log
      ensures store.log == old(store.log) +
        [GetCmd(ReviewKey(productID, reviewID), r == Fail(Wrapped("GetProductReview", StoreFailure)))]
      ensures r == ReadReview(store.data, productID, reviewID)
           || r == Fail(Wrapped("GetProductReview", StoreFailure))
      ensures r == Fail(NotFound) ==> ReviewKey(productID, reviewID) !in store.data
      ensures ReviewKey(productID, reviewID) !in store.data ==>
        r == Fail(NotFound) || r == Fail(Wrapped("GetProductReview", StoreFailure))
    {
      var reply := store.Get(ReviewKey(productID, reviewID));
      match reply
      case Nil =>
        r := Fail(NotFound);
      case Failure =>
        r := Fail(Wrapped("GetProductReview", StoreFailure));
      case Reply(v) =>
        r := if v.ReviewJson? then Ok(v.review) else Fail(Wrapped("GetProductReview unmarshal", DecodeFailure));
    }

    method SetProductReview(productID: ID, reviewID: ID, review: Review) returns (ghost stored: bool)
      modifies store`data, store`log
      ensures store.log == old(store.log) + [SetCmd(ReviewKey(productID, reviewID), !stored)]
      ensures store.data == if stored then Put(old(store.data), ReviewOf(productID, reviewID), ReviewJson(review))
                                      else old(store.data)
    {
      stored := store.Set(ReviewKey(productID, reviewID), ReviewJson(review), Ttl);
    }

    /** Reads `products:<productID>:reviews:<offset>:<limit>`. */
    method GetProductReviews(productID: ID, offset: int, limit: int) returns (r: Result<seq<Review>>)
      modifies store`log
      ensures store.log == old(store.log) +
        [GetCmd(ReviewListKey(productID, offset, limit), r == Fail(Wrapped("GetProductReviews", StoreFailure)))]
      ensures r == ReadReviewList(store.data, productID, offset, limit)
           || r == Fail(Wrapped("GetProductReviews", StoreFailure))
      ensures r == Fail(NotFound) ==> ReviewListKey(productID, offset, limit) !in store.data
      ensures ReviewListKey(productID, offset, limit) !in store.data ==>
        r == Fail(NotFound) || r == Fail(Wrapped("GetProductReviews", StoreFailure))
    {
      var reply := store.Get(ReviewListKey(productID, offset, limit));
      match reply
      case Nil =>
        r := Fail(NotFound);
      case Failure =>
        r := Fail(Wrapped("GetProductReviews", StoreFailure));
      case Reply(v) =>
        r := if v.ReviewListJson? then Ok(v.reviews)
             else Fail(Wrapped("GetProductReviews unmarshal", DecodeFailure));
    }

    method SetProductReviews(productID: ID, offset: int, limit: int, reviews: seq<Review>)
      returns (ghost stored: bool)
      modifies store`data, store`log
      ensures store.log == old(store.log) + [SetCmd(ReviewListKey(productID, offset, limit), !stored)]
      ensures store.data ==
        if stored then Put(old(store.data), ReviewListOf(productID, offset, limit), ReviewListJson(reviews))
        else old(store.data)
    {
      stored := store.Set(ReviewListKey(productID, offset, limit), ReviewListJson(reviews), Ttl);
    }
  }

  /** Set then Get of a rating, with nothing in between: when the Set
      reached the store, the Get returns what it wrote unless the Get
      itself fails in transport. */
  method SetThenGetRating(c: RedisCache, productID: ID, rating: Float32)
    returns (r: Result<Float32>, ghost stored: bool)
    modifies c.store`data, c.store`log
    ensures stored ==> r == Ok(rating) || r == Fail(Wrapped("GetProductRating", StoreFailure))
    ensures !stored ==> c.store.data == old(c.store.data)
  {
    stored := c.SetProductRating(productID, rating);
    if stored {
      RatingWriteThenRead(old(c.store.data), productID, rating);
    }
    r := c.GetProductRating(productID);
  }
}
