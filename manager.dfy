/** The manager (DAOManager) that the HTTP layer calls: it orchestrates the
    source store, the rating cache, the lock and the notifier.

    The manager has the four-collaborator shape its tests and the process
    wiring use.  Every collaborator call it makes, with the arguments and
    the result, is appended to the ghost log `effects`; a call of the
    notify function is the log entry `Notify(event)`. */
module ProductManager {
  import opened Errors
  import opened Model
  import Dto
  import opened Keys
  import opened Redis
  import opened Cache
  import opened Lock
  import opened Dao
  import opened Glob

  datatype Action = Create | Update | Delete

  /** What notifyFunc is called with. */
  datatype Event = Event(productID: ID, reviewID: ID, action: Action)

  datatype Effect =
    | DaoCreateProduct(product: Product, id: ID, err: Option<Error>)
    | DaoUpdateProduct(product: Product, err: Option<Error>)
    | DaoDeleteProduct(productID: ID, err: Option<Error>)
    | DaoGetProduct(productID: ID, found: Option<Product>, err: Option<Error>)
    | DaoGetProductRating(productID: ID, rating: Float32, err: Option<Error>)
    | DaoListProducts(offset: int, limit: int, products: seq<Product>, err: Option<Error>)
    | DaoCreateProductReview(review: Review, id: ID, err: Option<Error>)
    | DaoUpdateProductReview(review: Review, err: Option<Error>)
    | DaoDeleteProductReview(productID: ID, reviewID: ID, err: Option<Error>)
    | DaoGetProductReview(productID: ID, reviewID: ID, foundReview: Option<Review>, err: Option<Error>)
    | DaoListProductReviews(productID: ID, offset: int, limit: int, reviews: seq<Review>, err: Option<Error>)
    | CacheGetRating(productID: ID, result: Result<Float32>)
    // `stored` says whether the SET reached the store
    | CacheSetRating(productID: ID, rating: Float32, stored: bool)
    // `issued` is what the invalidation walk sent
    | CacheInvalidate(productID: ID, issued: seq<Command>)
    // `attempts` is what each SETNX of the Lock call found
    | LockAcquire(productID: ID, err: Option<Error>, attempts: seq<Attempt>)
    | LockRelease(productID: ID, err: Option<Error>)
    | Notify(event: Event)

  /** The commands a collaborator call sends to the volatile store; the
      source store and the notifier send none. */
  function StoreCommands(e: Effect): seq<Command> {
    match e
    case CacheGetRating(id, r) => [GetCmd(RatingKey(id), r == Fail(Wrapped("GetProductRating", StoreFailure)))]
    case CacheSetRating(id, _, stored) => [SetCmd(RatingKey(id), !stored)]
    case CacheInvalidate(_, issued) => issued
    case LockAcquire(id, _, attempts) => Issued(LockKey(id), attempts)
    case LockRelease(id, err) => [DelCmd([LockKey(id)], err.Some?)]
    case _ => []
  }

  /** The commands a sequence of collaborator calls sends, in order. */
  function Commands(s: seq<Effect>): seq<Command> {
    if s == [] then [] else StoreCommands(s[0]) + Commands(s[1..])
  }

  lemma {:induction false} CommandsAppend(a: seq<Effect>, b: seq<Effect>)
    ensures Commands(a + b) == Commands(a) + Commands(b)
    decreases |a|
  {
    if a == [] {
      assert a + b == b;
    } else {
      assert (a + b)[1..] == a[1..] + b;
      CommandsAppend(a[1..], b);
    }
  }

  /** Calls made one after the other extend the command log in order. */
  lemma LogAppend(log0: seq<Command>, a: seq<Effect>, b: seq<Effect>)
    ensures (log0 + Commands(a)) + Commands(b) == log0 + Commands(a + b)
  {
    CommandsAppend(a, b);
    Associative(log0, Commands(a), Commands(b));
  }

  /** The first call of a sequence puts its own commands in the log. */
  lemma LogFirst(log0: seq<Command>, e: Effect)
    ensures log0 + StoreCommands(e) == log0 + Commands([e])
  {
    assert [e][1..] == [];
  }

  /** One more call extends the command log by that call's commands. */
  lemma LogStep(log0: seq<Command>, a: seq<Effect>, e: Effect)
    ensures (log0 + Commands(a)) + StoreCommands(e) == log0 + Commands(a + [e])
  {
    LogFirst([], e);
    CommandsAppend(a, [e]);
  }

  // ---------------------------------------------------------------- conversions

  /** The model product the manager hands to the source store. */
  function ModelProduct(id: ID, p: Dto.Product): (m: Product)
    ensures m.id == id && m.name == p.name && m.description == p.description && m.price == p.price
  {
    Product(id, p.name, p.description, p.price)
  }

  /** convertProductWithRating: the product's fields and the rating. */
  function ConvertProductWithRating(product: Product, rating: Float32): (r: Dto.ProductWithRating)
    ensures r.rating == rating
    ensures ModelProduct(r.product.id, r.product) == product
  {
    Dto.ProductWithRating(Dto.Product(product.id, product.name, product.description, product.price), rating)
  }

  /** The model review the manager hands to the source store. */
  function ModelReview(id: ID, productID: ID, r: Dto.Review): (m: Review)
    ensures m.id == id && m.productID == productID
    ensures m.firstName == r.firstName && m.lastName == r.lastName && m.review == r.review && m.rating == r.rating
  {
    Review(id, productID, r.firstName, r.lastName, r.review, r.rating)
  }

  /** convertReview drops the product identity and keeps everything else:
      together with that identity the result gives the review back. */
  function ConvertReview(review: Review): (r: Dto.Review)
    ensures r.id == review.id
    ensures ModelReview(review.id, review.productID, r) == review
  {
    Dto.Review(review.id, review.firstName, review.lastName, review.review, review.rating)
  }

  /** Converting a product the manager built back to the transfer type
      gives the caller's product, with the identity the manager chose. */
  lemma ProductConversionRoundTrip(id: ID, p: Dto.Product, rating: Float32)
    ensures ConvertProductWithRating(ModelProduct(id, p), rating).product == p.(id := id)
  {
  }

  /** The same for reviews: the identity is kept, the product identity is
      dropped. */
  lemma ReviewConversionRoundTrip(id: ID, productID: ID, r: Dto.Review)
    ensures ConvertReview(ModelReview(id, productID, r)) == r.(id := id)
  {
  }

  // ---------------------------------------------------------------- rating lookups

  /** One rating lookup: the effects it had and what it returned. */
  datatype Lookup = Lookup(effects: seq<Effect>, rating: Float32, err: Option<Error>)

  /** The effects a rating lookup of product `id` may have.  A hit returns
      the cached rating and does nothing else.  A miss takes the lock; if
      that fails, what follows is left open.  Under the lock the cache is
      read again and, on a second miss, the source store is read and its
      rating written to the cache; the lock is released last. */
  ghost predicate RatingLookup(id: ID, l: Lookup) {
    var s := l.effects;
    |s| >= 1 && s[0].CacheGetRating? && s[0].productID == id &&
    if s[0].result.Ok? then
      s == [s[0]] && l.rating == s[0].result.value && l.err.None?
    else
      |s| >= 2 && LockRecord(s[1], id) &&
      (s[1].err.None? ==> FillUnderLock(id, s[2..], l.rating, l.err))
  }

  ghost predicate FillUnderLock(id: ID, s: seq<Effect>, rating: Float32, err: Option<Error>) {
    |s| >= 2 && s[0].CacheGetRating? && s[0].productID == id &&
    s[|s| - 1].LockRelease? && s[|s| - 1].productID == id &&
    if s[0].result.Ok? then
      |s| == 2 && rating == s[0].result.value && err.None?
    else
      s[1].DaoGetProductRating? && s[1].productID == id &&
      if s[1].err.None? then
        && |s| == 4 && s[2].CacheSetRating? && s[2].productID == id && s[2].rating == s[1].rating
        && rating == s[1].rating && err.None?
      else
        |s| == 3 && rating == ZeroRating && err == Some(Wrapped("dao.GetProductAverageRating", s[1].err.value))
  }

  /** The record of a Lock call on `id`: it reports success exactly when
      its last SETNX took the key. */
  ghost predicate LockRecord(e: Effect, id: ID) {
    && e.LockAcquire? && e.productID == id && |e.attempts| >= 1
    && (e.err.None? <==> e.attempts[|e.attempts| - 1] == Acquired)
  }

  /** What a cache read of product `id`'s rating can return from store
      `d`: what `d` holds under the rating key, read as GetProductRating
      reads it, or the wrapped transport failure. */
  ghost predicate ReadsOf(d: map<string, Entry>, id: ID, r: Result<Float32>) {
    r == ReadRating(d, id) || r == Fail(Wrapped("GetProductRating", StoreFailure))
  }

  /** The cache reads of a rating lookup, the first one and, after a taken
      lock, the second one, both see the store `d` the lookup started on. */
  ghost predicate ReadsStore(d: map<string, Entry>, id: ID, s: seq<Effect>) {
    && (|s| >= 1 && s[0].CacheGetRating? ==> ReadsOf(d, id, s[0].result))
    && (|s| >= 3 && s[1].LockAcquire? && s[1].err.None? && s[2].CacheGetRating? ==>
          ReadsOf(d, id, s[2].result))
  }

  /** A rating key is never a lock key. */
  lemma RatingKeyNotLockKey(p: ID, q: ID)
    ensures RatingKey(p) != LockKey(q)
  {
    LockKeyOutsideNamespaces(q, p);
    FormatInNamespace(RatingOf(p));
    assert Format(RatingOf(p)) == RatingKey(p);
  }

  /** Two stores that agree on the rating key give the same reads. */
  lemma ReadsStoreAgree(d1: map<string, Entry>, d0: map<string, Entry>, id: ID, s: seq<Effect>)
    requires Agree(d1, d0, RatingKey(id))
    ensures forall r :: ReadsOf(d1, id, r) <==> ReadsOf(d0, id, r)
    ensures ReadsStore(d1, id, s) <==> ReadsStore(d0, id, s)
  {
    assert Format(RatingOf(id)) == RatingKey(id);
    assert ReadRating(d1, id) == ReadRating(d0, id);
  }

  /** A store without the product's rating: the lookup's first read that
      reaches the store misses, so the lookup goes on to the lock, and a
      second read under the lock that reaches the store misses too. */
  lemma ColdStoreLookup(d: map<string, Entry>, id: ID, l: Lookup)
    requires RatingLookup(id, l) && ReadsStore(d, id, l.effects)
    requires RatingKey(id) !in d
    requires l.effects[0].result != Fail(Wrapped("GetProductRating", StoreFailure))
    ensures l.effects[0] == CacheGetRating(id, Fail(NotFound))
    ensures |l.effects| >= 2 && LockRecord(l.effects[1], id)
    ensures l.effects[1].err.None? ==>
      && |l.effects| >= 3 && l.effects[2].CacheGetRating?
      && (l.effects[2].result != Fail(Wrapped("GetProductRating", StoreFailure)) ==>
            l.effects[2] == CacheGetRating(id, Fail(NotFound)))
  {
    assert Format(RatingOf(id)) == RatingKey(id);
    if l.effects[0].result.Ok? {
      assert false;
    }
    if l.effects[1].err.None? {
      assert l.effects[2..][0] == l.effects[2];
    }
  }

  /** A store holding the rating `v` for the product: a lookup whose read
      reaches the store returns `v` and touches nothing else, with one GET
      as its only command. */
  lemma WarmStoreLookup(d: map<string, Entry>, id: ID, l: Lookup, v: Float32)
    requires RatingLookup(id, l) && ReadsStore(d, id, l.effects)
    requires RatingKey(id) in d && d[RatingKey(id)].value == FloatText(v)
    requires l.effects[0].result != Fail(Wrapped("GetProductRating", StoreFailure))
    ensures l.effects == [CacheGetRating(id, Ok(v))] && l.rating == v && l.err.None?
    ensures Commands(l.effects) == [GetCmd(RatingKey(id), false)]
  {
    assert Format(RatingOf(id)) == RatingKey(id);
    assert l.effects[1..] == [];
  }

  /** The index of a product that no earlier product of the list shares. */
  ghost predicate FirstSeen(ps: seq<Product>, j: nat)
    requires j < |ps|
  {
    forall m :: 0 <= m < j ==> ps[m].id != ps[j].id
  }

  /** The lookups of a walk over `ps` whose product is seen for the first
      time read the store `d0` the walk started on. */
  ghost predicate ReadsFirstSeen(d0: map<string, Entry>, ps: seq<Product>, lookups: seq<Lookup>) {
    && |lookups| <= |ps|
    && forall j :: 0 <= j < |lookups| && FirstSeen(ps, j) ==> ReadsStore(d0, ps[j].id, lookups[j].effects)
  }

  /** A product the walk has not looked up yet has its rating key outside
      the keys the walk may change. */
  lemma {:induction false} RatingKeyUntouched(qs: seq<Product>, id: ID)
    requires forall j :: 0 <= j < |qs| ==> qs[j].id != id
    ensures RatingKey(id) !in Touched(qs)
    decreases |qs|
  {
    if qs != [] {
      var last := qs[|qs| - 1];
      RatingKeyUntouched(qs[..|qs| - 1], id);
      FormatInjective(RatingOf(id), RatingOf(last.id));
      RatingKeyNotLockKey(id, last.id);
    }
  }

  /** The next lookup of the walk, on store `d1`, reads what the walk's
      initial store `d0` holds when its product is seen for the first time:
      no earlier lookup can have written that product's rating. */
  lemma ReadsFirstSeenStep(d0: map<string, Entry>, d1: map<string, Entry>, ps: seq<Product>,
                           lookups: seq<Lookup>, l: Lookup)
    requires ReadsFirstSeen(d0, ps, lookups) && |lookups| < |ps|
    requires KeepsOutside(d1, d0, Touched(ps[..|lookups|]))
    requires ReadsStore(d1, ps[|lookups|].id, l.effects)
    ensures ReadsFirstSeen(d0, ps, lookups + [l])
  {
    var i := |lookups|;
    if FirstSeen(ps, i) {
      forall j | 0 <= j < |ps[..i]| ensures ps[..i][j].id != ps[i].id {
        assert ps[..i][j] == ps[j];
      }
      RatingKeyUntouched(ps[..i], ps[i].id);
      ReadsStoreAgree(d1, d0, ps[i].id, l.effects);
    }
    var ls := lookups + [l];
    forall j | 0 <= j < |ls| && FirstSeen(ps, j) ensures ReadsStore(d0, ps[j].id, ls[j].effects) {
      if j < |lookups| {
        assert ls[j] == lookups[j];
      }
    }
  }

  /** A miss, the Lock call and what follows it make a rating lookup
      whose last call is the last call after the Lock. */
  lemma MissThenRest(id: ID, first: Result<Float32>, acquire: Effect, after: seq<Effect>,
                     rating: Float32, err: Option<Error>, d: map<string, Entry>)
    requires !first.Ok? && ReadsOf(d, id, first)
    requires LockRecord(acquire, id)
    requires acquire.err.None? ==> FillUnderLock(id, after, rating, err) && ReadsOf(d, id, after[0].result)
    ensures var s := [CacheGetRating(id, first)] + ([acquire] + after);
      && RatingLookup(id, Lookup(s, rating, err))
      && ReadsStore(d, id, s)
      && (|after| > 0 ==> s[|s| - 1] == after[|after| - 1])
  {
    var s := [CacheGetRating(id, first)] + ([acquire] + after);
    assert s[1..] == [acquire] + after;
    assert s[2..] == after;
    if |s| >= 3 {
      assert s[2] == after[0];
    }
  }

  /** The calls of three parts made one after the other, and the
      commands they send, in order. */
  lemma ThreeParts(log0: seq<Command>, e0: seq<Effect>, a: Effect, b: Effect, t: seq<Effect>)
    ensures e0 + [a] + [b] + t == e0 + ([a] + ([b] + t))
    ensures log0 + StoreCommands(a) + StoreCommands(b) + Commands(t) == log0 + Commands([a] + ([b] + t))
  {
    Associative(e0 + [a], [b], t);
    Associative(e0, [a], [b] + t);
    LogFirst([], a);
    LogFirst([], b);
    CommandsAppend([b], t);
    CommandsAppend([a], [b] + t);
    Associative(log0 + StoreCommands(a), StoreCommands(b), Commands(t));
    Associative(log0, StoreCommands(a), StoreCommands(b) + Commands(t));
  }

  lemma Associative<T>(x: seq<T>, y: seq<T>, z: seq<T>)
    ensures x + y + z == x + (y + z)
  {
  }

  /** The cold-cache read: two misses around a successful Lock lead to
      exactly one source-store read, one cache write of what it returned
      when it succeeded and one release of the lock, in that order, and
      the lookup returns the source store's rating. */
  lemma ColdRatingRead(id: ID, l: Lookup)
    requires RatingLookup(id, l)
    requires |l.effects| >= 3
    requires l.effects[0] == CacheGetRating(id, Fail(NotFound))
    requires l.effects[1].LockAcquire? && l.effects[1].err.None?
    requires l.effects[2] == CacheGetRating(id, Fail(NotFound))
    ensures LockRecord(l.effects[1], id)
    ensures |l.effects| >= 5
    ensures l.effects[3].DaoGetProductRating? && l.effects[3].productID == id
    ensures l.effects[3].err.None? ==>
      && |l.effects| == 6
      && l.effects[4].CacheSetRating? && l.effects[4].productID == id && l.effects[4].rating == l.effects[3].rating
      && l.effects[5].LockRelease? && l.effects[5].productID == id
      && l.rating == l.effects[3].rating && l.err.None?
    ensures l.effects[3].err.Some? ==>
      && |l.effects| == 5
      && l.effects[4].LockRelease? && l.effects[4].productID == id
      && l.err == Some(Wrapped("dao.GetProductAverageRating", l.effects[3].err.value))
  {
    var s := l.effects[2..];
    assert FillUnderLock(id, s, l.rating, l.err);
    assert s[0] == l.effects[2] && s[1] == l.effects[3];
  }

  /** The commands of six calls, call by call. */
  lemma {:induction false} SixCommands(s: seq<Effect>)
    requires |s| == 6
    ensures Commands(s) == StoreCommands(s[0]) + StoreCommands(s[1]) + StoreCommands(s[2]) +
      StoreCommands(s[3]) + StoreCommands(s[4]) + StoreCommands(s[5])
  {
    var c0, c1, c2, c3, c4, c5 := StoreCommands(s[0]), StoreCommands(s[1]), StoreCommands(s[2]),
      StoreCommands(s[3]), StoreCommands(s[4]), StoreCommands(s[5]);
    assert s[5..][1..] == [] && s[4..][1..] == s[5..] && s[3..][1..] == s[4..];
    assert s[2..][1..] == s[3..] && s[1..][1..] == s[2..];
    assert Commands(s[5..]) == c5;
    assert Commands(s[4..]) == c4 + c5;
    assert Commands(s[3..]) == c3 + (c4 + c5);
    assert Commands(s[2..]) == c2 + (c3 + (c4 + c5));
    assert Commands(s[1..]) == c1 + (c2 + (c3 + (c4 + c5)));
    assert Commands(s) == c0 + (c1 + (c2 + (c3 + (c4 + c5))));
    Associative(c3, c4, c5);
    Associative(c2, c3 + c4, c5);
    Associative(c2, c3, c4);
    Associative(c1, c2 + c3 + c4, c5);
    Associative(c1, c2 + c3, c4);
    Associative(c1, c2, c3);
    Associative(c0, c1 + c2 + c3 + c4, c5);
    Associative(c0, c1 + c2 + c3, c4);
    Associative(c0, c1 + c2, c3);
    Associative(c0, c1, c2);
  }

  /** The commands a cold-cache read with a successful source-store read
      sends to the volatile store: the first GET, the Lock call's SETNX
      attempts, the second GET, the SET of the rating and the DEL of the
      lock key, in that order. */
  lemma ColdReadCommands(id: ID, l: Lookup)
    requires RatingLookup(id, l)
    requires |l.effects| >= 4
    requires l.effects[0] == CacheGetRating(id, Fail(NotFound))
    requires l.effects[1].LockAcquire? && l.effects[1].err.None?
    requires l.effects[2] == CacheGetRating(id, Fail(NotFound))
    requires l.effects[3].DaoGetProductRating? && l.effects[3].err.None?
    ensures |l.effects| == 6 && l.effects[4].CacheSetRating? && l.effects[5].LockRelease?
    // the last SETNX of the Lock call is the one that took the key
    ensures l.effects[1].attempts[|l.effects[1].attempts| - 1] == Acquired
    ensures Commands(l.effects) ==
      [GetCmd(RatingKey(id), false)] + Issued(LockKey(id), l.effects[1].attempts) +
      [GetCmd(RatingKey(id), false)] + [SetCmd(RatingKey(id), !l.effects[4].stored)] +
      [DelCmd([LockKey(id)], l.effects[5].err.Some?)]
  {
    ColdRatingRead(id, l);
    var s := l.effects;
    SixCommands(s);
    assert StoreCommands(s[0]) == StoreCommands(s[2]) == [GetCmd(RatingKey(id), false)];
    assert StoreCommands(s[3]) == [];
  }

  /** The effects of several lookups, one after the other. */
  ghost function Flatten(ls: seq<Lookup>): seq<Effect> {
    if ls == [] then [] else Flatten(ls[..|ls| - 1]) + ls[|ls| - 1].effects
  }

  lemma FlattenAppend(e0: seq<Effect>, ls: seq<Lookup>, l: Lookup)
    ensures Flatten(ls + [l]) == Flatten(ls) + l.effects
    ensures (e0 + Flatten(ls)) + l.effects == e0 + Flatten(ls + [l])
  {
    assert (ls + [l])[..|ls|] == ls;
  }

  /** Key `k` is present in both stores with the same entry, or in neither. */
  ghost predicate Agree(a: map<string, Entry>, b: map<string, Entry>, k: string) {
    (k in a <==> k in b) && (k in a ==> a[k] == b[k])
  }

  /** The store changes a rating lookup of product `id` may make, given
      that it returned `rating` and `err`: no key but the product's
      rating and lock entries changes, and a changed rating entry holds
      the returned rating. */
  ghost predicate RatingFrame(d0: map<string, Entry>, d1: map<string, Entry>, id: ID, rating: Float32, err: Option<Error>) {
    && (forall k :: k != RatingKey(id) && k != LockKey(id) ==> Agree(d1, d0, k))
    && (Agree(d1, d0, RatingKey(id)) ||
        (err.None? && RatingKey(id) in d1 && d1[RatingKey(id)] == Entry(FloatText(rating), Ttl)))
  }

  /** Writing the rating entry, or failing to, stays within a lookup's
      frame and leaves the lock entry alone. */
  lemma RatingWriteFrame(d0: map<string, Entry>, d1: map<string, Entry>, id: ID, rating: Float32)
    requires d1 == d0 || d1 == Put(d0, RatingOf(id), FloatText(rating))
    ensures RatingFrame(d0, d1, id, rating, None)
    ensures Agree(d1, d0, LockKey(id))
  {
    LockKeyOutsideNamespaces(id, id);
    FormatInNamespace(RatingOf(id));
    assert Format(RatingOf(id)) == RatingKey(id) != LockKey(id);
  }

  /** Taking the lock (which touches only the lock entry) before a fill
      keeps the fill's frame. */
  lemma FrameAfterLock(d0: map<string, Entry>, d1: map<string, Entry>, d2: map<string, Entry>,
                       id: ID, rating: Float32, err: Option<Error>)
    requires forall k :: k != LockKey(id) ==> Agree(d1, d0, k)
    requires RatingFrame(d1, d2, id, rating, err)
    ensures RatingFrame(d0, d2, id, rating, err)
    ensures forall r :: ReadsOf(d1, id, r) <==> ReadsOf(d0, id, r)
  {
    LockKeyOutsideNamespaces(id, id);
    FormatInNamespace(RatingOf(id));
    assert Agree(d1, d0, RatingKey(id));
    ReadsStoreAgree(d1, d0, id, []);
    forall k | k != RatingKey(id) && k != LockKey(id)
      ensures Agree(d2, d0, k)
    {
      assert Agree(d2, d1, k) && Agree(d1, d0, k);
    }
  }

  /** Releasing the lock, which touches only the lock key, keeps a
      fill's guarantee about which keys change. */
  lemma FrameThenRelease(d0: map<string, Entry>, d1: map<string, Entry>, d2: map<string, Entry>,
                         id: ID, rating: Float32, err: Option<Error>)
    requires RatingFrame(d0, d1, id, rating, err)
    requires d2 == d1 - {LockKey(id)} || d2 == d1
    ensures RatingFrame(d0, d2, id, rating, err)
  {
    LockKeyOutsideNamespaces(id, id);
    FormatInNamespace(RatingOf(id));
    assert Agree(d2, d1, RatingKey(id));
    forall k | k != RatingKey(id) && k != LockKey(id)
      ensures Agree(d2, d0, k)
    {
      assert Agree(d2, d1, k) && Agree(d1, d0, k);
    }
  }

  /** The rating and lock entries of the given products: the keys their
      rating lookups may change. */
  ghost function Touched(ps: seq<Product>): set<string> {
    if ps == [] then {} else Touched(ps[..|ps| - 1]) + {RatingKey(ps[|ps| - 1].id), LockKey(ps[|ps| - 1].id)}
  }

  lemma TouchedStep(ps: seq<Product>, i: nat)
    requires i < |ps|
    ensures Touched(ps[..i + 1]) == Touched(ps[..i]) + {RatingKey(ps[i].id), LockKey(ps[i].id)}
  {
    assert ps[..i + 1][..i] == ps[..i];
  }

  /** Every key outside `touched` is as it was. */
  ghost predicate KeepsOutside(d1: map<string, Entry>, d0: map<string, Entry>, touched: set<string>) {
    forall k :: k !in touched ==> Agree(d1, d0, k)
  }

  /** One more lookup after a walk that kept every key outside `touched`:
      the walk now keeps every key outside `touched` and the looked-up
      product's rating and lock entries. */
  lemma FrameAccumulate(d0: map<string, Entry>, d1: map<string, Entry>, d2: map<string, Entry>,
                        touched: set<string>, id: ID, rating: Float32, err: Option<Error>)
    requires KeepsOutside(d1, d0, touched)
    requires RatingFrame(d1, d2, id, rating, err)
    ensures KeepsOutside(d2, d0, touched + {RatingKey(id), LockKey(id)})
  {
    forall k | k !in touched + {RatingKey(id), LockKey(id)}
      ensures Agree(d2, d0, k)
    {
      assert Agree(d2, d1, k) && Agree(d1, d0, k);
    }
  }

  /** The first |lookups| products were looked up without error and `acc`
      holds them with their ratings. */
  ghost predicate Rated(ps: seq<Product>, lookups: seq<Lookup>, acc: seq<Dto.ProductWithRating>) {
    && |acc| == |lookups| <= |ps|
    && forall j :: 0 <= j < |lookups| ==>
         && RatingLookup(ps[j].id, lookups[j]) && lookups[j].err.None?
         && acc[j] == ConvertProductWithRating(ps[j], lookups[j].rating)
  }

  lemma RatedStep(ps: seq<Product>, lookups: seq<Lookup>, acc: seq<Dto.ProductWithRating>, l: Lookup)
    requires Rated(ps, lookups, acc) && |lookups| < |ps|
    requires RatingLookup(ps[|lookups|].id, l) && l.err.None?
    ensures Rated(ps, lookups + [l], acc + [ConvertProductWithRating(ps[|lookups|], l.rating)])
  {
  }

  /** A walk whose every lookup succeeded: it answers one entry per
      product. */
  lemma WalkDone(ps: seq<Product>, lookups: seq<Lookup>, acc: seq<Dto.ProductWithRating>,
                 d0: map<string, Entry>, d1: map<string, Entry>)
    requires Rated(ps, lookups, acc) && |lookups| == |ps|
    requires ReadsFirstSeen(d0, ps, lookups) && KeepsOutside(d1, d0, Touched(ps[..|ps|]))
    ensures RatingWalk(ps, lookups, d0, d1) && WalkOutcome(ps, lookups, Some(acc), None)
  {
  }

  /** A walk whose prefix was rated and whose next lookup failed: every
      lookup is of its product, all but the last succeeded, and the walk
      answers the failed lookup's error. */
  lemma WalkFailed(ps: seq<Product>, lookups: seq<Lookup>, acc: seq<Dto.ProductWithRating>, l: Lookup,
                   d0: map<string, Entry>, d1: map<string, Entry>)
    requires Rated(ps, lookups, acc) && |lookups| < |ps|
    requires RatingLookup(ps[|lookups|].id, l) && l.err.Some?
    requires ReadsFirstSeen(d0, ps, lookups + [l]) && KeepsOutside(d1, d0, Touched(ps[..|lookups| + 1]))
    ensures RatingWalk(ps, lookups + [l], d0, d1)
    ensures WalkOutcome(ps, lookups + [l], None, Some(Wrapped("getProductRating", l.err.value)))
  {
    var ls := lookups + [l];
    forall i | 0 <= i < |ls| ensures RatingLookup(ps[i].id, ls[i]) {
      if i < |lookups| {
        assert ls[i] == lookups[i];
      } else {
        assert ls[i] == l;
      }
    }
  }

  /** What a rating walk over `ps` that made `lookups` promises while the
      store went from `d0` to `d1`: each lookup is of its product, all but
      the last succeeded, a product's first lookup reads `d0`, and only the
      rating and lock entries of the products looked up changed. */
  ghost predicate RatingWalk(ps: seq<Product>, lookups: seq<Lookup>, d0: map<string, Entry>, d1: map<string, Entry>) {
    && |lookups| <= |ps|
    && (forall i :: 0 <= i < |lookups| ==> RatingLookup(ps[i].id, lookups[i]))
    && (forall i :: 0 <= i < |lookups| - 1 ==> lookups[i].err.None?)
    && ReadsFirstSeen(d0, ps, lookups)
    && KeepsOutside(d1, d0, Touched(ps[..|lookups|]))
  }

  /** The answer of a rating walk: when no lookup failed, one entry per
      product, in order, with its rating; otherwise no entries and the last
      lookup's error, wrapped. */
  ghost predicate WalkOutcome(ps: seq<Product>, lookups: seq<Lookup>,
                              result: Option<seq<Dto.ProductWithRating>>, err: Option<Error>) {
    && (result.Some? <==> err.None?)
    && (err.None? ==>
          && |lookups| == |ps| && |result.value| == |ps|
          && forall i :: 0 <= i < |ps| ==>
               lookups[i].err.None? && result.value[i] == ConvertProductWithRating(ps[i], lookups[i].rating))
    && (err.Some? ==>
          && |lookups| >= 1 && lookups[|lookups| - 1].err.Some?
          && err == Some(Wrapped("getProductRating", lookups[|lookups| - 1].err.value)))
  }

  class DAOManager {
    const dao: Dao
    const cache: RedisCache
    const lock: RedisLock
    ghost var effects: seq<Effect>

    /** The cache and the lock share one store. */
    ghost predicate Valid() {
      lock.store == cache.store
    }

    constructor (dao: Dao, cache: RedisCache, lock: RedisLock)
      requires lock.store == cache.store
      ensures Valid() && effects == []
      ensures this.dao == dao && this.cache == cache && this.lock == lock
    {
      this.dao := dao;
      this.cache := cache;
      this.lock := lock;
      effects := [];
    }

    method CreateProduct(p: Dto.Product) returns (id: ID, err: Option<Error>, ghost daoID: ID, ghost daoErr: Option<Error>)
      modifies this
      ensures effects == old(effects) + [DaoCreateProduct(ModelProduct(0, p), daoID, daoErr)]
      ensures daoErr.None? ==> id == daoID && err.None?
      ensures daoErr.Some? ==> id == 0 && err == Some(Wrapped("dao.CreateProduct", daoErr.value))
    {
      var product := ModelProduct(0, p);
      var newID, e := dao.CreateProduct(product);
      daoID, daoErr := newID, e;
      effects := effects + [DaoCreateProduct(product, newID, e)];
      if e.Some? {
        return 0, Some(Wrapped("dao.CreateProduct", e.value)), daoID, daoErr;
      }
      id, err := newID, None;
    }

    method UpdateProduct(productID: ID, p: Dto.Product) returns (err: Option<Error>, ghost daoErr: Option<Error>)
      modifies this
      ensures effects == old(effects) + [DaoUpdateProduct(ModelProduct(productID, p), daoErr)]
      ensures err == if daoErr.None? then None else Some(Wrapped("dao.UpdateProduct", daoErr.value))
    {
      var product := ModelProduct(productID, p);
      var e := dao.UpdateProduct(product);
      daoErr := e;
      effects := effects + [DaoUpdateProduct(product, e)];
      if e.Some? {
        return Some(Wrapped("dao.UpdateProduct", e.value)), daoErr;
      }
      err := None;
    }

    /** Deletes in the source store; only then invalidates the product's
        cache entries, and only then notifies. */
    method DeleteProduct(productID: ID)
      returns (err: Option<Error>, ghost daoErr: Option<Error>, ghost completed: bool, ghost issued: seq<Command>)
      requires Valid()
      modifies this, cache.store
      ensures Valid()
      ensures effects == old(effects) + [DaoDeleteProduct(productID, daoErr)] +
        (if daoErr.None? then [CacheInvalidate(productID, issued), Notify(Event(productID, 0, Delete))] else [])
      // the context of this wrapping reads "dao.UpdateProduct" in the source
      ensures err == if daoErr.None? then None else Some(Wrapped("dao.UpdateProduct", daoErr.value))
      // a failed delete sends nothing to the cache store
      ensures daoErr.Some? ==> cache.store.data == old(cache.store.data) && cache.store.log == old(cache.store.log)
      // otherwise the invalidation walk's commands, and it is complete
      // exactly when none of them failed
      ensures daoErr.None? ==>
        && cache.store.log == old(cache.store.log) + issued
        && WalkCommands(issued, InvalidationPattern(productID))
        && (completed <==> AllSucceeded(issued))
        && StopsAtFirstFailure(issued)
      ensures forall k :: k in cache.store.data ==> k in old(cache.store.data) && cache.store.data[k] == old(cache.store.data)[k]
      ensures forall k :: k in old(cache.store.data) && !Match(InvalidationPattern(productID), k) ==> k in cache.store.data
      ensures daoErr.None? && completed ==> cache.store.data == Invalidated(old(cache.store.data), productID)
    {
      var e := dao.DeleteProduct(productID);
      daoErr := e;
      effects := effects + [DaoDeleteProduct(productID, e)];
      if e.Some? {
        return Some(Wrapped("dao.UpdateProduct", e.value)), daoErr, false, [];
      }
      completed, issued := cache.InvalidateProduct(productID);
      effects := effects + [CacheInvalidate(productID, issued)];
      effects := effects + [Notify(Event(productID, 0, Delete))];
      err := None;
    }

    /** The part of a lookup that runs while holding the lock: a second
        cache read, then on a miss the source-store read and the cache
        write, then the release. */
    method FillRating(id: ID) returns (rating: Float32, err: Option<Error>, ghost s: seq<Effect>)
      requires Valid()
      modifies this, cache.store
      ensures Valid()
      ensures effects == old(effects) + s
      ensures cache.store.log == old(cache.store.log) + Commands(s)
      ensures FillUnderLock(id, s, rating, err)
      // the read under the lock sees the store as the fill found it
      ensures ReadsOf(old(cache.store.data), id, s[0].result)
      ensures RatingFrame(old(cache.store.data), cache.store.data, id, rating, err)
      ensures s[|s| - 1] == LockRelease(id, s[|s| - 1].err)
      ensures s[|s| - 1].err.None? ==> LockKey(id) !in cache.store.data
      ensures s[|s| - 1].err.Some? ==> Agree(cache.store.data, old(cache.store.data), LockKey(id))
    {
      rating, err, s := ReadOrLoad(id);
      ghost var d1 := cache.store.data;
      var released := lock.Unlock(id);
      LogStep(old(cache.store.log), s, LockRelease(id, released));
      effects := effects + [LockRelease(id, released)];
      s := s + [LockRelease(id, released)];
      FrameThenRelease(old(cache.store.data), d1, cache.store.data, id, rating, err);
    }

    /** The cache read under the lock and, on a miss, the source-store
        read and the cache write of what it returned. */
    method ReadOrLoad(id: ID) returns (rating: Float32, err: Option<Error>, ghost s: seq<Effect>)
      requires Valid()
      modifies this, cache.store`data, cache.store`log
      ensures Valid()
      ensures effects == old(effects) + s
      ensures cache.store.log == old(cache.store.log) + Commands(s)
      ensures FillUnderLock(id, s + [LockRelease(id, None)], rating, err)
      ensures |s| >= 1 && s[0].CacheGetRating? && ReadsOf(old(cache.store.data), id, s[0].result)
      ensures RatingFrame(old(cache.store.data), cache.store.data, id, rating, err)
      ensures Agree(cache.store.data, old(cache.store.data), LockKey(id))
    {
      var second := cache.GetProductRating(id);
      LogFirst(old(cache.store.log), CacheGetRating(id, second));
      effects := effects + [CacheGetRating(id, second)];
      s := [CacheGetRating(id, second)];
      if second.Ok? {
        rating, err := second.value, None;
        return;
      }
      ghost var t;
      rating, err, t := LoadRating(id);
      LogAppend(old(cache.store.log), s, t);
      s := s + t;
    }

    /** The source-store read after a miss under the lock and, when it
        succeeds, the cache write of what it returned. */
    method LoadRating(id: ID) returns (rating: Float32, err: Option<Error>, ghost s: seq<Effect>)
      requires Valid()
      modifies this, cache.store`data, cache.store`log
      ensures Valid()
      ensures effects == old(effects) + s
      ensures cache.store.log == old(cache.store.log) + Commands(s)
      ensures |s| >= 1 && s[0].DaoGetProductRating? && s[0].productID == id
      ensures s[0].err.None? ==>
        && |s| == 2 && s[1].CacheSetRating? && s[1].productID == id && s[1].rating == s[0].rating
        && rating == s[0].rating && err.None?
      ensures s[0].err.Some? ==>
        |s| == 1 && rating == ZeroRating && err == Some(Wrapped("dao.GetProductAverageRating", s[0].err.value))
      ensures RatingFrame(old(cache.store.data), cache.store.data, id, rating, err)
      ensures Agree(cache.store.data, old(cache.store.data), LockKey(id))
    {
      var v, e := dao.GetProductRating(id);
      s := [DaoGetProductRating(id, v, e)];
      effects := effects + s;
      if e.Some? {
        rating, err := ZeroRating, Some(Wrapped("dao.GetProductAverageRating", e.value));
        return;
      }
      ghost var d1 := cache.store.data;
      ghost var stored := cache.SetProductRating(id, v);
      LogFirst(old(cache.store.log), CacheSetRating(id, v, stored));
      CommandsAppend(s, [CacheSetRating(id, v, stored)]);
      effects := effects + [CacheSetRating(id, v, stored)];
      s := s + [CacheSetRating(id, v, stored)];
      rating, err := v, None;
      RatingWriteFrame(d1, cache.store.data, id, v);
    }

    /** What follows a failed Lock is not fixed: the lookup either returns
        the lock error or reads the source store without caching.  Either
        way the cache store is not touched. */
    method AfterLockFailure(id: ID, lockErr: Error) returns (rating: Float32, err: Option<Error>, ghost s: seq<Effect>)
      modifies this
      ensures effects == old(effects) + s
      ensures Commands(s) == []
      ensures s == [] ==> rating == ZeroRating && err == Some(lockErr)
      ensures s != [] ==> |s| == 1 && s[0].DaoGetProductRating? && s[0].productID == id
      ensures s != [] && s[0].err.None? ==> rating == s[0].rating && err.None?
      ensures s != [] && s[0].err.Some? ==>
        rating == ZeroRating && err == Some(Wrapped("dao.GetProductAverageRating", s[0].err.value))
    {
      var direct: bool :| true;
      if direct {
        var v, e := dao.GetProductRating(id);
        effects := effects + [DaoGetProductRating(id, v, e)];
        s := [DaoGetProductRating(id, v, e)];
        assert s == [] + [DaoGetProductRating(id, v, e)];
        if e.Some? {
          rating, err := ZeroRating, Some(Wrapped("dao.GetProductAverageRating", e.value));
        } else {
          rating, err := v, None;
        }
      } else {
        s := [];
        rating, err := ZeroRating, Some(lockErr);
      }
    }

    /** getProductRating: read-through with a lock around the fill. */
    method GetProductRating(id: ID) returns (rating: Float32, err: Option<Error>, ghost lookup: Lookup)
      requires Valid()
      modifies this, cache.store
      ensures Valid()
      ensures lookup.rating == rating && lookup.err == err
      ensures effects == old(effects) + lookup.effects
      ensures cache.store.log == old(cache.store.log) + Commands(lookup.effects)
      ensures RatingLookup(id, lookup)
      // both cache reads see the store as the lookup found it
      ensures ReadsStore(old(cache.store.data), id, lookup.effects)
      ensures RatingFrame(old(cache.store.data), cache.store.data, id, rating, err)
      // a lock held by someone else is left alone; a lock taken here is
      // released unless the release itself fails
      ensures LockKey(id) in old(cache.store.data) ==> Agree(cache.store.data, old(cache.store.data), LockKey(id))
      ensures LockKey(id) !in old(cache.store.data) && LockKey(id) in cache.store.data ==>
        lookup.effects[|lookup.effects| - 1].LockRelease? && lookup.effects[|lookup.effects| - 1].err.Some?
    {
      var first := cache.GetProductRating(id);
      effects := effects + [CacheGetRating(id, first)];
      if first.Ok? {
        LogFirst(old(cache.store.log), CacheGetRating(id, first));
        return first.value, None, Lookup([CacheGetRating(id, first)], first.value, None);
      }
      rating, err, lookup := Miss(id, first, old(effects), old(cache.store.log));
      assert lookup.effects[0].result == first;
    }

    /** Everything a lookup does after a cache miss, from the Lock call on. */
    method Miss(id: ID, ghost first: Result<Float32>, ghost e0: seq<Effect>, ghost log0: seq<Command>)
      returns (rating: Float32, err: Option<Error>, ghost lookup: Lookup)
      requires Valid() && !first.Ok? && ReadsOf(cache.store.data, id, first)
      requires effects == e0 + [CacheGetRating(id, first)]
      requires cache.store.log == log0 + StoreCommands(CacheGetRating(id, first))
      modifies this, cache.store
      ensures Valid()
      ensures lookup.rating == rating && lookup.err == err
      ensures effects == e0 + lookup.effects
      ensures cache.store.log == log0 + Commands(lookup.effects)
      ensures RatingLookup(id, lookup)
      ensures ReadsStore(old(cache.store.data), id, lookup.effects) && lookup.effects[0].result == first
      ensures RatingFrame(old(cache.store.data), cache.store.data, id, rating, err)
      ensures LockKey(id) in old(cache.store.data) ==> Agree(cache.store.data, old(cache.store.data), LockKey(id))
      ensures LockKey(id) !in old(cache.store.data) && LockKey(id) in cache.store.data ==>
        lookup.effects[|lookup.effects| - 1].LockRelease? && lookup.effects[|lookup.effects| - 1].err.Some?
    {
      ghost var acquire, after;
      rating, err, acquire, after := AfterMiss(id);
      lookup := Lookup([CacheGetRating(id, first)] + ([acquire] + after), rating, err);
      MissThenRest(id, first, acquire, after, rating, err, old(cache.store.data));
      ThreeParts(log0, e0, CacheGetRating(id, first), acquire, after);
    }

    /** A lookup after a first cache miss: take the lock, then either the
        fill under it or whatever follows a failed Lock. */
    method AfterMiss(id: ID) returns (rating: Float32, err: Option<Error>, ghost acquire: Effect, ghost after: seq<Effect>)
      requires Valid()
      modifies this, cache.store
      ensures Valid()
      ensures effects == old(effects) + [acquire] + after
      ensures cache.store.log == old(cache.store.log) + StoreCommands(acquire) + Commands(after)
      ensures LockRecord(acquire, id)
      ensures acquire.err.None? ==> FillUnderLock(id, after, rating, err)
      // the lock entry is not the rating entry: the read under the lock
      // sees the rating as the lookup found it
      ensures acquire.err.None? ==> ReadsOf(old(cache.store.data), id, after[0].result)
      ensures RatingFrame(old(cache.store.data), cache.store.data, id, rating, err)
      ensures LockKey(id) in old(cache.store.data) ==> Agree(cache.store.data, old(cache.store.data), LockKey(id))
      ensures LockKey(id) !in old(cache.store.data) && LockKey(id) in cache.store.data ==>
        |after| > 0 && after[|after| - 1].LockRelease? && after[|after| - 1].err.Some?
    {
      var lockErr;
      ghost var d1 := cache.store.data;
      lockErr, acquire := Acquire(id);
      if lockErr.Some? {
        rating, err, after := AfterLockFailure(id, lockErr.value);
        assert cache.store.data == d1;
        return;
      }
      assert LockKey(id) !in d1;
      ghost var d2 := cache.store.data;
      rating, err, after := FillRating(id);
      FrameAfterLock(d1, d2, cache.store.data, id, rating, err);
    }

    /** Lock of product `id`, logged: only the lock entry may change, and
        a lock another client holds is never taken. */
    method Acquire(id: ID) returns (lockErr: Option<Error>, ghost e: Effect)
      requires Valid()
      modifies this, cache.store`data, cache.store`log
      ensures Valid()
      ensures LockRecord(e, id) && e.err == lockErr
      ensures effects == old(effects) + [e]
      ensures cache.store.log == old(cache.store.log) + StoreCommands(e)
      ensures forall k :: k != LockKey(id) ==> Agree(cache.store.data, old(cache.store.data), k)
      ensures lockErr.Some? ==> cache.store.data == old(cache.store.data)
      ensures lockErr.None? ==> cache.store.data == old(cache.store.data)[LockKey(id) := Entry(Sentinel, LockTtl)]
      ensures LockKey(id) in old(cache.store.data) ==> lockErr.Some?
    {
      ghost var attempts, waits;
      lockErr, attempts, waits := lock.Lock(id);
      e := LockAcquire(id, lockErr, attempts);
      effects := effects + [e];
    }

    /** A product without a rating lookup when the source store has none. */
    method GetProduct(productID: ID)
      returns (product: Option<Dto.ProductWithRating>, err: Option<Error>,
               ghost found: Option<Product>, ghost daoErr: Option<Error>, ghost lookup: Lookup)
      requires Valid()
      modifies this, cache.store
      ensures Valid()
      ensures daoErr.Some? || found.None? ==>
        effects == old(effects) + [DaoGetProduct(productID, found, daoErr)] &&
        cache.store.data == old(cache.store.data) && cache.store.log == old(cache.store.log)
      ensures daoErr.Some? ==> product.None? && err == Some(Wrapped("dao.GetProduct", daoErr.value))
      ensures daoErr.None? && found.None? ==> product.None? && err.None?
      ensures daoErr.None? && found.Some? ==>
        && effects == old(effects) + [DaoGetProduct(productID, found, daoErr)] + lookup.effects
        && RatingLookup(found.value.id, lookup)
        && ReadsStore(old(cache.store.data), found.value.id, lookup.effects)
        && cache.store.log == old(cache.store.log) + Commands(lookup.effects)
        && RatingFrame(old(cache.store.data), cache.store.data, found.value.id, lookup.rating, lookup.err)
        && (lookup.err.Some? ==> product.None? && err == Some(Wrapped("getProductRating", lookup.err.value)))
        && (lookup.err.None? ==> product == Some(ConvertProductWithRating(found.value, lookup.rating)) && err.None?)
    {
      var p, e := dao.GetProduct(productID);
      found, daoErr := p, e;
      effects := effects + [DaoGetProduct(productID, p, e)];
      lookup := Lookup([], ZeroRating, None);
      if e.Some? {
        return None, Some(Wrapped("dao.GetProduct", e.value)), found, daoErr, lookup;
      }
      if p.None? {
        return None, None, found, daoErr, lookup;
      }
      var rating, rerr;
      rating, rerr, lookup := GetProductRating(p.value.id);
      if rerr.Some? {
        return None, Some(Wrapped("getProductRating", rerr.value)), found, daoErr, lookup;
      }
      product, err := Some(ConvertProductWithRating(p.value, rating)), None;
    }

    /** The rating walk of ListProducts: one lookup per product, in order,
        stopping at the first failed one. */
    method RateProducts(ps: seq<Product>)
      returns (result: Option<seq<Dto.ProductWithRating>>, err: Option<Error>, ghost lookups: seq<Lookup>)
      requires Valid()
      modifies this, cache.store
      ensures Valid()
      ensures effects == old(effects) + Flatten(lookups)
      ensures cache.store.log == old(cache.store.log) + Commands(Flatten(lookups))
      ensures RatingWalk(ps, lookups, old(cache.store.data), cache.store.data)
      ensures WalkOutcome(ps, lookups, result, err)
    {
      lookups := [];
      var acc: seq<Dto.ProductWithRating> := [];
      for i := 0 to |ps|
        invariant Valid()
        invariant |lookups| == i && Rated(ps, lookups, acc)
        invariant effects == old(effects) + Flatten(lookups)
        invariant cache.store.log == old(cache.store.log) + Commands(Flatten(lookups))
        invariant KeepsOutside(cache.store.data, old(cache.store.data), Touched(ps[..i]))
        invariant ReadsFirstSeen(old(cache.store.data), ps, lookups)
      {
        var rating, rerr;
        ghost var l;
        rating, rerr, l := RateNext(ps, i, lookups, old(effects), old(cache.store.log), old(cache.store.data));
        if rerr.Some? {
          WalkFailed(ps, lookups, acc, l, old(cache.store.data), cache.store.data);
          return None, Some(Wrapped("getProductRating", rerr.value)), lookups + [l];
        }
        RatedStep(ps, lookups, acc, l);
        lookups := lookups + [l];
        acc := acc + [ConvertProductWithRating(ps[i], rating)];
      }
      WalkDone(ps, lookups, acc, old(cache.store.data), cache.store.data);
      result, err := Some(acc), None;
    }

    /** The lookup of product `i` of the walk; the walk's frame then
        covers one more product. */
    method RateNext(ps: seq<Product>, i: nat, ghost ls: seq<Lookup>,
                    ghost e0: seq<Effect>, ghost log0: seq<Command>, ghost d0: map<string, Entry>)
      returns (rating: Float32, err: Option<Error>, ghost l: Lookup)
      requires Valid() && i < |ps|
      requires effects == e0 + Flatten(ls)
      requires cache.store.log == log0 + Commands(Flatten(ls))
      requires KeepsOutside(cache.store.data, d0, Touched(ps[..i]))
      requires |ls| == i && ReadsFirstSeen(d0, ps, ls)
      modifies this, cache.store
      ensures Valid()
      ensures l.rating == rating && l.err == err
      ensures effects == e0 + Flatten(ls + [l])
      ensures cache.store.log == log0 + Commands(Flatten(ls + [l]))
      ensures RatingLookup(ps[i].id, l)
      ensures ReadsStore(old(cache.store.data), ps[i].id, l.effects)
      ensures ReadsFirstSeen(d0, ps, ls + [l])
      ensures KeepsOutside(cache.store.data, d0, Touched(ps[..i + 1]))
    {
      ghost var d1 := cache.store.data;
      rating, err, l := GetProductRating(ps[i].id);
      ReadsFirstSeenStep(d0, d1, ps, ls, l);
      TouchedStep(ps, i);
      FrameAccumulate(d0, d1, cache.store.data, Touched(ps[..i]), ps[i].id, rating, err);
      FlattenAppend(e0, ls, l);
      LogAppend(log0, Flatten(ls), l.effects);
    }

    /** One entry per product the source store lists, in its order, each
        with that product's rating; the first failed lookup ends the walk
        with no result. */
    method ListProducts(offset: int, limit: int)
      returns (result: Option<seq<Dto.ProductWithRating>>, err: Option<Error>,
               ghost products: seq<Product>, ghost daoErr: Option<Error>, ghost lookups: seq<Lookup>)
      requires Valid()
      modifies this, cache.store
      ensures Valid()
      ensures result.Some? <==> err.None?
      ensures daoErr.Some? ==>
        && effects == old(effects) + [DaoListProducts(offset, limit, products, daoErr)]
        && err == Some(Wrapped("dao.ListProducts", daoErr.value))
        && cache.store.data == old(cache.store.data) && cache.store.log == old(cache.store.log)
      ensures daoErr.None? ==>
        && effects == old(effects) + [DaoListProducts(offset, limit, products, daoErr)] + Flatten(lookups)
        && cache.store.log == old(cache.store.log) + Commands(Flatten(lookups))
        && RatingWalk(products, lookups, old(cache.store.data), cache.store.data)
        && WalkOutcome(products, lookups, result, err)
    {
      var ps, e := dao.ListProducts(offset, limit);
      products, daoErr := ps, e;
      effects := effects + [DaoListProducts(offset, limit, ps, e)];
      if e.Some? {
        return None, Some(Wrapped("dao.ListProducts", e.value)), products, daoErr, [];
      }
      result, err, lookups := RateProducts(ps);
    }

    /** Creates in the source store, then notifies with the new identity. */
    method CreateProductReview(productID: ID, r: Dto.Review)
      returns (id: ID, err: Option<Error>, ghost daoID: ID, ghost daoErr: Option<Error>)
      modifies this
      ensures effects == old(effects) + [DaoCreateProductReview(ModelReview(0, productID, r), daoID, daoErr)] +
        (if daoErr.None? then [Notify(Event(productID, daoID, Create))] else [])
      ensures daoErr.None? ==> id == daoID && err.None?
      ensures daoErr.Some? ==> id == 0 && err == Some(Wrapped("dao.CreateProductReview", daoErr.value))
    {
      var review := ModelReview(0, productID, r);
      var newID, e := dao.CreateProductReview(review);
      daoID, daoErr := newID, e;
      effects := effects + [DaoCreateProductReview(review, newID, e)];
      if e.Some? {
        return 0, Some(Wrapped("dao.CreateProductReview", e.value)), daoID, daoErr;
      }
      effects := effects + [Notify(Event(productID, newID, Create))];
      id, err := newID, None;
    }

    method UpdateProductReview(productID: ID, reviewID: ID, r: Dto.Review)
      returns (err: Option<Error>, ghost daoErr: Option<Error>)
      modifies this
      ensures effects == old(effects) + [DaoUpdateProductReview(ModelReview(reviewID, productID, r), daoErr)] +
        (if daoErr.None? then [Notify(Event(productID, reviewID, Update))] else [])
      ensures err == if daoErr.None? then None else Some(Wrapped("dao.UpdateProductReview", daoErr.value))
    {
      var review := ModelReview(reviewID, productID, r);
      var e := dao.UpdateProductReview(review);
      daoErr := e;
      effects := effects + [DaoUpdateProductReview(review, e)];
      if e.Some? {
        return Some(Wrapped("dao.UpdateProductReview", e.value)), daoErr;
      }
      effects := effects + [Notify(Event(productID, reviewID, Update))];
      err := None;
    }

    method DeleteProductReview(productID: ID, reviewID: ID) returns (err: Option<Error>, ghost daoErr: Option<Error>)
      modifies this
      ensures effects == old(effects) + [DaoDeleteProductReview(productID, reviewID, daoErr)] +
        (if daoErr.None? then [Notify(Event(productID, reviewID, Delete))] else [])
      ensures err == if daoErr.None? then None else Some(Wrapped("dao.DeleteProductReview", daoErr.value))
    {
      var e := dao.DeleteProductReview(productID, reviewID);
      daoErr := e;
      effects := effects + [DaoDeleteProductReview(productID, reviewID, e)];
      if e.Some? {
        return Some(Wrapped("dao.DeleteProductReview", e.value)), daoErr;
      }
      effects := effects + [Notify(Event(productID, reviewID, Delete))];
      err := None;
    }

    method GetProductReview(productID: ID, reviewID: ID)
      returns (review: Option<Dto.Review>, err: Option<Error>, ghost found: Option<Review>, ghost daoErr: Option<Error>)
      modifies this
      ensures effects == old(effects) + [DaoGetProductReview(productID, reviewID, found, daoErr)]
      ensures daoErr.Some? ==> review.None? && err == Some(Wrapped("dao.GetProductReview", daoErr.value))
      ensures daoErr.None? ==> err.None? && review == if found.None? then None else Some(ConvertReview(found.value))
    {
      var r, e := dao.GetProductReview(productID, reviewID);
      found, daoErr := r, e;
      effects := effects + [DaoGetProductReview(productID, reviewID, r, e)];
      if e.Some? {
        return None, Some(Wrapped("dao.GetProductReview", e.value)), found, daoErr;
      }
      if r.None? {
        return None, None, found, daoErr;
      }
      review, err := Some(ConvertReview(r.value)), None;
    }

    /** One converted review per review the source store lists, in order. */
    method ListProductReviews(productID: ID, offset: int, limit: int)
      returns (result: Option<seq<Dto.Review>>, err: Option<Error>, ghost reviews: seq<Review>, ghost daoErr: Option<Error>)
      modifies this
      ensures effects == old(effects) + [DaoListProductReviews(productID, offset, limit, reviews, daoErr)]
      ensures daoErr.Some? ==> result.None? && err == Some(Wrapped("dao.ListProductReviews", daoErr.value))
      ensures daoErr.None? ==>
        && err.None? && result.Some? && |result.value| == |reviews|
        && forall i :: 0 <= i < |reviews| ==> result.value[i] == ConvertReview(reviews[i])
    {
      var rs, e := dao.ListProductReviews(productID, offset, limit);
      reviews, daoErr := rs, e;
      effects := effects + [DaoListProductReviews(productID, offset, limit, rs, e)];
      if e.Some? {
        return None, Some(Wrapped("dao.ListProductReviews", e.value)), reviews, daoErr;
      }
      var acc: seq<Dto.Review> := [];
      for i := 0 to |rs|
        invariant |acc| == i
        invariant forall j :: 0 <= j < i ==> acc[j] == ConvertReview(rs[j])
      {
        acc := acc + [ConvertReview(rs[i])];
      }
      result, err := Some(acc), None;
    }
  }
}
