/** StubManager: the fixed-data test double the HTTP layer's tests use.
    It only reads the lengths of its two slices and indexes them 1-based;
    no method assigns a field, so the manager is a value here. */
module Stub {
  import opened Errors
  import opened Model
  import Dto

  /** The error every bounds check reports. */
  const NotFoundError := Message("not found")

  datatype StubManager = StubManager(products: seq<Dto.ProductWithRating>, reviews: seq<Dto.Review>) {

    /** A new product's identity is one past the last one held. */
    function CreateProduct(p: Dto.Product): (r: (ID, Option<Error>))
      ensures r.1.None? && r.0 == |products| + 1
    {
      (|products| + 1, None)
    }

    function UpdateProduct(productID: ID, p: Dto.Product): (err: Option<Error>)
      ensures err.Some? <==> productID > |products|
      ensures err.Some? ==> err == Some(NotFoundError)
    {
      if productID > |products| then Some(NotFoundError) else None
    }

    function DeleteProduct(productID: ID): (err: Option<Error>)
      ensures err.Some? <==> productID > |products|
      ensures err.Some? ==> err == Some(NotFoundError)
    {
      if productID > |products| then Some(NotFoundError) else None
    }

    /** A product past the end is no product (and no error); any other
        identity must be at least 1, since it indexes the slice. */
    function GetProduct(productID: ID): (r: (Option<Dto.ProductWithRating>, Option<Error>))
      requires productID > |products| || productID >= 1
      ensures r.1.None?
      ensures r.0.None? <==> productID > |products|
      ensures r.0.Some? ==> 1 <= productID <= |products| && r.0.value == products[productID - 1]
    {
      if productID > |products| then (None, None) else (Some(products[productID - 1]), None)
    }

    /** The whole slice, whatever the page asked for. */
    function ListProducts(offset: int, limit: int): (r: (seq<Dto.ProductWithRating>, Option<Error>))
      ensures r.1.None? && r.0 == products
    {
      (products, None)
    }

    function CreateProductReview(productID: ID, review: Dto.Review): (r: (ID, Option<Error>))
      ensures r.1.None? && r.0 == |reviews| + 1
    {
      (|reviews| + 1, None)
    }

    /** The product bound is checked before the review bound. */
    function DeleteProductReview(productID: ID, reviewID: ID): (err: Option<Error>)
      ensures err.Some? <==> productID > |products| || reviewID > |reviews|
      ensures err.Some? ==> err == Some(NotFoundError)
    {
      if productID > |products| then Some(NotFoundError)
      else if reviewID > |reviews| then Some(NotFoundError)
      else None
    }

    function UpdateProductReview(productID: ID, reviewID: ID, review: Dto.Review): (err: Option<Error>)
      ensures err.Some? <==> productID > |products| || reviewID > |reviews|
      ensures err.Some? ==> err == Some(NotFoundError)
    {
      if productID > |products| then Some(NotFoundError)
      else if reviewID > |reviews| then Some(NotFoundError)
      else None
    }

    /** A review is looked up by its own identity alone, once the product
        identity is in range. */
    function GetProductReview(productID: ID, reviewID: ID): (r: (Option<Dto.Review>, Option<Error>))
      requires productID > |products| || reviewID > |reviews| || reviewID >= 1
      ensures r.1.None?
      ensures r.0.None? <==> productID > |products| || reviewID > |reviews|
      ensures r.0.Some? ==> 1 <= reviewID <= |reviews| && r.0.value == reviews[reviewID - 1]
    {
      if productID > |products| then (None, None)
      else if reviewID > |reviews| then (None, None)
      else (Some(reviews[reviewID - 1]), None)
    }

    function ListProductReviews(productID: ID, offset: int, limit: int): (r: (seq<Dto.Review>, Option<Error>))
      ensures r.1.None? && r.0 == reviews
    {
      (reviews, None)
    }
  }

  /** The identity CreateProduct hands out is not yet taken, and every
      identity below it is. */
  lemma CreatedProductIsFresh(s: StubManager, p: Dto.Product)
    ensures s.GetProduct(s.CreateProduct(p).0).0.None?
    ensures forall id :: 1 <= id < s.CreateProduct(p).0 ==> s.GetProduct(id).0.Some?
  {
  }

  lemma CreatedReviewIsFresh(s: StubManager, productID: ID, r: Dto.Review)
    ensures s.GetProductReview(productID, s.CreateProductReview(productID, r).0).0.None?
    ensures forall id :: 1 <= id < s.CreateProductReview(productID, r).0 ==>
      s.GetProductReview(productID, id).0.Some? || productID > |s.products|
  {
  }

  /** For every identity GetProduct accepts, Update and Delete succeed
      exactly when GetProduct finds the product. */
  lemma WritesSucceedOnFoundProducts(s: StubManager, productID: ID, p: Dto.Product)
    requires productID >= 1
    ensures s.UpdateProduct(productID, p).None? <==> s.GetProduct(productID).0.Some?
    ensures s.DeleteProduct(productID).None? <==> s.GetProduct(productID).0.Some?
  {
  }

  lemma ReviewWritesSucceedOnFoundReviews(s: StubManager, productID: ID, reviewID: ID, r: Dto.Review)
    requires reviewID >= 1
    ensures s.UpdateProductReview(productID, reviewID, r).None? <==> s.GetProductReview(productID, reviewID).0.Some?
    ensures s.DeleteProductReview(productID, reviewID).None? <==> s.GetProductReview(productID, reviewID).0.Some?
  {
  }

  /** Two in-range product identities give the same review. */
  lemma ReviewLookupIgnoresProduct(s: StubManager, p: ID, q: ID, reviewID: ID)
    requires p <= |s.products| && q <= |s.products|
    requires reviewID > |s.reviews| || reviewID >= 1
    ensures s.GetProductReview(p, reviewID) == s.GetProductReview(q, reviewID)
  {
  }

  /** The listing and the lookup agree: the i-th listed product is product i+1. */
  lemma ListAgreesWithGet(s: StubManager, offset: int, limit: int)
    ensures forall i :: 0 <= i < |s.ListProducts(offset, limit).0| ==>
      s.GetProduct(i + 1).0 == Some(s.ListProducts(offset, limit).0[i])
  {
  }

  lemma ReviewListAgreesWithGet(s: StubManager, productID: ID, offset: int, limit: int)
    requires productID <= |s.products|
    ensures forall i :: 0 <= i < |s.ListProductReviews(productID, offset, limit).0| ==>
      s.GetProductReview(productID, i + 1).0 == Some(s.ListProductReviews(productID, offset, limit).0[i])
  {
  }
}
