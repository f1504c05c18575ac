/** The source store (database.DAO) as the manager sees it: an abstract
    collaborator whose every call may return any result.  Review reads and
    deletes take the (productID, reviewID) pair, as the manager calls them. */
module Dao {
  import opened Errors
  import opened Model

  class Dao {
    constructor () {}

    method CreateProduct(p: Product) returns (id: ID, err: Option<Error>) {
      id, err :| true;
    }

    method UpdateProduct(p: Product) returns (err: Option<Error>) {
      err :| true;
    }

    method DeleteProduct(id: ID) returns (err: Option<Error>) {
      err :| true;
    }

    method GetProduct(id: ID) returns (p: Option<Product>, err: Option<Error>) {
      p, err :| true;
    }

    method GetProductRating(id: ID) returns (rating: Float32, err: Option<Error>) {
      rating, err :| true;
    }

    method ListProducts(offset: int, limit: int) returns (ps: seq<Product>, err: Option<Error>) {
      ps, err :| true;
    }

    method CreateProductReview(r: Review) returns (id: ID, err: Option<Error>) {
      id, err :| true;
    }

    method UpdateProductReview(r: Review) returns (err: Option<Error>) {
      err :| true;
    }

    method DeleteProductReview(productID: ID, reviewID: ID) returns (err: Option<Error>) {
      err :| true;
    }

    method GetProductReview(productID: ID, reviewID: ID) returns (r: Option<Review>, err: Option<Error>) {
      r, err :| true;
    }

    method ListProductReviews(productID: ID, offset: int, limit: int) returns (rs: seq<Review>, err: Option<Error>) {
      rs, err :| true;
    }
  }
}
