/** The request/response records of the catalog (package `dto`). */
module Dto {
  import opened Model

  datatype Product = Product(
    id: ID,
    name: string,
    description: string,
    price: int)

  /** dto.ProductWithRating embeds dto.Product and adds the average rating. */
  datatype ProductWithRating = ProductWithRating(product: Product, rating: Float32)

  /** A review as the API shows it: it carries no product identity. */
  datatype Review = Review(
    id: ID,
    firstName: string,
    lastName: string,
    review: string,
    rating: int)
}
