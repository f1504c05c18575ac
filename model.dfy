/** The persistence-side records of the catalog (package `model`). */
module Model {

  /** model.ID: a Go `int`. */
  type ID = int

  /** A Go `float32`, kept opaque: the model never computes with ratings,
      it only copies, stores and compares them.  The field is the IEEE-754
      bit pattern. */
  datatype Float32 = Float32(bits: bv32)

  /** The `float32` zero value that Go returns beside an error. */
  const ZeroRating: Float32 := Float32(0)

  datatype Product = Product(
    id: ID,
    name: string,
    description: string,
    price: int)            // model.PriceInCents

  datatype Review = Review(
    id: ID,
    productID: ID,
    firstName: string,
    lastName: string,
    review: string,
    rating: int)           // model.Rating
}
