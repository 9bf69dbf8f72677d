/** The retreat record both listing views receive from the backend (type `Retreat`). */
module Listing {
  import opened Wrappers

  /**
   * `price` is decimal text and `date` a date string, both shown as received.
   * `ctaLink`/`ctaText` exist only in the overlay view's copy of the type.
   */
  datatype Retreat = Retreat(
    id: int,
    title: string,
    description: string,
    date: string,
    location: string,
    price: string,
    retreatType: string,
    condition: string,
    image: string,
    duration: int,
    tags: seq<string>,
    ctaLink: Option<string>,
    ctaText: Option<string>)
}
