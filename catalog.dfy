/**
 * The static tour catalogue the front end bundles (`categories.json`): a list of categories,
 * each with its tours. The category pages, the search overlay and the admin dashboard read it.
 */
module Catalog {
  import opened Wrappers

  /** A tour entry; `description` and `oldPrice` may be missing from the JSON object. */
  datatype CatalogTour = CatalogTour(
    id: string, name: string, country: string, image: string, description: Option<string>,
    days: real, price: real, oldPrice: Option<real>, rating: real, reviews: int)

  /** A category entry with its tours in catalogue order. */
  datatype CatalogCategory = CatalogCategory(id: string, name: string, tours: seq<CatalogTour>)
}
