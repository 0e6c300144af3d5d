/** The pages' select filters: a filter holds either the word "Tous",
    meaning no filter, or the one value it lets through. */
module Filters {

  /** The value of a select filter that means "no filter". */
  const Tous: string := "Tous"

  /** A select filter lets `value` through: it is off, or it names `value`. */
  predicate FilterAdmits(filter: string, value: string) {
    filter == Tous || value == filter
  }
}
