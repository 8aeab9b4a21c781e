/** Optional values and the numeric text inputs of the forms. */
module Wrappers {
  /** A field that may be absent (`notes?: string`) or a nullable piece of state. */
  datatype Option<T> = None | Some(value: T)

  /**
   * A price input: empty text, or text holding a number. Text that does not
   * parse as a number is not modelled.
   */
  datatype PriceField = Blank | Typed(value: real)

  /** The price check of a save, `!price || Number(price) <= 0` negated: a price was entered and it is positive. */
  predicate PriceAccepted(price: PriceField) {
    price.Typed? && price.value > 0.0
  }
}
