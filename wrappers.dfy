/** Optional values: the nullable state cells and the outcome of a barcode lookup. */
module Wrappers {

  /** `None` stands for JavaScript's null (and for a lookup that failed). */
  datatype Option<+T> = None | Some(value: T)
}
