/** The optional-value wrapper standing in for the source's `number | null` inputs. */
module Wrappers {

  /** `None` plays the part of a `null` form field; `Some(v)` holds a filled-in integer. */
  datatype Option<+T> = None | Some(value: T)
}
