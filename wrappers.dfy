/** Small value wrappers shared by the SideNav model. */
module Wrappers {

  /** A TypeScript optional value: `undefined` is None. */
  datatype Option<+T> = None | Some(value: T)

  /** The settled outcome of an awaited remote call: the value it resolved
      with, or a rejection (network error, malformed response). */
  datatype Fetch<+T> = Resolved(value: T) | Rejected
}
