/** Random identifiers. Where a draw must be new, the caller of the model says so. */
module Uuids {
  type Uuid = nat
}
