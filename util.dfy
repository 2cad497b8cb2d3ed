/** Small shared definitions: the nullable value of TypeScript (`T | null`) as an Option. */
module Util {

  /** `null` is None; a present value is Some. */
  datatype Option<T> = None | Some(value: T)
}
