/** The optional values of the source (`String?`, `CompanyDetails?`, `readLine()`'s result). */
module Wrappers {

  datatype Option<+T> = None | Some(value: T)
}
