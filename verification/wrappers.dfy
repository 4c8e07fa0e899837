/** The optional value the page keeps where the source uses `null`
    (the stored strategy) and where an action may produce nothing
    (a request not issued, a download not offered). */
module Wrappers {

  datatype Option<+T> = None | Some(value: T)
}
