/**
 * An optional value: the host `net.SplitHostPort` yields, or a template
 * engine's output; `None` for a failure.
 */
module Wrappers {

  datatype Option<+T> = None | Some(value: T)
}
