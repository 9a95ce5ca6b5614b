/** The optional value used wherever the workspace keeps JavaScript `null`
    (no current file, no running process, no preview address). */
module Wrappers {

  datatype Option<+T> = None | Some(value: T)
}
