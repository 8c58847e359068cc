/** The "no value" outcome that the pipeline produces whenever it catches an
    exception, prints it and falls off the end of the method. */
module Wrappers {

  datatype Option<+T> = None | Some(value: T)
}
