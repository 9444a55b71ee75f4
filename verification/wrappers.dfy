/** Optional values: the engine's "may be absent" inputs (a dose, a sleep
    duration, a confidence, a request parameter). */
module Wrappers {

  datatype Option<+T> = None | Some(value: T)
}
