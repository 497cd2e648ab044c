/** What several modules share. */
module Wrappers {

  datatype Option<T> = None | Some(value: T)
}

/** What the lines of an event stream are made of. */
module EventStream {

  const LF: char := '\n'

  const DATA: string := "data: "

  const DONE: string := "[DONE]"

  datatype Usage = Usage(prompt: int, completion: int, total: int)
}
