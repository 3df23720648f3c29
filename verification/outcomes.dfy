/** Option and Result: the outcome of a call that may fail. A collaborator that raises
    is modelled as `Err(text)`, where `text` is what `str(e)` of the exception yields. */
module Outcomes {

  datatype Option<+T> = None | Some(value: T)

  datatype Result<+T, +E> = Ok(value: T) | Err(error: E)
}
