/** Results of operations that may be refused. */
module Wrappers {

  datatype Option<+T> = None | Some(value: T)

  /** The error classes the repositories raise. */
  datatype Fault =
    | LeaseLost | LeaseUnavailable | NotFound | Conflict | Invalid | Integrity | KeyReused

  datatype Result<+T> = Ok(value: T) | Err(fault: Fault) {
    predicate IsFailure() { Err? }

    function PropagateFailure<U>(): Result<U>
      requires Err?
    {
      Err(fault)
    }

    function Extract(): T
      requires Ok?
    {
      value
    }
  }

  datatype Check = Granted | Refuse(fault: Fault) {
    predicate IsFailure() { Refuse? }

    function PropagateFailure<U>(): Result<U>
      requires Refuse?
    {
      Err(fault)
    }
  }

  function Need(cond: bool, fault: Fault): Check {
    if cond then Granted else Refuse(fault)
  }
}
