/** Failure-compatible outcome types shared by every part of the pipeline.
    Every external read or write is an oracle that either yields a value or
    fails; `Fault` names the ways the JavaScript code can reject. */
module Outcomes {

  /** Why an awaited call rejected. */
  datatype Fault =
    | CallFailed               // a chain read reverted or the transport failed
    | NotAFunction(name: string)  // the method is not declared in the contract's ABI (TypeError)
    | DivisionByZero           // BigInt division by 0n throws a RangeError
    | MixedTypes               // a BigInt and a Number in one `*` or `/` throw a TypeError
    | HttpFailed               // the reputation API request failed
    | TxRejected               // the state-changing call was not accepted
    | TxFailed                 // the transaction was accepted but its confirmation failed

  datatype Option<+T> = None | Some(value: T)

  datatype Result<+T> = Ok(value: T) | Err(fault: Fault) {
    predicate IsFailure() { Err? }

    function PropagateFailure<U>(): Result<U>
      requires Err?
    {
      Err(fault)
    }

    function Extract(): T
      requires Ok?
    {
      value
    }
  }
}
