/** Values that stand for the collaborators the status provider calls but does
    not own: an optional value, the exception a call may throw, and the outcome
    of one call (it returns a value or it throws). */
module Outcomes {

  datatype Option<+T> = None | Some(value: T)

  /** A .NET exception, seen only through what `ToString()` renders for it. */
  datatype Exception = Exception(text: string)

  /** What one call into a query handler or into the serializer does. */
  datatype Outcome<+T> = Returned(value: T) | Threw(error: Exception)

  /** The exceptions thrown by a sequence of calls, in call order. */
  function Failures<T>(outs: seq<Outcome<T>>): (es: seq<Exception>)
    ensures |es| <= |outs|
    ensures (forall i :: 0 <= i < |outs| ==> outs[i].Returned?) <==> es == []
  {
    if outs == [] then []
    else (if outs[0].Threw? then [outs[0].error] else []) + Failures(outs[1..])
  }
}
