/** Shared value types of the order backend: identifiers, money, dates, the
    application's Result type and an Outcome type that stands for a call that
    either returns or throws. */
module Common {

  /** A GUID. The all-zero GUID (Guid.Empty) is 0. */
  type Guid = int
  const EmptyGuid: Guid := 0

  /** C# decimal: exact base-10 arithmetic, so an exact real. */
  type Money = real

  /** A calendar day number; AddDays(n) is + n. */
  type Day = int

  datatype Option<+T> = None | Some(value: T) {
    function GetOr(default: T): T {
      match this
      case Some(v) => v
      case None => default
    }
  }

  /** The application's Result<T>: a value, or the list of error messages. */
  datatype Result<+T> = Success(data: T) | Failure(errors: seq<string>)

  /** The exceptions the modelled code can raise or let through. */
  datatype Exception =
    | InvalidOperation(message: string)      // InvalidOperationException
    | DbUpdate(message: string)              // a constraint violation reported at SaveChanges
    | Fault(message: string)                 // any other failure of a collaborator

  /** A call that returns a value or throws: replaces C# exceptions. */
  datatype Outcome<+T> = Returned(value: T) | Threw(exception: Exception)

  /** The outcome of a call that may fail with the given exception. */
  function FromFault(fault: Option<Exception>): (r: Outcome<()>)
    ensures r.Threw? <==> fault.Some?
    ensures fault.Some? ==> r.exception == fault.value
  {
    match fault
    case None => Returned(())
    case Some(e) => Threw(e)
  }
}
