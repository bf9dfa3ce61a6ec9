/** TransactionBehavior: the pipeline step that wraps every command in a
    database transaction. The unit of work is seen through the calls made on
    it, recorded in order together with the call of the next handler; each
    call may throw, and which ones throw is a parameter. */
module Transactions {
  import opened Common

  /** A call made by the behaviour: on the unit of work, or to `next`. */
  datatype Step = Begin | Handler | Save | Commit | Rollback

  /** Which unit-of-work calls throw, and what. */
  datatype Faults = Faults(begin: Option<Exception>, save: Option<Exception>, commit: Option<Exception>, rollback: Option<Exception>)

  const NoFaults := Faults(None, None, None, None)

  /** A run of the behaviour: the calls in order and how it ended. */
  datatype Run<R> = Run(trace: seq<Step>, outcome: Outcome<R>)

  const CommandSuffix := "Command"

  /** request.GetType().Name.EndsWith("Command"). */
  predicate IsCommand(typeName: string): (r: bool)
    ensures r <==> exists prefix: string :: typeName == prefix + CommandSuffix
  {
    assert forall prefix: string :: (prefix + CommandSuffix)[|prefix|..] == CommandSuffix;
    if |typeName| >= |CommandSuffix| && typeName[|typeName| - |CommandSuffix|..] == CommandSuffix then
      assert typeName == typeName[..|typeName| - |CommandSuffix|] + CommandSuffix;
      true
    else
      false
  }

  /** The try block fails: some step in it throws. Whichever of these is
      the first to throw, the steps after it are not reached. */
  predicate TryFails<R>(next: Outcome<R>, f: Faults) {
    f.begin.Some? || next.Threw? || f.save.Some? || f.commit.Some?
  }

  /** The try block: Begin, the handler, Save, Commit, stopping at the first
      that throws; the calls reached and the exception, if any. */
  function TryBlock<R>(next: Outcome<R>, f: Faults): (r: (seq<Step>, Option<Exception>))
    ensures r.1.Some? <==> TryFails(next, f)
    ensures |r.0| >= 1 && r.0[0] == Begin
    ensures r.1.None? ==> r.0 == [Begin, Handler, Save, Commit]
    ensures Rollback !in r.0
  {
    if f.begin.Some? then ([Begin], f.begin)
    else if next.Threw? then ([Begin, Handler], Some(next.exception))
    else if f.save.Some? then ([Begin, Handler, Save], f.save)
    else if f.commit.Some? then ([Begin, Handler, Save, Commit], f.commit)
    else ([Begin, Handler, Save, Commit], None)
  }

  /** Handle: non-commands go straight to the handler; commands run the try
      block, and on failure roll back and rethrow. A rollback that itself
      throws replaces the original exception. */
  function Pipeline<R>(typeName: string, next: Outcome<R>, f: Faults): (r: Run<R>)
    ensures Handler in r.trace || (IsCommand(typeName) && f.begin.Some?)
    ensures r.outcome.Returned? ==> r.outcome == next
    ensures !IsCommand(typeName) ==> r.outcome == next && Begin !in r.trace
    ensures IsCommand(typeName) ==> (r.outcome.Returned? <==> !TryFails(next, f))
    ensures IsCommand(typeName) ==> (Rollback in r.trace <==> TryFails(next, f))
  {
    if !IsCommand(typeName) then Run([Handler], next)
    else
      var (tried, failure) := TryBlock(next, f);
      match failure
      case None => Run(tried, next)
      case Some(e) => Run(tried + [Rollback], if f.rollback.Some? then Threw(f.rollback.value) else Threw(e))
  }

  /** No call occurs twice. */
  predicate NoRepeats(s: seq<Step>) {
    forall i, j :: 0 <= i < j < |s| ==> s[i] != s[j]
  }

  /** A request that is not a command calls the handler once, touches no
      transaction and returns what the handler returned. */
  lemma NonCommandBypass<R>(typeName: string, next: Outcome<R>, f: Faults)
    requires !IsCommand(typeName)
    ensures Pipeline(typeName, next, f).trace == [Handler]
    ensures Pipeline(typeName, next, f).outcome == next
  {
  }

  /** A command whose handler and unit-of-work calls all succeed runs Begin,
      the handler, Save and Commit, in that order, never rolls back, and
      returns the handler's response. */
  lemma SuccessfulCommand<R>(typeName: string, response: R)
    requires IsCommand(typeName)
    ensures Pipeline(typeName, Returned(response), NoFaults).trace == [Begin, Handler, Save, Commit]
    ensures Pipeline(typeName, Returned(response), NoFaults).outcome == Returned(response)
  {
  }

  /** A handler that throws is followed by the rollback alone: no Save, no
      Commit, and the same exception is rethrown. */
  lemma HandlerThrows<R>(typeName: string, e: Exception, f: Faults)
    requires IsCommand(typeName)
    requires f.begin.None? && f.rollback.None?
    ensures Pipeline(typeName, Outcome<R>.Threw(e), f).trace == [Begin, Handler, Rollback]
    ensures Pipeline(typeName, Outcome<R>.Threw(e), f).outcome == Threw(e)
  {
  }

  /** When Save or Commit throws, Rollback runs and the error propagates:
      no response is returned. */
  lemma SaveOrCommitThrows<R>(typeName: string, response: R, f: Faults)
    requires IsCommand(typeName)
    requires f.begin.None? && (f.save.Some? || f.commit.Some?)
    ensures Rollback in Pipeline(typeName, Returned(response), f).trace
    ensures Pipeline(typeName, Returned(response), f).outcome.Threw?
    ensures f.rollback.None? && f.save.Some? ==> Pipeline(typeName, Returned(response), f).outcome == Threw(f.save.value)
    ensures f.rollback.None? && f.save.None? ==> Pipeline(typeName, Returned(response), f).outcome == Threw(f.commit.value)
  {
  }

  /** For a command: the rollback happens exactly when the try block fails,
      and then it is the last call; no call, Commit and Rollback included,
      is made twice; Begin is the first call and comes before the handler; the
      command returns exactly when nothing threw, and then returns the
      handler's response. */
  lemma CommandShape<R>(typeName: string, next: Outcome<R>, f: Faults)
    requires IsCommand(typeName)
    ensures var run := Pipeline(typeName, next, f);
            && (Rollback in run.trace <==> TryFails(next, f))
            && (Rollback in run.trace ==> run.trace[|run.trace| - 1] == Rollback)
            && NoRepeats(run.trace)
            && run.trace[0] == Begin
            && (Handler in run.trace ==> run.trace[1] == Handler)
            && (run.outcome.Returned? <==> !TryFails(next, f))
            && (run.outcome.Returned? ==> run.outcome == next)
  {
    var trace := Pipeline(typeName, next, f).trace;
    if f.begin.Some? {
      assert trace == [Begin, Rollback];
    } else if next.Threw? {
      assert trace == [Begin, Handler, Rollback];
    } else if f.save.Some? {
      assert trace == [Begin, Handler, Save, Rollback];
    } else if f.commit.Some? {
      assert trace == [Begin, Handler, Save, Commit, Rollback];
    } else {
      assert trace == [Begin, Handler, Save, Commit];
    }
  }

  /** The examples of the behaviour's tests: "TestCommand" is a command,
      "TestQuery" is not. */
  lemma CommandNames()
    ensures IsCommand("TestCommand") && IsCommand("CreateOrderCommand") && IsCommand("ApproveOrderCommand")
    ensures !IsCommand("TestQuery") && !IsCommand("GetOrderByIdQuery") && !IsCommand("Command ")
  {
    assert "TestCommand"[4..] == CommandSuffix;
    assert "CreateOrderCommand"[11..] == CommandSuffix;
    assert "ApproveOrderCommand"[12..] == CommandSuffix;
    assert "TestQuery"[2..][0] != CommandSuffix[0];
    assert "GetOrderByIdQuery"[10..][0] != CommandSuffix[0];
    assert "Command "[1..][0] != CommandSuffix[0];
  }

  /** The unit of work as the behaviour sees it, together with the handler:
      each call is recorded and may throw. */
  class UnitOfWork {
    var calls: seq<Step>
    const faults: Faults

    constructor (faults: Faults)
      ensures calls == [] && this.faults == faults
    {
      calls := [];
      this.faults := faults;
    }

    method BeginTransactionAsync() returns (r: Outcome<()>)
      modifies this
      ensures calls == old(calls) + [Begin] && r == FromFault(faults.begin)
    {
      calls := calls + [Begin];
      r := FromFault(faults.begin);
    }

    method SaveChangesAsync() returns (r: Outcome<()>)
      modifies this
      ensures calls == old(calls) + [Save] && r == FromFault(faults.save)
    {
      calls := calls + [Save];
      r := FromFault(faults.save);
    }

    method CommitTransactionAsync() returns (r: Outcome<()>)
      modifies this
      ensures calls == old(calls) + [Commit] && r == FromFault(faults.commit)
    {
      calls := calls + [Commit];
      r := FromFault(faults.commit);
    }

    method RollbackTransactionAsync() returns (r: Outcome<()>)
      modifies this
      ensures calls == old(calls) + [Rollback] && r == FromFault(faults.rollback)
    {
      calls := calls + [Rollback];
      r := FromFault(faults.rollback);
    }

    /** await next(): the handler's outcome is given. */
    method Next<R>(next: Outcome<R>) returns (r: Outcome<R>)
      modifies this
      ensures calls == old(calls) + [Handler] && r == next
    {
      calls := calls + [Handler];
      r := next;
    }
  }

  class TransactionBehavior {
    const unitOfWork: UnitOfWork

    constructor (unitOfWork: UnitOfWork)
      ensures this.unitOfWork == unitOfWork
    {
      this.unitOfWork := unitOfWork;
    }

    method Handle<R>(typeName: string, next: Outcome<R>) returns (r: Outcome<R>)
      modifies unitOfWork
      ensures unitOfWork.calls == old(unitOfWork.calls) + Pipeline(typeName, next, unitOfWork.faults).trace
      ensures r == Pipeline(typeName, next, unitOfWork.faults).outcome
    {
      if !IsCommand(typeName) {
        r := unitOfWork.Next(next);
        return;
      }
      var failure: Option<Exception> := None;
      var begun := unitOfWork.BeginTransactionAsync();
      if begun.Threw? {
        failure := Some(begun.exception);
      } else {
        var response := unitOfWork.Next(next);
        if response.Threw? {
          failure := Some(response.exception);
        } else {
          var saved := unitOfWork.SaveChangesAsync();
          if saved.Threw? {
            failure := Some(saved.exception);
          } else {
            var committed := unitOfWork.CommitTransactionAsync();
            if committed.Threw? {
              failure := Some(committed.exception);
            } else {
              return response;
            }
          }
        }
      }
      // catch: roll back, then rethrow
      var rolledBack := unitOfWork.RollbackTransactionAsync();
      if rolledBack.Threw? {
        r := Threw(rolledBack.exception);
      } else {
        r := Threw(failure.value);
      }
    }
  }
}
