/** The pure task state machine: each function checks the status and returns the next snapshot. */
module Transitions {
  import opened Basics
  import opened ChildModels

  function MarkReady(t: ChildTask): Outcome<ChildTask> {
    if t.status !in {Pending, Blocked} then Err(InvalidTransition)
    else if t.cancelRequested then Err(InvalidTransition)
    else Ok(t.(status := Ready, reason := None))
  }

  function StartAttempt(t: ChildTask): Outcome<ChildTask> {
    if t.status != Ready then Err(InvalidTransition)
    else if t.cancelRequested then Err(InvalidTransition)
    else Ok(t.(status := Running, attemptCount := t.attemptCount + 1, reason := None))
  }

  function CompleteTask(t: ChildTask, result: TaskResult, now: int): Outcome<ChildTask> {
    if t.status != Running then Err(InvalidTransition)
    else if t.cancelRequested then Err(InvalidTransition)
    else Ok(t.(status := Completed, result := Some(result), completedAt := Some(now), reason := None))
  }

  function EndedAs(t: ChildTask, status: Status, reason: Name, now: int): ChildTask {
    t.(status := status, reason := Some(reason), completedAt := Some(now))
  }

  function FailTask(t: ChildTask, reason: Name, now: int): Outcome<ChildTask> {
    if t.status != Running then Err(InvalidTransition) else Ok(EndedAs(t, Failed, reason, now))
  }

  function ExhaustBudget(t: ChildTask, reason: Name, now: int): Outcome<ChildTask> {
    if t.status !in {Running, Ready} then Err(InvalidTransition)
    else Ok(EndedAs(t, BudgetExhausted, reason, now))
  }

  function BlockTask(t: ChildTask, reason: Name): Outcome<ChildTask> {
    if t.status !in {Pending, Ready, Waiting} then Err(InvalidTransition)
    else Ok(t.(status := Blocked, reason := Some(reason)))
  }

  function RequestCancellation(t: ChildTask): ChildTask {
    if Terminal(t.status) then t else t.(cancelRequested := true)
  }

  function CancelTask(t: ChildTask, reason: Name, now: int): Outcome<ChildTask> {
    if t.status == Cancelled then Ok(t)
    else if Terminal(t.status) then Err(InvalidTransition)
    else Ok(EndedAs(t.(cancelRequested := true), Cancelled, reason, now))
  }

  function MarkUnknown(t: ChildTask, reason: Name, now: int): Outcome<ChildTask> {
    if t.status != Running then Err(InvalidTransition) else Ok(EndedAs(t, Unknown, reason, now))
  }

  function RetryTask(t: ChildTask): Outcome<ChildTask> {
    if t.status !in {Failed, Blocked, BudgetExhausted, Unknown} then Err(InvalidTransition)
    else Ok(t.(status := Pending, result := None, reason := None, completedAt := None, cancelRequested := false))
  }

  function WithRevision(t: ChildTask, revision: nat, now: int): ChildTask {
    t.(revision := revision, updatedAt := now)
  }
}
