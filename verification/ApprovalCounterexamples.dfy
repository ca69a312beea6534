/**
 Two short histories of the approval ledger after which a call of `resume` decides about a
 run that waits for another approval: once it lets the run go, once it ends it.
 */
module ApprovalCounterexamples {
  import opened Basics
  import opened ApprovalLedger
  import opened ApprovalSaga

  const SCOPE := Scope("t", "w", "agent", "1", {}, None, "r", None)
  const FIRST := Submission(Subject("s", "tool", "1", "1", "x", "p"), None, 10)
  const SECOND := Submission(FIRST.subject.(arguments := "y"), None, 20)
  const WHO: Name := "op"

  const CREATE_FIRST := CreateCall(Some(SCOPE), SCOPE, FIRST, "a", 0)
  const CREATE_SECOND := CreateCall(Some(SCOPE), SCOPE, SECOND, "b", 3)

  /** The facts under which the first approval was asked for. */
  const FACTS := Validation(SCOPE, "tool", "1", "1", "x", "p", true, true)

  function DecideFirst(decision: Decision): Call {
    DecideCall(SCOPE, "a", decision, WHO, WHO, WHO, 1)
  }

  const CONSUME_FIRST := ConsumeCall(SCOPE, "a", 1, 2)

  function OneRow(a: Request): Ledger {
    ApprovalLedger.Ledger(["a"], map["a" := a])
  }

  function TwoRows(a: Request): Ledger {
    ApprovalLedger.Ledger(["a", "b"], map["a" := a, "b" := NewRequest("b", SCOPE, SECOND, 3)])
  }

  function Asked(): Request {
    NewRequest("a", SCOPE, FIRST, 0)
  }

  function Answered(decision: Decision): Request {
    Decided(Asked(), decision, WHO, WHO, WHO, 1)
  }

  lemma FirstAsked()
    ensures Possible(ApprovalLedger.Ledger([], map[]), CREATE_FIRST)
    ensures Apply(ApprovalLedger.Ledger([], map[]), CREATE_FIRST) == OneRow(Asked())
  {}

  lemma FirstAnswered(decision: Decision)
    ensures Apply(OneRow(Asked()), DecideFirst(decision)) == OneRow(Answered(decision))
  {}

  lemma FirstConsumed()
    ensures Apply(OneRow(Answered(Approve)), CONSUME_FIRST) == OneRow(ConsumedRow(Answered(Approve), 2))
  {}

  lemma SecondAsked(a: Request)
    requires !IsOpen(a.status)
    ensures Possible(OneRow(a), CREATE_SECOND) && Apply(OneRow(a), CREATE_SECOND) == TwoRows(a)
  {
    assert "a"[0] != "b"[0];
    assert OpenFor(OneRow(a), SCOPE, SECOND.subject) == [];
  }

  function Waiting(l: Ledger): World {
    World(l, map["r" := RunRow(SCOPE, RunWaitingForApproval, Some("b"), false, false, false)])
  }

  /** The run while a worker holds it. */
  function Working(l: Ledger): World {
    World(l, map["r" := RunRow(SCOPE, RunRunning, None, false, false, false)])
  }

  /** Asking for the second approval pauses the run on it. */
  lemma SecondAskedFor(a: Request)
    requires !IsOpen(a.status)
    ensures AskFor(Working(OneRow(a)), SCOPE, SECOND, true, "b", 3).0 == Waiting(TwoRows(a))
  {
    SecondAsked(a);
    var w := Working(OneRow(a));
    assert w.runs["r"].scope == SCOPE && Resumable(SCOPE, SCOPE);
    assert Create(OneRow(a), Some(SCOPE), SCOPE, SECOND, "b", 3).out.value.id == "b" by {
      assert OpenFor(OneRow(a), SCOPE, SECOND.subject) == [];
    }
    assert Pause(w.runs, SCOPE, true, "b").value == Waiting(TwoRows(a)).runs;
  }

  /** What the calls lead to from an empty ledger. */
  ghost predicate LeadTo(calls: seq<Call>, l: Ledger) {
    exists h :: History(h, calls) && Last(h) == l
  }

  lemma ConsumedHistory()
    ensures LeadTo([CREATE_FIRST, DecideFirst(Approve), CONSUME_FIRST, CREATE_SECOND], TwoRows(ConsumedRow(Answered(Approve), 2)))
  {
    var calls := [CREATE_FIRST, DecideFirst(Approve), CONSUME_FIRST, CREATE_SECOND];
    var a := ConsumedRow(Answered(Approve), 2);
    var h := [ApprovalLedger.Ledger([], map[]), OneRow(Asked()), OneRow(Answered(Approve)), OneRow(a), TwoRows(a)];
    FirstAsked();
    FirstAnswered(Approve);
    FirstConsumed();
    SecondAsked(a);
    hide Apply;
    assert History(h, calls);
  }

  lemma DeniedHistory()
    ensures LeadTo([CREATE_FIRST, DecideFirst(Deny), CREATE_SECOND], TwoRows(Answered(Deny)))
  {
    var calls := [CREATE_FIRST, DecideFirst(Deny), CREATE_SECOND];
    var h := [ApprovalLedger.Ledger([], map[]), OneRow(Asked()), OneRow(Answered(Deny)), TwoRows(Answered(Deny))];
    FirstAsked();
    FirstAnswered(Deny);
    SecondAsked(Answered(Deny));
    hide Apply;
    assert History(h, calls);
  }

  lemma LeadToSound(calls: seq<Call>, l: Ledger)
    requires LeadTo(calls, l)
    ensures Sound(l)
  {
    hide Sound, Apply;
    var h :| History(h, calls) && Last(h) == l;
    HistoryLength(h, calls);
    HistorySound(h, calls, |h| - 1);
  }

  lemma SecondWaits(a: Request)
    ensures var w := Waiting(TwoRows(a));
      && RunGet(w.runs, SCOPE, SCOPE.run).Ok? && w.runs[SCOPE.run].waiting == Some("b")
      && "a" in w.ledger.rows && w.ledger.rows["a"] == a
      && "b" in w.ledger.rows && w.ledger.rows["b"].status == Pending && w.ledger.rows["b"].expiresAt == 20
  {
    assert "a"[0] != "b"[0];
  }

  /** Approval `a` was asked for, approved and consumed, then `b` was asked for and the run
      paused on it: resuming on `a` once more lets the run go, and `b` is still PENDING. */
  lemma PendingApprovalBypassed()
    ensures var w := Waiting(TwoRows(ConsumedRow(Answered(Approve), 2)));
      && LeadTo([CREATE_FIRST, DecideFirst(Approve), CONSUME_FIRST, CREATE_SECOND], w.ledger)
      && w == AskFor(Working(OneRow(ConsumedRow(Answered(Approve), 2))), SCOPE, SECOND, true, "b", 3).0
      && w.runs["r"].waiting == Some("b") && "b" in w.ledger.rows && w.ledger.rows["b"].status == Pending
      && WronglyReleased(w, Resume(w, SCOPE, "a", FACTS, 4).0, "r")
  {
    var a := ConsumedRow(Answered(Approve), 2);
    var w := Waiting(TwoRows(a));
    assert "a"[0] != "b"[0];
    assert Matches(a, FACTS) && Resumable(SCOPE, a.scope) && a.status == Consumed;
    SecondWaits(a);
    SecondAskedFor(a);
    ConsumedHistory();
    hide AskFor, Sound, Resume, LeadTo, TwoRows, ConsumedRow, Answered, Resumable, Matches;
    LeadToSound([CREATE_FIRST, DecideFirst(Approve), CONSUME_FIRST, CREATE_SECOND], w.ledger);
    WronglyReleasedExactly(w, SCOPE, "a", FACTS, 4);
  }

  /** Approval `a` was asked for and denied, then `b` was asked for and the run paused on it:
      resuming on `a` ends the run, and `b` is still PENDING. */
  lemma PendingApprovalOverruled()
    ensures var w := Waiting(TwoRows(Answered(Deny)));
      && LeadTo([CREATE_FIRST, DecideFirst(Deny), CREATE_SECOND], w.ledger)
      && w == AskFor(Working(OneRow(Answered(Deny))), SCOPE, SECOND, true, "b", 3).0
      && w.runs["r"].waiting == Some("b") && "b" in w.ledger.rows && w.ledger.rows["b"].status == Pending
      && WronglyStopped(w, Resume(w, SCOPE, "a", FACTS, 4).0, "r")
  {
    var a := Answered(Deny);
    var w := Waiting(TwoRows(a));
    assert "a"[0] != "b"[0];
    assert Resumable(SCOPE, a.scope) && a.status == Denied;
    SecondWaits(a);
    SecondAskedFor(a);
    DeniedHistory();
    hide AskFor, Sound, Resume, LeadTo, TwoRows, Answered, Resumable, Matches;
    LeadToSound([CREATE_FIRST, DecideFirst(Deny), CREATE_SECOND], w.ledger);
    WronglyStoppedExactly(w, SCOPE, "a", FACTS, 4);
  }
}
