/**
 One mission's life as the orchestrator executes it: `MissionStateMachine.transition`,
 `MissionWorkflow.run` with its failure routing, and `RepaymentWorkflow.runLocked`.
 */
module MissionWorkflow {
  import opened Common
  import opened MissionStates
  import opened MissionProtocol
  import opened MissionSafety

  class Orchestrator {
    var row: Mission
    var log: seq<Entry>
    // The local variables of a workflow under way, and of a repayment call.
    var run: Option<Run>
    var repay: Option<Repay>

    function Here(): Local reads this { Local(row, run, repay) }

    /** The rows agree with the event log, and the log is a path of the state graph. */
    predicate Valid()
      reads this
    {
      Chained(log, row.id) && Ok(Here(), Visited(log, row.id), Judgements(log, row.id))
    }

    // What a step leaves behind.
    predicate Shows(before: Local, events: seq<Entry>, a: Step)
      reads this
    {
      var o := Act(before, a);
      Here() == o.after && log == if o.entry.Some? then events + [o.entry.value] else events
    }

    lemma StepKeepsValid(before: Local, events: seq<Entry>, a: Step)
      requires Chained(events, before.row.id) && Ok(before, Visited(events, before.row.id), Judgements(events, before.row.id))
      requires Shows(before, events, a)
      ensures Valid() && row.id == before.row.id
    {
      ActIsGood(before, Visited(events, before.row.id), Judgements(events, before.row.id), a);
      if Act(before, a).entry.Some? { LogGrows(events, Act(before, a).entry.value, before.row.id); }
    }

    constructor (m: Id, provider: Id, price: nat, cap: nat)
      ensures Valid() && row == Mission(m, provider, price, cap, Created, 0, None, None) && log == []
      ensures run == Some(Working(Created, false)) && repay == None
    {
      row, log, run, repay := Mission(m, provider, price, cap, Created, 0, None, None), [], Some(Working(Created, false)), None;
    }

    /** Compare-and-set of the state, the event and the rows that go with it: all of it or nothing. */
    method Transition(from: MissionState, to: MissionState, kind: Kind, provider: Option<Id>, written: Mission) returns (ok: bool)
      requires written.state == row.state && written.id == row.id
      modifies this`row, this`log
      ensures ok <==> old(row).state == from && to in AllowedTransitions(from)
      ensures if ok then row == written.(state := to) && log == old(log) + [Entry(written.id, Some((from, to)), kind, provider)]
              else row == old(row) && log == old(log)
    {
      if to !in AllowedTransitions(from) { return false; }
      if row.state != from { return false; }
      row := written.(state := to);
      log := log + [Entry(row.id, Some((from, to)), kind, provider)];
      return true;
    }

    method Discovering() returns (ok: bool)
      requires Valid() && run == Some(Working(Created, false))
      modifies this
      ensures Shows(old(Here()), old(log), Discovers) && Valid()
      ensures ok ==> run == Some(Working(DiscoveringServices, false))
      ensures run.Some? && run.value.Working? && row.id == old(row).id
    {
      ok := Transition(Created, DiscoveringServices, OtherKind, None, row);
      if ok { run := Some(Working(DiscoveringServices, false)); }
      StepKeepsValid(old(Here()), old(log), Discovers);
    }

    /** One progress report of the consumer; false when the workflow throws at it. */
    method OnProgress(p: Progress) returns (ok: bool)
      requires Valid() && Consuming(Here())
      modifies this
      ensures Shows(old(Here()), old(log), Progresses(p)) && Valid() && Consuming(Here())
    {
      var state, hasLoan := run.value.state, run.value.hasLoan;
      var to := Target(Here(), p);
      ok := to.Some?;
      if ok { ok := Transition(state, to.value, OtherKind, None, Recorded(row, p)); }
      if ok { run := Some(Working(to.value, hasLoan || p.Funds?)); }
      StepKeepsValid(old(Here()), old(log), Progresses(p));
    }

    /** The last move of a successful workflow. */
    method ReportReceived() returns (ok: bool)
      requires Valid() && Consuming(Here()) && run.value.state == ServicePaid
      modifies this
      ensures Shows(old(Here()), old(log), Reports) && Valid() && ok && run.None? && row.state == Running
    {
      ok := Transition(ServicePaid, Running, Kind.ReportReceived, Some(row.provider), row);
      if ok { run := None; }
      StepKeepsValid(old(Here()), old(log), Reports);
    }

    /** `finishFailure`: its route is worked out, then walked. */
    method HandleFailure(refusal: Refusal)
      requires Valid() && run.Some? && run.value.Working?
      modifies this
      ensures Valid() && run.None? && row == old(row).(state := if old(row).loan.Some? then Defaulted else Closed)
    {
      var state := run.value.state;
      var moves := FinishFailure(state, run.value.hasLoan, refusal);
      run := Some(Failing(state, moves));
      StepKeepsValid(old(Here()), old(log), Fails(refusal));
      while run.Some?
        invariant Valid() && (run.Some? ==> run.value.Failing?) && row.loan == old(row).loan && row == old(row).(state := row.state)
        invariant run.None? ==> row.state == (if old(row).loan.Some? then Defaulted else Closed)
        decreases if run.Some? then 1 + |run.value.route| else 0
      {
        WalkOn();
      }
    }

    /** The next move of a failing workflow: it cannot be refused. */
    method WalkOn()
      requires Valid() && run.Some? && run.value.Failing?
      modifies this
      ensures Shows(old(Here()), old(log), Routes) && Valid() && row == old(row).(state := row.state)
      ensures run.Some? ==> run.value.Failing? && |run.value.route| < |old(run).value.route|
      ensures run.None? ==> row.state == (if row.loan.Some? then Defaulted else Closed)
    {
      var route := run.value.route;
      var move := route[0];
      var ok := Transition(run.value.state, move.to, if move.kind.MissionFailed? then Kind.MissionFailed else OtherKind,
                           if move.attributed then Some(row.provider) else None, row);
      run := if ok && |route| > 1 then Some(Failing(move.to, route[1..])) else None;
      StepKeepsValid(old(Here()), old(log), Routes);
    }

    /**
     `run` to its end, whatever the consumer reports and wherever it gives up: the mission is
     running, or closed without a loan, or defaulted with one.
     */
    method RunMission(progress: seq<Progress>, givesUp: nat -> bool, delivers: bool, refusal: Refusal)
      requires Valid() && run == Some(Working(Created, false))
      modifies this
      ensures Valid() && run.None?
      ensures row.state == Running || row.state == (if row.loan.Some? then Defaulted else Closed)
    {
      var ok := Discovering();
      if !ok {
        HandleFailure(NoRefusal);
        return;
      }
      if row.price > row.cap {
        Overpriced();
        return;
      }
      for i := 0 to |progress|
        invariant Valid() && Consuming(Here())
      {
        var accepted := OnProgress(progress[i]);
        if givesUp(i) {
          HandleFailure(refusal);
          return;
        }
      }
      if !delivers || run.value.state != ServicePaid {
        HandleFailure(WorkflowRefusal);
        return;
      }
      ok := ReportReceived();
    }

    /** The provider is ranked, then refused for its price. */
    method Overpriced()
      requires Valid() && run == Some(Working(DiscoveringServices, false)) && row.price > row.cap
      modifies this
      ensures Valid() && run.None? && row.state == Closed && row.loan.None?
    {
      var ok := Transition(DiscoveringServices, PaymentPreparation, OtherKind, None, row);
      var moves := FinishFailure(PaymentPreparation, false, WorkflowRefusal);
      run := Some(Failing(PaymentPreparation, moves));
      StepKeepsValid(old(Here()), old(log), Overprices);
      while run.Some?
        invariant Valid() && (run.Some? ==> run.value.Failing?) && row.loan.None?
        invariant run.None? ==> row.state == Closed
        decreases if run.Some? then 1 + |run.value.route| else 0
      {
        WalkOn();
      }
    }

    // --- repayment ----------------------------------------------------------------------------------------------

    /** `runLocked` up to the signer: an answer at once, a close without credit, or a call to make. */
    method BeginRunLocked() returns (answer: Option<Id>)
      requires Valid() && repay.None?
      modifies this
      ensures Shows(old(Here()), old(log), BeginsRepayment) && Valid() && answer == Act(old(Here()), BeginsRepayment).returned
      ensures answer.Some? ==> ReturnOk(Here(), answer.value)
    {
      answer := None;
      if row.loan.None? {
        if row.state == Completed { var ok := Transition(Completed, Closed, OtherKind, None, row); }
      } else if row.state == Closed {
        answer := row.loan.value.repaymentTx;
      } else if row.state == Completed {
        var ok := Transition(Completed, RepaymentPending, OtherKind, None, row);
        repay := Some(Asking);
      } else if row.state == RepaymentPending {
        repay := Some(Asking);
      } else if row.state == Repaid && row.loan.value.repaymentTx.Some? {
        repay := Some(Closing(row.loan.value.repaymentTx.value));
      }
      StepKeepsValid(old(Here()), old(log), BeginsRepayment);
    }

    /** The signer answered: mission and loan are repaid together, then the mission closes. */
    method FinishRunLocked(tx: Id) returns (answer: Option<Id>)
      requires Valid() && repay.Some?
      modifies this
      ensures Valid() && repay.None?
      ensures answer.Some? ==> ReturnOk(Here(), answer.value)
    {
      if repay.value.Asking? { RecordRepayment(tx); }
      if repay.None? { return None; }
      answer := CloseRepaid();
    }

    method RecordRepayment(tx: Id)
      requires Valid() && repay == Some(Asking)
      modifies this
      ensures Shows(old(Here()), old(log), Repays(tx)) && Valid() && (repay.Some? ==> repay == Some(Closing(tx)))
    {
      var ok := false;
      if row.loan.Some? && row.loan.value.repaymentTx.None? {
        ok := Transition(RepaymentPending, Repaid, OtherKind, None, row.(loan := Some(row.loan.value.(repaymentTx := Some(tx)))));
      }
      repay := if ok then Some(Closing(tx)) else None;
      StepKeepsValid(old(Here()), old(log), Repays(tx));
    }

    method CloseRepaid() returns (answer: Option<Id>)
      requires Valid() && repay.Some? && repay.value.Closing?
      modifies this
      ensures Shows(old(Here()), old(log), Closes) && Valid() && repay.None?
      ensures answer.Some? ==> ReturnOk(Here(), answer.value)
    {
      var tx := repay.value.tx;
      var ok := Transition(Repaid, Closed, OtherKind, None, row);
      repay := None;
      StepKeepsValid(old(Here()), old(log), Closes);
      return if ok then Some(tx) else None;
    }

    // --- completion ------------------------------------------------------------------------------------------------

    /** The accepting transaction of the callback handler. */
    method AcceptCompletion(c: Completion) returns (ok: bool)
      requires Valid()
      modifies this
      ensures Shows(old(Here()), old(log), Completes(c)) && Valid()
      ensures ok <==> old(row).state == Running && old(row).completion.None?
      ensures ok ==> row.state == Completed && row.completion == Some(c)
    {
      ok := false;
      if row.completion.None? { ok := Transition(Running, Completed, OtherKind, None, row.(completion := Some(c))); }
      StepKeepsValid(old(Here()), old(log), Completes(c));
    }
  }
}
