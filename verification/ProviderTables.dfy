/**
 The provider's `provider_paid_scans` and `provider_callback_jobs` tables. The provider is one
 process over a synchronous database, so the body of each store method is one atomic step.
 */
module ProviderTables {
  import opened Common

  type TxId = nat
  type Token = nat
  type Content = nat

  const PAYMENT_LEASE_MS := 30_000
  const VERIFIED_PAYMENT_LEASE_MS := 300_000
  const CALLBACK_LEASE_MS := 30_000
  const SETTLEMENT_FAILURE_GRACE_MS := 600_000
  const MAX_CALLBACK_ATTEMPTS: nat := 20

  // --- payments -----------------------------------------------------------------------------------------

  datatype Status = Claimed | ReportReady | Settled | Completed | SettlementFailed

  // Evidence of settlement; `detail` stands for whatever else the facilitator's answer holds.
  datatype Settlement = Settlement(success: bool, tx: TxId, payer: nat, amount: Option<nat>, detail: Content)

  // What a paid request is bound to, checked by its fingerprint.
  datatype Terms = Terms(fingerprint: Content, payer: nat, amount: nat, validUntil: int)

  datatype Payment = Payment(
    terms: Terms,
    status: Status,
    attempted: bool,
    report: Option<Content>,
    settlement: Option<Settlement>,
    leaseToken: Option<Token>,
    leaseUntil: Option<int>)

  type Payments = map<TxId, Payment>

  datatype StoreError = Conflict | Internal | TakenOver

  datatype Result<+T> = Ok(value: T) | Err(error: StoreError)

  function NewPayment(terms: Terms, token: Token, now: int): Payment
  {
    Payment(terms, Claimed, false, None, None, Some(token), Some(now + PAYMENT_LEASE_MS))
  }

  predicate Stealable(p: Payment, now: int)
  {
    !p.attempted && p.status != Completed && (if p.leaseUntil.Some? then p.leaseUntil.value else 0) <= now
  }

  /** `claimPayment`: insert, or take an expired lease over, or leave the row to its owner. */
  function ClaimPayment(ps: Payments, t: TxId, terms: Terms, token: Token, now: int): Result<Payments>
  {
    if t !in ps then Ok(ps[t := NewPayment(terms, token, now)])
    else if ps[t].terms.fingerprint != terms.fingerprint then Err(Conflict)
    else if Stealable(ps[t], now)
    then Ok(ps[t := ps[t].(leaseToken := Some(token), leaseUntil := Some(now + PAYMENT_LEASE_MS))])
    else Ok(ps)
  }

  predicate Owns(ps: Payments, t: TxId, token: Token) { t in ps && ps[t].leaseToken == Some(token) }

  function RenewLease(ps: Payments, t: TxId, token: Token, now: int): Result<Payments>
  {
    if Owns(ps, t, token) && !ps[t].attempted && (ps[t].status == Claimed || ps[t].status == ReportReady)
    then Ok(ps[t := ps[t].(leaseUntil := Some(now + VERIFIED_PAYMENT_LEASE_MS))])
    else Err(TakenOver)
  }

  function SaveReport(ps: Payments, t: TxId, token: Token, report: Content): Result<Payments>
  {
    if !Owns(ps, t, token) || ps[t].attempted then Err(Internal)
    else if ps[t].report.Some? && ps[t].report.value != report then Err(Conflict)
    else Ok(ps[t := ps[t].(report := Some(report), status := ReportReady)])
  }

  function MarkAttempted(ps: Payments, t: TxId, token: Token): Result<Payments>
  {
    if Owns(ps, t, token) && ps[t].report.Some? && !ps[t].attempted
    then Ok(ps[t := ps[t].(attempted := true, leaseToken := None, leaseUntil := None)])
    else Err(Internal)
  }

  predicate ValidEvidence(p: Payment, t: TxId, e: Settlement)
  {
    e.success && e.tx == t && e.payer == p.terms.payer && (e.amount.Some? ==> e.amount.value == p.terms.amount)
  }

  function SaveSettlement(ps: Payments, t: TxId, e: Settlement): Result<Payments>
  {
    if t !in ps || !ps[t].attempted || ps[t].report.None? then Err(Internal)
    else if !ValidEvidence(ps[t], t, e) then Err(Internal)
    else if ps[t].settlement.Some? && ps[t].settlement.value != e then Err(Conflict)
    else Ok(ps[t := ps[t].(settlement := Some(e), status := Settled)])
  }

  function RecordUnconfirmed(ps: Payments, t: TxId, now: int, unconfirmed: bool): Result<Payments>
  {
    if t !in ps || !ps[t].attempted || ps[t].report.None? then Err(Internal)
    else if ps[t].status == Completed || ps[t].status == SettlementFailed then Ok(ps)
    else if unconfirmed && ps[t].settlement.None? && now > ps[t].terms.validUntil + SETTLEMENT_FAILURE_GRACE_MS
    then Ok(ps[t := ps[t].(status := SettlementFailed)])
    else Ok(ps)
  }

  function Synthetic(p: Payment, t: TxId): Settlement { Settlement(true, t, p.terms.payer, None, 0) }

  // --- callback jobs --------------------------------------------------------------------------------------

  datatype JobStatus = Pending | Processing | Delivered | Failed | Repair

  // The idempotency key names the report; the body also names the settlement and its consensus time.
  datatype Body = Body(report: Content, tx: TxId, settledAt: int)

  datatype Job = Job(
    key: Content,
    tx: TxId,
    body: Body,
    status: JobStatus,
    attempts: nat,
    nextAttemptAt: int,
    leaseToken: Option<Token>,
    leaseUntil: Option<int>)

  // In insertion order, which is the order of `created_at`.
  type Jobs = seq<Job>

  function FindKey(js: Jobs, key: Content): (r: Option<nat>)
    ensures r.Some? ==> r.value < |js| && js[r.value].key == key
    ensures r.None? ==> forall i :: 0 <= i < |js| ==> js[i].key != key
  {
    if js == [] then None
    else if js[|js| - 1].key == key then Some(|js| - 1)
    else FindKey(js[..|js| - 1], key)
  }

  datatype Tables = Tables(payments: Payments, jobs: Jobs)

  /** `completeAndEnqueue`: completion and its callback job, together or not at all. */
  function Complete(d: Tables, t: TxId, body: Body, now: int): Result<Tables>
  {
    if t !in d.payments || d.payments[t].report.None? || d.payments[t].settlement.None?
       || (d.payments[t].status != Settled && d.payments[t].status != Completed)
    then Err(Internal)
    else
      var p := d.payments[t];
      var ps := if p.status == Settled
                then d.payments[t := p.(status := Completed, leaseToken := None, leaseUntil := None)] else d.payments;
      match FindKey(d.jobs, body.report)
      case Some(i) => if d.jobs[i].body == body then Ok(Tables(ps, d.jobs)) else Err(Conflict)
      case None => Ok(Tables(ps, d.jobs + [Job(body.report, t, body, Pending, 0, now, None, None)]))
  }

  predicate JobDue(j: Job, now: int)
  {
    (j.status == Pending && j.nextAttemptAt <= now)
    || (j.status == Processing && (if j.leaseUntil.Some? then j.leaseUntil.value else 0) <= now)
  }

  /** The due job with the smallest next attempt time, oldest first. */
  function NextDue(js: Jobs, now: int): (r: Option<nat>)
    ensures r.None? <==> forall i :: 0 <= i < |js| ==> !JobDue(js[i], now)
    ensures r.Some? ==> r.value < |js| && JobDue(js[r.value], now)
    ensures r.Some? ==> forall i :: 0 <= i < |js| && JobDue(js[i], now) ==>
              js[r.value].nextAttemptAt < js[i].nextAttemptAt
              || (js[r.value].nextAttemptAt == js[i].nextAttemptAt && r.value <= i)
  {
    if js == [] then None
    else
      var last := |js| - 1;
      var best := NextDue(js[..last], now);
      assert forall i :: 0 <= i < last ==> js[..last][i] == js[i];
      if !JobDue(js[last], now) then best
      else if best.None? || js[last].nextAttemptAt < js[best.value].nextAttemptAt then Some(last)
      else best
  }

  function ClaimedJobs(js: Jobs, token: Token, now: int): Jobs
  {
    match NextDue(js, now)
    case None => js
    case Some(i) => js[i := js[i].(status := Processing, leaseToken := Some(token), leaseUntil := Some(now + CALLBACK_LEASE_MS))]
  }

  // A claimed job as its dispatcher carries it.
  datatype Ticket = Ticket(index: nat, token: Token, attempts: nat)

  function TicketOf(js: Jobs, token: Token, now: int): Option<Ticket>
  {
    match NextDue(js, now)
    case None => None
    case Some(i) => Some(Ticket(i, token, js[i].attempts))
  }

  /** `finishCallback`: only under the lease it was claimed with. */
  function Finish(js: Jobs, k: Ticket, status: JobStatus, nextAttemptAt: Option<int>, attempts: nat): Result<Jobs>
  {
    if k.index < |js| && js[k.index].status == Processing && js[k.index].leaseToken == Some(k.token)
    then Ok(js[k.index := js[k.index].(
                 status := status, attempts := attempts, leaseToken := None, leaseUntil := None,
                 nextAttemptAt := if nextAttemptAt.Some? then nextAttemptAt.value else js[k.index].nextAttemptAt)])
    else Err(Internal)
  }

  function Deliver(js: Jobs, k: Ticket): Result<Jobs> { Finish(js, k, Delivered, None, k.attempts + 1) }

  function MarkForRepair(js: Jobs, k: Ticket): Result<Jobs> { Finish(js, k, Repair, None, k.attempts + 1) }

  function RetryJob(js: Jobs, k: Ticket, nextAttemptAt: int): Result<Jobs>
  {
    if k.attempts + 1 >= MAX_CALLBACK_ATTEMPTS then Finish(js, k, Failed, None, k.attempts + 1)
    else Finish(js, k, Pending, Some(nextAttemptAt), k.attempts + 1)
  }

  function ReplayJob(js: Jobs, key: Content, now: int): Jobs
  {
    match FindKey(js, key)
    case None => js
    case Some(i) =>
      if js[i].status == Failed || js[i].status == Repair
      then js[i := js[i].(status := Pending, attempts := 0, nextAttemptAt := now, leaseToken := None, leaseUntil := None)]
      else js
  }

  function JobWakesAt(j: Job): int
  {
    if j.status == Pending then j.nextAttemptAt else if j.leaseUntil.Some? then j.leaseUntil.value else 0
  }

  predicate Waiting(j: Job) { j.status == Pending || j.status == Processing }

  /** MIN over pending and processing jobs; NULL when there are none. */
  function NextCallbackAt(js: Jobs): (r: Option<int>)
    ensures r.Some? ==> exists i :: 0 <= i < |js| && Waiting(js[i]) && JobWakesAt(js[i]) == r.value
    ensures forall i :: 0 <= i < |js| && Waiting(js[i]) ==> r.Some? && r.value <= JobWakesAt(js[i])
  {
    if js == [] then None
    else
      var last := |js| - 1;
      var best := NextCallbackAt(js[..last]);
      assert forall i :: 0 <= i < last ==> js[..last][i] == js[i];
      if !Waiting(js[last]) then best
      else if best.None? || JobWakesAt(js[last]) < best.value then Some(JobWakesAt(js[last]))
      else best
  }

  /** A callback can be claimed exactly when the wake-up query says so; the one claimed is the earliest due. */
  lemma ClaimSucceedsIff(js: Jobs, token: Token, now: int)
    ensures TicketOf(js, token, now).Some? <==> NextCallbackAt(js).Some? && NextCallbackAt(js).value <= now
  {
    var due := NextCallbackAt(js);
    if due.Some? && due.value <= now {
      var i :| 0 <= i < |js| && Waiting(js[i]) && JobWakesAt(js[i]) == due.value;
      assert JobDue(js[i], now);
    }
    var r := NextDue(js, now);
    assert r.Some? ==> Waiting(js[r.value]) && JobWakesAt(js[r.value]) <= now;
  }

  // --- the store object --------------------------------------------------------------------------------------

  class ProviderStore {
    var payments: Payments
    var jobs: Jobs

    constructor ()
      ensures payments == map[] && jobs == []
    {
      payments, jobs := map[], [];
    }

    method Claim(t: TxId, terms: Terms, token: Token, now: int) returns (ok: bool, owned: bool)
      requires t in payments ==> payments[t].leaseToken != Some(token)
      modifies this`payments
      ensures ok == ClaimPayment(old(payments), t, terms, token, now).Ok?
      ensures payments == if ok then ClaimPayment(old(payments), t, terms, token, now).value else old(payments)
      ensures ok ==> owned == Owns(payments, t, token)
      ensures owned ==> !payments[t].attempted
      ensures owned <==> ok && (t !in old(payments) || Stealable(old(payments)[t], now))
    {
      if t !in payments { payments := payments[t := NewPayment(terms, token, now)]; }
      var p := payments[t];
      if p.terms.fingerprint != terms.fingerprint { return false, false; }
      if p.leaseToken != Some(token) && !p.attempted && p.status != Completed
         && (if p.leaseUntil.Some? then p.leaseUntil.value else 0) <= now {
        payments := payments[t := p.(leaseToken := Some(token), leaseUntil := Some(now + PAYMENT_LEASE_MS))];
      }
      return true, payments[t].leaseToken == Some(token);
    }

    method RenewVerifiedPaymentLease(t: TxId, token: Token, now: int) returns (ok: bool)
      modifies this`payments
      ensures ok == RenewLease(old(payments), t, token, now).Ok?
      ensures payments == if ok then RenewLease(old(payments), t, token, now).value else old(payments)
    {
      ok := Owns(payments, t, token) && !payments[t].attempted
            && (payments[t].status == Claimed || payments[t].status == ReportReady);
      if ok { payments := payments[t := payments[t].(leaseUntil := Some(now + VERIFIED_PAYMENT_LEASE_MS))]; }
    }

    method StoreReport(t: TxId, token: Token, report: Content) returns (ok: bool)
      modifies this`payments
      ensures ok == SaveReport(old(payments), t, token, report).Ok?
      ensures payments == if ok then SaveReport(old(payments), t, token, report).value else old(payments)
    {
      if !Owns(payments, t, token) || payments[t].attempted { return false; }
      if payments[t].report.Some? && payments[t].report.value != report { return false; }
      payments := payments[t := payments[t].(report := Some(report), status := ReportReady)];
      return true;
    }

    method MarkSettlementAttempted(t: TxId, token: Token) returns (ok: bool)
      modifies this`payments
      ensures ok == MarkAttempted(old(payments), t, token).Ok?
      ensures payments == if ok then MarkAttempted(old(payments), t, token).value else old(payments)
    {
      ok := Owns(payments, t, token) && payments[t].report.Some? && !payments[t].attempted;
      if ok { payments := payments[t := payments[t].(attempted := true, leaseToken := None, leaseUntil := None)]; }
    }

    method StoreSettlement(t: TxId, e: Settlement) returns (ok: bool)
      modifies this`payments
      ensures ok == SaveSettlement(old(payments), t, e).Ok?
      ensures payments == if ok then SaveSettlement(old(payments), t, e).value else old(payments)
    {
      if t !in payments || !payments[t].attempted || payments[t].report.None? { return false; }
      if !ValidEvidence(payments[t], t, e) { return false; }
      if payments[t].settlement.Some? && payments[t].settlement.value != e { return false; }
      payments := payments[t := payments[t].(settlement := Some(e), status := Settled)];
      return true;
    }

    method RecordUnconfirmedSettlement(t: TxId, now: int, unconfirmed: bool) returns (ok: bool)
      modifies this`payments
      ensures ok == RecordUnconfirmed(old(payments), t, now, unconfirmed).Ok?
      ensures payments == if ok then RecordUnconfirmed(old(payments), t, now, unconfirmed).value else old(payments)
    {
      if t !in payments || !payments[t].attempted || payments[t].report.None? { return false; }
      var p := payments[t];
      if p.status == Completed || p.status == SettlementFailed { return true; }
      if unconfirmed && p.settlement.None? && now > p.terms.validUntil + SETTLEMENT_FAILURE_GRACE_MS {
        payments := payments[t := p.(status := SettlementFailed)];
      }
      return true;
    }

    method CompleteAndEnqueue(t: TxId, body: Body, now: int) returns (ok: bool)
      modifies this
      ensures ok == Complete(old(Tables(payments, jobs)), t, body, now).Ok?
      ensures Tables(payments, jobs) == if ok then Complete(old(Tables(payments, jobs)), t, body, now).value
                                        else old(Tables(payments, jobs))
    {
      if t !in payments { return false; }
      var p := payments[t];
      if p.report.None? || p.settlement.None? || (p.status != Settled && p.status != Completed) { return false; }
      // The transaction: on conflict both tables are rolled back.
      var before := payments;
      if p.status == Settled {
        payments := payments[t := p.(status := Completed, leaseToken := None, leaseUntil := None)];
      }
      var stored := FindKey(jobs, body.report);
      if stored.None? {
        jobs := jobs + [Job(body.report, t, body, Pending, 0, now, None, None)];
      } else if jobs[stored.value].body != body {
        payments := before;
        return false;
      }
      return true;
    }

    method ClaimDueCallback(token: Token, now: int) returns (ticket: Option<Ticket>)
      modifies this`jobs
      ensures ticket == TicketOf(old(jobs), token, now) && jobs == ClaimedJobs(old(jobs), token, now)
      ensures ticket.Some? <==> NextCallbackAt(old(jobs)).Some? && NextCallbackAt(old(jobs)).value <= now
    {
      ClaimSucceedsIff(jobs, token, now);
      ticket := TicketOf(jobs, token, now);
      jobs := ClaimedJobs(jobs, token, now);
    }

    method FinishCallback(k: Ticket, status: JobStatus, nextAttemptAt: Option<int>, attempts: nat) returns (ok: bool)
      modifies this`jobs
      ensures ok == Finish(old(jobs), k, status, nextAttemptAt, attempts).Ok?
      ensures jobs == if ok then Finish(old(jobs), k, status, nextAttemptAt, attempts).value else old(jobs)
    {
      ok := k.index < |jobs| && jobs[k.index].status == Processing && jobs[k.index].leaseToken == Some(k.token);
      if ok {
        var next := if nextAttemptAt.Some? then nextAttemptAt.value else jobs[k.index].nextAttemptAt;
        jobs := jobs[k.index := jobs[k.index].(status := status, attempts := attempts, nextAttemptAt := next,
                                               leaseToken := None, leaseUntil := None)];
      }
    }

    method RetryCallback(k: Ticket, nextAttemptAt: int) returns (ok: bool)
      modifies this`jobs
      ensures ok == RetryJob(old(jobs), k, nextAttemptAt).Ok?
      ensures jobs == if ok then RetryJob(old(jobs), k, nextAttemptAt).value else old(jobs)
    {
      var attempts := k.attempts + 1;
      if attempts >= MAX_CALLBACK_ATTEMPTS { ok := FinishCallback(k, Failed, None, attempts); }
      else { ok := FinishCallback(k, Pending, Some(nextAttemptAt), attempts); }
    }
  }
}
