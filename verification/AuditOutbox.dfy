/**
 The `hcs_audit_outbox` table. Rows are kept in event order: row i belongs to the event with the
 i-th `seq`, since an event and its outbox row are inserted in one transaction. Each operation is
 one SQL transaction or one guarded UPDATE, so each is one atomic step on the whole table.
 */
module AuditOutbox {
  import opened Common
  import Ledger

  type EventId = nat
  type Token = nat

  datatype Status = Pending | Processing | Published

  // The signed bytes carry their own transaction id, so the two columns are one value.
  datatype Prepared = Prepared(txId: Ledger.TxId, validUntil: int)

  datatype Row = Row(
    mission: nat,
    status: Status,
    attempts: nat,
    nextAttemptAt: int,
    leaseToken: Option<Token>,
    leaseUntil: Option<int>,
    prepared: Option<Prepared>,
    submissionAttempted: bool,
    seqNo: Option<nat>)

  type Table = seq<Row>

  // What a worker carries away from a claim: a snapshot of the row.
  datatype Job = Job(
    event: EventId,
    token: Token,
    attempts: nat,
    prepared: Option<Prepared>,
    submissionAttempted: bool)

  function NewRow(mission: nat, occurredAt: int): Row
  {
    Row(mission, Pending, 0, occurredAt, None, None, None, false, None)
  }

  // --- claiming ---------------------------------------------------------------------------------

  predicate Unblocked(rows: Table, i: EventId)
    requires i < |rows|
  {
    forall k :: 0 <= k < i && rows[k].mission == rows[i].mission ==> rows[k].status == Published
  }

  function LeaseOr(row: Row, default: int): int
  {
    if row.leaseUntil.Some? then row.leaseUntil.value else default
  }

  predicate Due(row: Row, now: int)
  {
    row.status != Published && row.nextAttemptAt <= now && (row.status == Pending || LeaseOr(row, 0) <= now)
  }

  predicate Claimable(rows: Table, now: int, i: EventId)
  {
    i < |rows| && Due(rows[i], now) && Unblocked(rows, i)
  }

  /** The candidate query: the claimable row with the smallest event sequence. */
  function FirstClaimable(rows: Table, now: int, start: nat): (r: Option<EventId>)
    requires start <= |rows|
    ensures r.None? ==> forall i :: start <= i < |rows| ==> !Claimable(rows, now, i)
    ensures r.Some? ==> start <= r.value && Claimable(rows, now, r.value)
    ensures r.Some? ==> forall i :: start <= i < r.value ==> !Claimable(rows, now, i)
    decreases |rows| - start
  {
    if start == |rows| then None
    else if Claimable(rows, now, start) then Some(start)
    else FirstClaimable(rows, now, start + 1)
  }

  function Leased(row: Row, token: Token, until: int): Row
  {
    row.(status := Processing, leaseToken := Some(token), leaseUntil := Some(until))
  }

  function JobOf(rows: Table, i: EventId, token: Token): Job
    requires i < |rows|
  {
    Job(i, token, rows[i].attempts, rows[i].prepared, rows[i].submissionAttempted)
  }

  function ClaimedTable(rows: Table, now: int, leaseMs: nat, token: Token): Table
  {
    match FirstClaimable(rows, now, 0)
    case None => rows
    case Some(i) => rows[i := Leased(rows[i], token, now + leaseMs)]
  }

  function ClaimedJob(rows: Table, now: int, token: Token): Option<Job>
  {
    match FirstClaimable(rows, now, 0)
    case None => None
    case Some(i) => Some(JobOf(rows, i, token))
  }

  // --- updates fenced by the lease token -----------------------------------------------------------

  predicate HoldsLease(rows: Table, i: EventId, token: Token)
  {
    i < |rows| && rows[i].status == Processing && rows[i].leaseToken == Some(token)
  }

  predicate TxIdUnused(rows: Table, i: EventId, t: Ledger.TxId)
  {
    forall k :: 0 <= k < |rows| && k != i && rows[k].prepared.Some? ==> rows[k].prepared.value.txId != t
  }

  // None stands for the exception: the lease was lost or a constraint was violated.
  function WithPrepared(rows: Table, i: EventId, token: Token, p: Prepared): Option<Table>
  {
    if HoldsLease(rows, i, token) && TxIdUnused(rows, i, p.txId)
    then Some(rows[i := rows[i].(prepared := Some(p))])
    else None
  }

  function WithAttempt(rows: Table, i: EventId, token: Token): Option<Table>
  {
    if HoldsLease(rows, i, token) then Some(rows[i := rows[i].(submissionAttempted := true)]) else None
  }

  function WithPublication(rows: Table, i: EventId, token: Token, t: Ledger.TxId, seqNo: nat): Option<Table>
  {
    if HoldsLease(rows, i, token) && rows[i].prepared.Some? && TxIdUnused(rows, i, t)
    then Some(rows[i := rows[i].(
                     status := Published, prepared := Some(rows[i].prepared.value.(txId := t)),
                     seqNo := Some(seqNo), leaseToken := None, leaseUntil := None)])
    else None
  }

  function WithRetry(rows: Table, i: EventId, token: Token, nextAttemptAt: int, resetPrepared: bool): Option<Table>
  {
    if HoldsLease(rows, i, token)
    then
      var kept := if resetPrepared then rows[i].(prepared := None, submissionAttempted := false) else rows[i];
      Some(rows[i := kept.(status := Pending, attempts := kept.attempts + 1, nextAttemptAt := nextAttemptAt,
                           leaseToken := None, leaseUntil := None)])
    else None
  }

  // --- queries --------------------------------------------------------------------------------------

  // When a row may next be taken, as the `nextAttemptAt` query computes it.
  function WakeAt(row: Row): int
  {
    if row.status == Processing then Max(row.nextAttemptAt, LeaseOr(row, row.nextAttemptAt)) else row.nextAttemptAt
  }

  /** MIN over the unpublished rows; NULL when there are none. */
  function NextAttemptAt(rows: Table): (r: Option<int>)
    ensures r.None? <==> forall i :: 0 <= i < |rows| ==> rows[i].status == Published
    ensures r.Some? ==> forall i :: 0 <= i < |rows| && rows[i].status != Published ==> r.value <= WakeAt(rows[i])
    ensures r.Some? ==> exists i :: 0 <= i < |rows| && rows[i].status != Published && r.value == WakeAt(rows[i])
  {
    if rows == [] then None
    else
      var last := |rows| - 1;
      var before := NextAttemptAt(rows[..last]);
      assert forall i :: 0 <= i < last ==> rows[..last][i] == rows[i];
      if rows[last].status == Published then before
      else if before.None? || WakeAt(rows[last]) <= before.value then Some(WakeAt(rows[last]))
      else before
  }

  /** The row of its mission that publication is waiting for. */
  predicate Head(rows: Table, i: EventId)
  {
    i < |rows| && rows[i].status != Published && Unblocked(rows, i)
  }

  /** What every run keeps (AuditSafety.Inv contains it): a lease exactly while processing, a time never negative. */
  predicate LeasesWellFormed(rows: Table)
  {
    forall i :: 0 <= i < |rows| ==>
      && (rows[i].status == Processing <==> rows[i].leaseToken.Some?)
      && (rows[i].status == Processing <==> rows[i].leaseUntil.Some?)
  }

  predicate DueHead(rows: Table, now: int, i: EventId)
  {
    Head(rows, i) && WakeAt(rows[i]) <= now
  }

  /** A claim succeeds exactly when the head of some mission is due, and takes the earliest such event. */
  lemma ClaimSucceedsIff(rows: Table, now: int, token: Token)
    requires LeasesWellFormed(rows)
    ensures ClaimedJob(rows, now, token).Some? <==> exists i :: DueHead(rows, now, i)
    ensures ClaimedJob(rows, now, token).Some? ==>
              var i := ClaimedJob(rows, now, token).value.event;
              DueHead(rows, now, i) && (forall k :: DueHead(rows, now, k) ==> i <= k)
  {
    forall i: EventId
      ensures Claimable(rows, now, i) <==> DueHead(rows, now, i)
    {
    }
  }

  /** The wake-up time is a lower bound for the next successful claim. */
  lemma ClaimImpliesWakeUp(rows: Table, now: int, token: Token)
    requires LeasesWellFormed(rows) && ClaimedJob(rows, now, token).Some?
    ensures NextAttemptAt(rows).Some? && NextAttemptAt(rows).value <= now
  {
    ClaimSucceedsIff(rows, now, token);
  }

  /** ... but only a lower bound: a row waiting behind its mission's head is counted although it cannot be taken. */
  lemma WakeUpNeedNotClaim()
    ensures exists rows: Table, now, token :: LeasesWellFormed(rows)
              && NextAttemptAt(rows).Some? && NextAttemptAt(rows).value <= now && ClaimedJob(rows, now, token).None?
  {
    var rows := [NewRow(0, 100), NewRow(0, 5)];
    assert WakeAt(rows[1]) == 5;
    assert !Unblocked(rows, 1) by { assert rows[0].mission == rows[1].mission; }
    assert !Claimable(rows, 10, 0) && !Claimable(rows, 10, 1);
    assert ClaimedJob(rows, 10, 0).None?;
    assert NextAttemptAt(rows).value <= WakeAt(rows[1]) <= 10;
  }

  // --- the store object ------------------------------------------------------------------------------

  // The publication columns of an `events` row, empty until the event is published.
  type Publication = Option<(Ledger.TxId, nat)>

  function PublicationOf(row: Row): Publication
  {
    if row.status == Published && row.prepared.Some? && row.seqNo.Some? then Some((row.prepared.value.txId, row.seqNo.value))
    else None
  }

  function PublicationsOf(rows: Table): (p: seq<Publication>)
    ensures |p| == |rows| && forall i :: 0 <= i < |rows| ==> p[i] == PublicationOf(rows[i])
  {
    seq(|rows|, i requires 0 <= i < |rows| => PublicationOf(rows[i]))
  }

  class SqliteAuditOutbox {
    var rows: Table
    var events: seq<Publication>

    /** An event carries the publication of its outbox row, and none before. */
    predicate Mirrored()
      reads this
    {
      |events| == |rows| && forall i :: 0 <= i < |rows| ==> events[i] == PublicationOf(rows[i])
    }

    constructor ()
      ensures rows == [] && Mirrored()
    {
      rows, events := [], [];
    }

    /** `createEvent`: the event and its outbox row, appended at the next sequence number. */
    method CreateEvent(mission: nat, occurredAt: int)
      modifies this
      ensures rows == old(rows) + [NewRow(mission, occurredAt)] && events == old(events) + [None]
      ensures old(Mirrored()) ==> Mirrored()
    {
      rows := rows + [NewRow(mission, occurredAt)];
      events := events + [None];
    }

    method ClaimDue(now: int, leaseMs: nat, token: Token) returns (job: Option<Job>)
      modifies this`rows
      ensures old(Mirrored()) ==> Mirrored()
      ensures rows == ClaimedTable(old(rows), now, leaseMs, token)
      ensures job == ClaimedJob(old(rows), now, token)
      ensures job.Some? ==> HoldsLease(rows, job.value.event, token)
    {
      var candidate := FirstClaimable(rows, now, 0);
      if candidate.None? { return None; }
      var i := candidate.value;
      job := Some(JobOf(rows, i, token));
      rows := rows[i := Leased(rows[i], token, now + leaseMs)];
    }

    /** The guarded UPDATE of a single row behind every mutation; false stands for "changes !== 1". */
    method Mutate(job: Job, row: Row) returns (ok: bool)
      modifies this`rows
      ensures ok == HoldsLease(old(rows), job.event, job.token)
      ensures rows == if ok then old(rows)[job.event := row] else old(rows)
    {
      ok := HoldsLease(rows, job.event, job.token);
      if ok { rows := rows[job.event := row]; }
    }

    method SavePrepared(job: Job, p: Prepared) returns (ok: bool)
      modifies this`rows
      ensures old(Mirrored()) ==> Mirrored()
      ensures ok == WithPrepared(old(rows), job.event, job.token, p).Some?
      ensures rows == if ok then WithPrepared(old(rows), job.event, job.token, p).value else old(rows)
    {
      if job.event >= |rows| || !TxIdUnused(rows, job.event, p.txId) { return false; }
      ok := Mutate(job, rows[job.event].(prepared := Some(p)));
    }

    method MarkSubmissionAttempted(job: Job) returns (ok: bool)
      modifies this`rows
      ensures old(Mirrored()) ==> Mirrored()
      ensures ok == WithAttempt(old(rows), job.event, job.token).Some?
      ensures rows == if ok then WithAttempt(old(rows), job.event, job.token).value else old(rows)
    {
      if job.event >= |rows| { return false; }
      ok := Mutate(job, rows[job.event].(submissionAttempted := true));
    }

    /** One transaction over both tables: the row, and the event, which must not have been published before. */
    method MarkPublished(job: Job, t: Ledger.TxId, seqNo: nat) returns (ok: bool)
      modifies this
      ensures ok == (WithPublication(old(rows), job.event, job.token, t, seqNo).Some?
                     && job.event < |old(events)| && old(events)[job.event].None?)
      ensures rows == if ok then WithPublication(old(rows), job.event, job.token, t, seqNo).value else old(rows)
      ensures events == if ok then old(events)[job.event := Some((t, seqNo))] else old(events)
      ensures old(Mirrored()) ==> Mirrored() && ok == WithPublication(old(rows), job.event, job.token, t, seqNo).Some?
    {
      if job.event >= |rows| || rows[job.event].prepared.None? || !TxIdUnused(rows, job.event, t) { return false; }
      var saved := rows;
      var row := rows[job.event];
      ok := Mutate(job, row.(status := Published, prepared := Some(row.prepared.value.(txId := t)),
                             seqNo := Some(seqNo), leaseToken := None, leaseUntil := None));
      if !ok { return; }
      if job.event >= |events| || events[job.event].Some? {
        rows := saved;
        return false;
      }
      events := events[job.event := Some((t, seqNo))];
    }

    method Retry(job: Job, nextAttemptAt: int, resetPrepared: bool) returns (ok: bool)
      modifies this`rows
      ensures old(Mirrored()) ==> Mirrored()
      ensures ok == WithRetry(old(rows), job.event, job.token, nextAttemptAt, resetPrepared).Some?
      ensures rows == if ok then WithRetry(old(rows), job.event, job.token, nextAttemptAt, resetPrepared).value
                      else old(rows)
    {
      if job.event >= |rows| { return false; }
      var row := rows[job.event];
      if resetPrepared { row := row.(prepared := None, submissionAttempted := false); }
      ok := Mutate(job, row.(status := Pending, attempts := row.attempts + 1, nextAttemptAt := nextAttemptAt,
                             leaseToken := None, leaseUntil := None));
    }
  }
}
