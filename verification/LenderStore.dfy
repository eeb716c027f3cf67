/**
 The lender's funding and registration tables and the guarded updates on them. A funding row is
 identified by its offer: the row id is a hash of the offer id, and `offer_id` is unique.
 */
module LenderStore {
  import opened Common

  type OfferId = nat
  type TxId = nat
  type Hash = nat
  // A submission token is a fresh UUID drawn by one `accept` call; it doubles as the name of that call.
  type Token = nat

  datatype Status = Reserved | Preparing | Pending | Confirmed | Registered

  datatype Funding = Funding(acceptance: Hash, tx: Option<TxId>, token: Option<Token>, status: Status, updatedAt: int)

  datatype Payload = Payload(acceptance: Hash, tx: TxId)

  datatype Registration = Registration(payload: Payload, delivered: bool, attempts: nat)

  type Fundings = map<OfferId, Funding>

  type Outbox = map<OfferId, Registration>

  /** Inserts the row unless the offer has one. A conflicting acceptance is rejected by the caller's comparison. */
  function ReserveFunding(f: Fundings, o: OfferId, acceptance: Hash, now: int): Fundings
  {
    if o in f then f else f[o := Funding(acceptance, None, None, Reserved, now)]
  }

  // In the updates below None stands for "changes !== 1".

  function ClaimSubmission(f: Fundings, o: OfferId, token: Token, now: int, staleBefore: int): Option<Fundings>
  {
    if o in f && f[o].tx.None? && (f[o].status == Reserved || (f[o].status == Preparing && f[o].updatedAt <= staleBefore))
    then Some(f[o := f[o].(status := Preparing, token := Some(token), updatedAt := now)])
    else None
  }

  function ReleaseSubmission(f: Fundings, o: OfferId, token: Token, now: int): Option<Fundings>
  {
    if o in f && f[o].status == Preparing && f[o].tx.None? && f[o].token == Some(token)
    then Some(f[o := f[o].(status := Reserved, token := None, updatedAt := now)])
    else None
  }

  predicate TxTaken(f: Fundings, o: OfferId, t: TxId)
  {
    exists k :: k in f && k != o && f[k].tx == Some(t)
  }

  predicate Holds(f: Fundings, o: OfferId, token: Token)
  {
    o in f && (f[o].status == Preparing || f[o].status == Pending) && f[o].token == Some(token)
  }

  function SetTransaction(f: Fundings, o: OfferId, token: Token, t: TxId, now: int): Option<Fundings>
  {
    if Holds(f, o, token) && (f[o].tx.None? || f[o].tx == Some(t)) && !TxTaken(f, o, t)
    then Some(f[o := f[o].(tx := Some(t), status := Pending, updatedAt := now)])
    else None
  }

  function ReplaceTransaction(f: Fundings, o: OfferId, token: Token, expected: TxId, t: TxId, now: int): Option<Fundings>
  {
    if Holds(f, o, token) && f[o].tx == Some(expected) && !TxTaken(f, o, t)
    then Some(f[o := f[o].(tx := Some(t), updatedAt := now)])
    else None
  }

  function MarkConfirmed(f: Fundings, o: OfferId, t: TxId, now: int): Option<Fundings>
  {
    if o in f && f[o].tx == Some(t) && (f[o].status == Pending || f[o].status == Confirmed)
    then Some(f[o := f[o].(status := Confirmed, updatedAt := now)])
    else None
  }

  /** INSERT OR IGNORE: the first payload queued for a funding stays. */
  function Enqueue(q: Outbox, o: OfferId, p: Payload): Outbox
  {
    if o in q then q else q[o := Registration(p, false, 0)]
  }

  function PendingRegistration(q: Outbox, o: OfferId): Option<Payload>
  {
    if o in q && !q[o].delivered then Some(q[o].payload) else None
  }

  function RecordFailure(q: Outbox, o: OfferId): Outbox
  {
    if o in q && !q[o].delivered then q[o := q[o].(attempts := q[o].attempts + 1)] else q
  }

  function Delivered(q: Outbox, o: OfferId): Outbox
  {
    if o in q && !q[o].delivered then q[o := q[o].(delivered := true, attempts := q[o].attempts + 1)] else q
  }

  function MarkRegistered(f: Fundings, o: OfferId, now: int): Fundings
  {
    if o in f then f[o := f[o].(status := Registered, updatedAt := now)] else f
  }

  class Store {
    var fundings: Fundings
    var outbox: Outbox

    constructor ()
      ensures fundings == map[] && outbox == map[]
    {
      fundings, outbox := map[], map[];
    }

    /** The row for an offer, inserted if need be; None when the offer was accepted with other content. */
    method Reserve(o: OfferId, acceptance: Hash, now: int) returns (row: Option<Funding>)
      modifies this`fundings
      ensures fundings == ReserveFunding(old(fundings), o, acceptance, now)
      ensures row.Some? <==> fundings[o].acceptance == acceptance
      ensures row.Some? ==> row.value == fundings[o]
    {
      if o in fundings {
        return if fundings[o].acceptance == acceptance then Some(fundings[o]) else None;
      }
      fundings := fundings[o := Funding(acceptance, None, None, Reserved, now)];
      return Some(fundings[o]);
    }

    // Rows of other offers are not touched.
    twostate predicate OthersStay(o: OfferId)
      reads this
    {
      forall k :: k != o ==> (k in fundings <==> k in old(fundings)) && (k in fundings ==> fundings[k] == old(fundings)[k])
    }

    /** Takes a free or stale row that has no transaction yet. */
    method ClaimFundingSubmission(o: OfferId, token: Token, now: int, staleBefore: int) returns (ok: bool)
      modifies this`fundings
      ensures ok == ClaimSubmission(old(fundings), o, token, now, staleBefore).Some?
      ensures fundings == if ok then ClaimSubmission(old(fundings), o, token, now, staleBefore).value else old(fundings)
      ensures ok ==> Holds(fundings, o, token) && old(fundings)[o].tx.None? && fundings[o].tx.None?
      ensures OthersStay(o)
    {
      if o !in fundings || fundings[o].tx.Some? { return false; }
      var row := fundings[o];
      if row.status != Reserved && (row.status != Preparing || row.updatedAt > staleBefore) { return false; }
      row := row.(status := Preparing, token := Some(token));
      fundings := fundings[o := row.(updatedAt := now)];
      return true;
    }

    /** Gives back a claim, under its own token, that never got a transaction. */
    method ReleaseFundingSubmission(o: OfferId, token: Token, now: int)
      modifies this`fundings
      ensures var r := ReleaseSubmission(old(fundings), o, token, now);
              fundings == if r.Some? then r.value else old(fundings)
      ensures fundings != old(fundings) ==> Holds(old(fundings), o, token) && !Holds(fundings, o, token)
      ensures o in old(fundings) ==> o in fundings && fundings[o].tx == old(fundings)[o].tx
      ensures OthersStay(o)
    {
      if o !in fundings { return; }
      var row := fundings[o];
      if row.status == Preparing && row.tx.None? && row.token == Some(token) {
        row := row.(status := Reserved, token := None);
        fundings := fundings[o := row.(updatedAt := now)];
      }
    }

    /** Stores an id for the holder of the row, never over another id. */
    method SetFundingTransaction(o: OfferId, token: Token, t: TxId, now: int) returns (ok: bool)
      modifies this`fundings
      ensures ok == SetTransaction(old(fundings), o, token, t, now).Some?
      ensures fundings == if ok then SetTransaction(old(fundings), o, token, t, now).value else old(fundings)
      ensures ok ==> Holds(old(fundings), o, token) && Holds(fundings, o, token) && fundings[o].tx == Some(t)
      ensures o in old(fundings) && old(fundings)[o].tx.Some? ==> o in fundings && fundings[o].tx == old(fundings)[o].tx
      ensures OthersStay(o)
    {
      if o !in fundings || fundings[o].token != Some(token) { return false; }
      var row := fundings[o];
      if row.status != Preparing && row.status != Pending { return false; }
      if row.tx.Some? && row.tx.value != t { return false; }
      if TxTaken(fundings, o, t) { return false; }
      row := row.(tx := Some(t), status := Pending);
      fundings := fundings[o := row.(updatedAt := now)];
      return true;
    }

    /** Replaces the expected id, and no other, for the holder of the row. */
    method ReplaceFundingTransaction(o: OfferId, token: Token, expected: TxId, t: TxId, now: int) returns (ok: bool)
      modifies this`fundings
      ensures ok == ReplaceTransaction(old(fundings), o, token, expected, t, now).Some?
      ensures fundings == if ok then ReplaceTransaction(old(fundings), o, token, expected, t, now).value else old(fundings)
      ensures ok ==> Holds(old(fundings), o, token) && old(fundings)[o].tx == Some(expected) && fundings[o].tx == Some(t)
      ensures o in old(fundings) && old(fundings)[o].tx != Some(expected) ==> o in fundings && fundings[o].tx == old(fundings)[o].tx
      ensures OthersStay(o)
    {
      if o !in fundings || fundings[o].token != Some(token) || fundings[o].tx != Some(expected) { return false; }
      var row := fundings[o];
      if row.status != Preparing && row.status != Pending { return false; }
      if TxTaken(fundings, o, t) { return false; }
      row := row.(tx := Some(t));
      fundings := fundings[o := row.(updatedAt := now)];
      return true;
    }

    /** Confirms a submitted funding under its own id. */
    method MarkFundingConfirmed(o: OfferId, t: TxId, now: int) returns (ok: bool)
      modifies this`fundings
      ensures ok == MarkConfirmed(old(fundings), o, t, now).Some?
      ensures fundings == if ok then MarkConfirmed(old(fundings), o, t, now).value else old(fundings)
      ensures ok ==> old(fundings)[o].tx == Some(t) && fundings[o].tx == Some(t) && fundings[o].status == Confirmed
      ensures ok ==> old(fundings)[o].status != Reserved && old(fundings)[o].status != Preparing
      ensures OthersStay(o)
    {
      if o !in fundings || fundings[o].tx != Some(t) { return false; }
      var row := fundings[o];
      if row.status != Pending && row.status != Confirmed { return false; }
      row := row.(status := Confirmed);
      fundings := fundings[o := row.(updatedAt := now)];
      return true;
    }

    /** Queues a payload, unless the funding has one. */
    method EnqueueRegistration(o: OfferId, p: Payload)
      modifies this`outbox
      ensures outbox == Enqueue(old(outbox), o, p)
      ensures o in outbox && (outbox[o].payload == if o in old(outbox) then old(outbox)[o].payload else p)
      ensures forall k :: k in old(outbox) ==> k in outbox && outbox[k] == old(outbox)[k]
    {
      if o !in outbox { outbox := outbox[o := Registration(p, false, 0)]; }
    }

    // What is queued, for this funding and for all others, stays.
    twostate predicate PayloadsStay(o: OfferId)
      reads this
    {
      outbox.Keys == old(outbox).Keys
      && forall k :: k in outbox ==> outbox[k].payload == old(outbox)[k].payload && (k != o ==> outbox[k] == old(outbox)[k])
    }

    /** Counts a failed attempt of a registration that is still to be delivered. */
    method RecordRegistrationFailure(o: OfferId)
      modifies this`outbox
      ensures outbox == RecordFailure(old(outbox), o)
      ensures PayloadsStay(o)
      ensures o in outbox ==> outbox[o].delivered == old(outbox)[o].delivered
    {
      if o in outbox && !outbox[o].delivered {
        var row := outbox[o];
        outbox := outbox[o := row.(attempts := row.attempts + 1)];
      }
    }

    /** Delivery and registration in one transaction: the queued payload and the funding's id stay as they are. */
    method MarkFundingRegistered(o: OfferId, now: int)
      modifies this
      ensures outbox == Delivered(old(outbox), o) && fundings == MarkRegistered(old(fundings), o, now)
      ensures PayloadsStay(o) && OthersStay(o)
      ensures o in outbox ==> outbox[o].delivered
      ensures o in old(fundings) ==>
                o in fundings && fundings[o].status == Registered
                && fundings[o].tx == old(fundings)[o].tx && fundings[o].acceptance == old(fundings)[o].acceptance
    {
      if o in outbox && !outbox[o].delivered {
        var queued := outbox[o];
        outbox := outbox[o := queued.(attempts := queued.attempts + 1, delivered := true)];
      }
      if o in fundings {
        var row := fundings[o];
        row := row.(status := Registered);
        fundings := fundings[o := row.(updatedAt := now)];
      }
    }
  }
}
