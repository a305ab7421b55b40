/** The retrying delivery queue that webhooks and alerts share. */
module Delivery {
  // `WebhookDeliveryStore` and `WebhookWorker` of `skr_crypto/server/webhooks.py`, `AlertDeliveryStore` and
  // `AlertWorker` of `skr_crypto/server/alerts.py`, which differ in what they send and in the give-up record.

  import opened OldestFirst
  import opened Options

  const TAKE_LIMIT: nat := 50

  datatype Status = Pending | Delivered | Failed | GivingUp

  /** A delivery row; `last_error` is diagnostic and not modelled. */
  datatype Row = Row(
    auditId: nat, event: string, target: string, payload: string, status: Status, attempts: nat, nextAt: real,
    lastAt: Option<real>, lastCode: Option<int>, createdAt: real)

  type Rows = map<nat, Row>

  function NewRow(auditId: nat, event: string, target: string, payload: string, now: real): Row {
    Row(auditId, event, target, payload, Pending, 0, now, None, None, now)
  }

  /** The pending rows whose time has come, with that time. */
  function Due(rows: Rows, now: real): map<nat, real> {
    map id | id in rows && rows[id].status == Pending && rows[id].nextAt <= now :: rows[id].nextAt
  }

  /** The UPDATE of `update_outcome`: an unknown id changes nothing. */
  function Updated(rows: Rows, id: nat, status: Status, attempts: nat, nextAt: real, lastAt: Option<real>,
                   lastCode: Option<int>): Rows {
    if id in rows
    then rows[id := rows[id].(status := status, attempts := attempts, nextAt := nextAt, lastAt := lastAt, lastCode := lastCode)]
    else rows
  }

  predicate Retryable(rows: Rows, id: nat) {
    id in rows && (rows[id].status == GivingUp || rows[id].status == Failed)
  }

  function Forced(rows: Rows, id: nat, now: real): Rows {
    if Retryable(rows, id) then rows[id := rows[id].(status := Pending, nextAt := now)] else rows
  }

  /** A given-up or failed row is due again at once and keeps everything but status and time; no other
      row, and no row of another status, is touched. */
  lemma ForcedMeaning(rows: Rows, id: nat, now: real, other: nat)
    ensures id in rows && (rows[id].status == GivingUp || rows[id].status == Failed) ==>
              && id in Due(Forced(rows, id, now), now)
              && Forced(rows, id, now)[id] == rows[id].(status := Pending, nextAt := now)
    ensures id in rows && (rows[id].status == Pending || rows[id].status == Delivered) ==> Forced(rows, id, now) == rows
    ensures id !in rows ==> Forced(rows, id, now) == rows
    ensures other != id ==>
              && (other in Forced(rows, id, now) <==> other in rows)
              && (other in rows ==> Forced(rows, id, now)[other] == rows[other])
  {}

  class DeliveryStore {
    var rows: Rows
    var nextId: nat

    constructor ()
      ensures rows == map[] && nextId == 1
    {
      rows, nextId := map[], 1;
    }

    method Enqueue(auditId: nat, event: string, target: string, payload: string, now: real) returns (id: nat)
      modifies this
      ensures id == old(nextId) && nextId == id + 1
      ensures rows == old(rows)[id := Row(auditId, event, target, payload, Pending, 0, now, None, None, now)]
      ensures rows == old(rows)[id := NewRow(auditId, event, target, payload, now)]
    {
      id := nextId;
      nextId := nextId + 1;
      rows := rows[id := Row(auditId, event, target, payload, Pending, 0, now, None, None, now)];
    }

    method TakeDue(now: real, limit: nat) returns (ids: seq<nat>)
      ensures FirstOf(Due(rows, now), limit, ids)
    {
      ids := Select(Due(rows, now), limit);
    }

    method UpdateOutcome(id: nat, status: Status, attempts: nat, nextAt: real, lastAt: Option<real>, lastCode: Option<int>)
      modifies this`rows
      ensures rows == Updated(old(rows), id, status, attempts, nextAt, lastAt, lastCode)
    {
      if id !in rows { return; }
      rows := rows[id := rows[id].(status := status, attempts := attempts, nextAt := nextAt, lastAt := lastAt, lastCode := lastCode)];
    }

    method Get(id: nat) returns (row: Option<Row>)
      ensures row == if id in rows then Some(rows[id]) else None
    {
      row := if id in rows then Some(rows[id]) else None;
    }

    method ForceRetry(id: nat, now: real) returns (reset: bool)
      modifies this`rows
      ensures reset <==> id in old(rows) && (old(rows)[id].status == GivingUp || old(rows)[id].status == Failed)
      ensures rows == if reset then old(rows)[id := old(rows)[id].(status := Pending, nextAt := now)] else old(rows)
      ensures rows == Forced(old(rows), id, now)
    {
      var rec := Get(id);
      if rec.None? { return false; }
      var row := rec.value;
      if row.status != GivingUp && row.status != Failed { return false; }
      UpdateOutcome(id, Pending, row.attempts, now, row.lastAt, row.lastCode);
      return true;
    }
  }

  // ----- one POST -----------------------------------------------------------------------------

  datatype Response = Code(code: int) | NoAnswer

  /** One call of `_deliver_one`: when it posts, when the answer is handled, the answer, whether the
      update after a 2xx answer and the update of the failure path work, and whether a shutdown has
      closed the store meanwhile: an update then goes to an empty memory and does nothing, silently. */
  datatype Try = Try(start: real, done: real, response: Response, saveSuccess: bool, saveFailure: bool, closed: bool)

  predicate Accepted(r: Response) {
    r.Code? && 200 <= r.code < 300
  }

  /** The answer was 2xx and is on record. */
  predicate Delivers(x: Try) {
    Accepted(x.response) && x.saveSuccess && !x.closed
  }

  /** The row was updated at all; otherwise the POST is forgotten and the tick ends. */
  predicate Saved(x: Try) {
    Delivers(x) || (x.saveFailure && !x.closed)
  }

  /** The worker counts this as its last failure and says so, on record or not. */
  predicate GivesUp(backoff: seq<real>, attempts: nat, x: Try) {
    && attempts + 1 >= |backoff| && (x.saveFailure || x.closed)
    && !(Accepted(x.response) && (x.saveSuccess || x.closed))
  }

  /** The attempts a schedule allows: an empty one still allows one. */
  function Allowed(backoff: seq<real>): nat {
    if |backoff| == 0 then 1 else |backoff|
  }

  /** The rows after a POST for a row taken with this many attempts. A 2xx answer whose update
      fails falls into the failure path, without a code. */
  function AfterTry(rows: Rows, backoff: seq<real>, id: nat, attempts: nat, x: Try): Rows {
    var n := attempts + 1;
    var code := if x.response.Code? && !Accepted(x.response) then Some(x.response.code) else None;
    if x.closed then rows
    else if Delivers(x) then Updated(rows, id, Delivered, n, 0.0, Some(x.done), Some(x.response.code))
    else if !x.saveFailure then rows
    else if n >= |backoff| then Updated(rows, id, GivingUp, n, 0.0, Some(x.done), code)
    else Updated(rows, id, Pending, n, x.done + backoff[n], Some(x.done), code)
  }

  /** The answer is a 2xx code. */
  predicate Success(r: Response) {
    match r
    case NoAnswer => false
    case Code(code) => code / 100 == 2
  }

  /** What one POST leaves in its row. An answer of 2xx that is put on record delivers the row; any
      other POST whose failure is put on record uses up an attempt, and with the schedule the row. */
  lemma PostMeaning(rows: Rows, backoff: seq<real>, id: nat, x: Try)
    requires id in rows
    ensures var row, row' := rows[id], AfterTry(rows, backoff, id, rows[id].attempts, x)[id];
            var delivered := Success(x.response) && x.saveSuccess && !x.closed;
            var failed := !delivered && x.saveFailure && !x.closed;
            && (!delivered && !failed ==> row' == row)
            && (delivered ==>
                  row' == row.(status := Delivered, attempts := row.attempts + 1, nextAt := 0.0, lastAt := Some(x.done),
                               lastCode := Some(x.response.code)))
            && (failed ==>
                  && row'.attempts == row.attempts + 1 && row'.lastAt == Some(x.done)
                  && row'.lastCode == (if x.response.Code? && !Success(x.response) then Some(x.response.code) else None)
                  && row'.status == (if row.attempts + 1 < |backoff| then Pending else GivingUp)
                  && (row'.status == Pending ==> row'.nextAt == x.done + backoff[row.attempts + 1])
                  && row'.auditId == row.auditId && row'.event == row.event && row'.target == row.target
                  && row'.payload == row.payload && row'.createdAt == row.createdAt)
  {}

  /** The worker says that it gives up exactly when the row of a pending delivery does, or, with the
      store closed under it, when the schedule is used up and the answer was not 2xx. */
  lemma GiveUpMeaning(rows: Rows, backoff: seq<real>, id: nat, x: Try)
    requires id in rows && rows[id].status == Pending
    ensures GivesUp(backoff, rows[id].attempts, x) <==>
              if x.closed then rows[id].attempts + 1 >= |backoff| && !Success(x.response)
              else AfterTry(rows, backoff, id, rows[id].attempts, x)[id].status == GivingUp
  {}

  /** A delivery as `take_due` hands it out: a snapshot. */
  datatype Job = Job(id: nat, row: Row)

  function Jobs(rows: Rows, ids: seq<nat>): (js: seq<Job>)
    requires forall m :: 0 <= m < |ids| ==> ids[m] in rows
    ensures |js| == |ids|
  {
    seq(|ids|, m requires 0 <= m < |ids| => Job(ids[m], rows[ids[m]]))
  }

  /** The rows after the first n POSTs of a batch. */
  function AfterTries(rows: Rows, backoff: seq<real>, jobs: seq<Job>, tries: seq<Try>, n: nat): Rows
    requires n <= |jobs| && n <= |tries|
  {
    if n == 0 then rows
    else AfterTry(AfterTries(rows, backoff, jobs, tries, n - 1), backoff, jobs[n - 1].id, jobs[n - 1].row.attempts, tries[n - 1])
  }

  class DeliveryWorker {
    const store: DeliveryStore
    const backoff: seq<real>

    constructor (store: DeliveryStore, backoff: seq<real>)
      ensures this.store == store && this.backoff == backoff
    {
      this.store, this.backoff := store, backoff;
    }

    method HandleFailure(id: nat, attempts: nat, code: Option<int>, done: real, save: bool, closed: bool)
      returns (saved: bool, gaveUp: bool)
      modifies store`rows
      ensures saved == (save && !closed) && gaveUp == ((save || closed) && attempts >= |backoff|)
      ensures store.rows ==
                if !save || closed then old(store.rows)
                else if attempts >= |backoff| then Updated(old(store.rows), id, GivingUp, attempts, 0.0, Some(done), code)
                else Updated(old(store.rows), id, Pending, attempts, done + backoff[attempts], Some(done), code)
    {
      if closed { return false, attempts >= |backoff|; }
      if !save { return false, false; }
      if attempts >= |backoff| {
        store.UpdateOutcome(id, GivingUp, attempts, 0.0, Some(done), code);
        return true, true;
      }
      var nextIn := backoff[attempts];
      store.UpdateOutcome(id, Pending, attempts, done + nextIn, Some(done), code);
      return true, false;
    }

    method DeliverOne(id: nat, d: Row, x: Try) returns (saved: bool, gaveUp: bool)
      modifies store`rows
      ensures store.rows == AfterTry(old(store.rows), backoff, id, d.attempts, x)
      ensures saved == Saved(x) && gaveUp == GivesUp(backoff, d.attempts, x)
    {
      var attempts := d.attempts + 1;
      var code: Option<int> := None;
      if x.response.Code? {
        if 200 <= x.response.code < 300 {
          if x.closed { return false, false; }
          if x.saveSuccess {
            store.UpdateOutcome(id, Delivered, attempts, 0.0, Some(x.done), Some(x.response.code));
            return true, false;
          }
        } else {
          code := Some(x.response.code);
        }
      }
      saved, gaveUp := HandleFailure(id, attempts, code, x.done, x.saveFailure, x.closed);
    }

    /** One turn of `run`: it ends early on a stop signal, when the tries run out, or when an update
        fails. `n` POSTs are made. */
    method Tick(now: real, tries: seq<Try>) returns (ids: seq<nat>, n: nat)
      modifies store`rows
      ensures FirstOf(Due(old(store.rows), now), TAKE_LIMIT, ids)
      ensures forall m :: 0 <= m < |ids| ==> ids[m] in old(store.rows)
      ensures n <= |ids| && n <= |tries|
      ensures store.rows == AfterTries(old(store.rows), backoff, Jobs(old(store.rows), ids), tries, n)
      ensures n == |ids| || n == |tries| || (n > 0 && !Saved(tries[n - 1]))
      ensures forall m :: 0 <= m < n - 1 ==> Saved(tries[m])
    {
      ids := store.TakeDue(now, TAKE_LIMIT);
      assert forall m :: 0 <= m < |ids| ==> ids[m] in Due(store.rows, now);
      n := RunJobs(Jobs(store.rows, ids), tries);
    }

    method RunJobs(jobs: seq<Job>, tries: seq<Try>) returns (n: nat)
      modifies store`rows
      ensures n <= |jobs| && n <= |tries|
      ensures store.rows == AfterTries(old(store.rows), backoff, jobs, tries, n)
      ensures n == |jobs| || n == |tries| || (n > 0 && !Saved(tries[n - 1]))
      ensures forall m :: 0 <= m < n - 1 ==> Saved(tries[m])
    {
      n := 0;
      while n < |jobs| && n < |tries|
        invariant n <= |jobs| && n <= |tries|
        invariant store.rows == AfterTries(old(store.rows), backoff, jobs, tries, n)
        invariant forall m :: 0 <= m < n ==> Saved(tries[m])
      {
        var saved, _ := DeliverOne(jobs[n].id, jobs[n].row, tries[n]);
        n := n + 1;
        if !saved { return; }
      }
    }
  }
}
