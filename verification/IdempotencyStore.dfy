/** The idempotency table as mutable state, and the middleware that decides what a request may do. */
module IdempotencyStore {
  import opened Options
  import opened Idempotency

  /** The request body fields that make two requests the same logical request. */
  datatype Body = Body(orderId: string, amount: int, currency: string, customerReference: string)

  function UpperChar(c: char): char {
    if 'a' <= c <= 'z' then (c as int - 32) as char else c
  }

  function Upper(s: string): string {
    seq(|s|, k requires 0 <= k < |s| => UpperChar(s[k]))
  }

  /** An absent or empty customer reference counts as null; currency case does not count. */
  function HashRequest(b: Body): Hash {
    Hash(b.orderId, b.amount, Upper(b.currency), if b.customerReference == "" then None else Some(b.customerReference))
  }

  /** The same letter, in whatever case; other characters only themselves. */
  predicate SameLetter(c: char, d: char) {
    || c == d
    || ('a' <= c <= 'z' && d as int == c as int - 32)
    || ('a' <= d <= 'z' && c as int == d as int - 32)
  }

  lemma UpperIsByLetter(c: char, d: char)
    ensures UpperChar(c) == UpperChar(d) <==> SameLetter(c, d)
  {
  }

  /** Writing the currency in another case is the same request; any other difference is not. */
  lemma HashIdentifiesRequests(a: Body, b: Body)
    ensures HashRequest(a) == HashRequest(b) <==>
            a.orderId == b.orderId && a.amount == b.amount && a.customerReference == b.customerReference
            && |a.currency| == |b.currency|
            && forall k :: 0 <= k < |a.currency| ==> SameLetter(a.currency[k], b.currency[k])
    ensures HashRequest(a.(currency := Upper(a.currency))) == HashRequest(a)
  {
    var x, y := Upper(a.currency), Upper(b.currency);
    assert Upper(x) == x;
    forall c, d
      ensures UpperChar(c) == UpperChar(d) <==> SameLetter(c, d)
    {
      UpperIsByLetter(c, d);
    }
    if x == y {
      forall k | 0 <= k < |a.currency|
        ensures SameLetter(a.currency[k], b.currency[k])
      {
        assert x[k] == y[k];
      }
    }
  }

  datatype Decision =
    | Proceed(recordId: nat)
    | Replay(payload: Payload)
    | Conflict
    | InProgressError
    | MiddlewareError

  class Records {
    var rows: Rows

    constructor ()
      ensures rows == map[]
    {
      rows := map[];
    }

    /** INSERT; a unique violation means it lost, and it reads the record that is there. `meanwhile` is what other
        requests do to the table in between. */
    method Claim(slot: Slot, id: nat, hash: Hash, now: int, meanwhile: Rows -> Rows)
      returns (claimed: bool, record: Option<Record>)
      modifies this
      ensures claimed <==> slot !in old(rows)
      ensures claimed ==> Some(rows) == ClaimRow(old(rows), slot, id, hash, now) && record == Some(rows[slot])
      ensures !claimed ==> rows == meanwhile(old(rows)) && record == if slot in rows then Some(rows[slot]) else None
    {
      claimed := slot !in rows;
      if claimed {
        rows := rows[slot := Record(id, hash, InProgress, now)];
      } else {
        rows := meanwhile(rows);
      }
      record := FindByKey(slot);
    }

    method FindByKey(slot: Slot) returns (record: Option<Record>)
      ensures record == if slot in rows then Some(rows[slot]) else None
    {
      record := if slot in rows then Some(rows[slot]) else None;
    }

    /** Whichever rows have the id are COMPLETED with the payload, whatever they were; nothing else about them changes,
        and nothing at all about the others. */
    method Complete(id: nat, payload: Payload)
      modifies this
      ensures rows.Keys == old(rows).Keys
      ensures forall s :: s in rows ==>
        && rows[s].id == old(rows)[s].id && rows[s].hash == old(rows)[s].hash
        && rows[s].createdAt == old(rows)[s].createdAt
        && (rows[s].id == id ==> rows[s].status == Completed(payload))
        && (rows[s].id != id ==> rows[s] == old(rows)[s])
      ensures rows == CompleteRow(old(rows), id, payload)
    {
      rows := map s | s in rows :: if rows[s].id == id then rows[s].(status := Completed(payload)) else rows[s];
    }

    method Release(id: nat)
      modifies this
      ensures forall s :: s in rows <==> s in old(rows) && old(rows)[s].id != id
      ensures forall s :: s in rows ==> rows[s] == old(rows)[s]
      ensures rows == ReleaseRow(old(rows), id)
    {
      rows := map s | s in rows && rows[s].id != id :: rows[s];
    }

    method ReclaimStale(slot: Slot, hash: Hash, now: int, staleBefore: int) returns (id: Option<nat>)
      modifies this
      ensures id.Some? <==> Reclaimable(old(rows), slot, staleBefore)
      ensures rows == if id.Some? then ReclaimRow(old(rows), slot, hash, now) else old(rows)
      ensures id.Some? ==> id.value == rows[slot].id == old(rows)[slot].id && !Reclaimable(rows, slot, now)
    {
      if Reclaimable(rows, slot, staleBefore) {
        rows := rows[slot := Record(rows[slot].id, hash, InProgress, now)];
        return Some(rows[slot].id);
      }
      return None;
    }

    /** The middleware: what each state of the record means for a request. Between its statements other requests may do
        anything to the table: `afterInsert` between the insert and the read, `afterRead` before the reclaim. Statement
        0, 1 or 2 (insert, read, reclaim) may throw. */
    method Middleware(
      slot: Slot, id: nat, body: Body, now: int, timeout: int, afterInsert: Rows -> Rows, afterRead: Rows -> Rows,
      throws: nat -> bool) returns (d: Decision)
      modifies this
      ensures throws(0) ==> d == MiddlewareError && rows == old(rows)
      ensures !throws(0) && slot !in old(rows) ==>
        d == Proceed(id) && rows == old(rows)[slot := Record(id, HashRequest(body), InProgress, now)]
      ensures !throws(0) && slot in old(rows) ==>
        var seen := afterInsert(old(rows)); var later := afterRead(seen);
        if throws(1) || slot !in seen then d == MiddlewareError && rows == seen
        else if seen[slot].status.Completed? then
          && d == (if seen[slot].hash == HashRequest(body) then Replay(seen[slot].status.payload) else Conflict)
          && rows == seen
        else if seen[slot].createdAt >= now - timeout then d == InProgressError && rows == seen
        else if throws(2) then d == MiddlewareError && rows == later
        else if !Reclaimable(later, slot, now - timeout) then d == InProgressError && rows == later
        else
          && d == Proceed(later[slot].id)
          && rows == later[slot := Record(later[slot].id, HashRequest(body), InProgress, now)]
    {
      if throws(0) { return MiddlewareError; }
      var hash := HashRequest(body);
      var claimed, record := Claim(slot, id, hash, now, afterInsert);
      if claimed { return Proceed(id); }
      if throws(1) || record.None? { return MiddlewareError; }
      match record.value.status
      case Completed(payload) =>
        if record.value.hash != hash { return Conflict; }
        return Replay(payload);
      case InProgress =>
        var staleCutoff := now - timeout;
        if record.value.createdAt < staleCutoff {
          rows := afterRead(rows);
          if throws(2) { return MiddlewareError; }
          var reclaimed := ReclaimStale(slot, hash, now, staleCutoff);
          if reclaimed.Some? { return Proceed(reclaimed.value); }
        }
        return InProgressError;
    }
  }
}
