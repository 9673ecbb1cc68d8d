/** The outbox statements and one round of a publisher, as they change the table in place. */
module OutboxTable {
  import opened Prelude
  import opened Outbox
  import opened Backoff

  datatype PublishError = NoRows | ClaimLost

  /** ORDER BY next_attempt_at, event_id. */
  predicate Sooner(a: Row, b: Row) {
    a.nextAttempt < b.nextAttempt || (a.nextAttempt == b.nextAttempt && a.event <= b.event)
  }

  /** A row the claim may take: due or abandoned, behind published rows only, and not locked by another statement. */
  ghost predicate Claimable(rows: seq<Row>, i: nat, now: int, lease: int, locked: set<nat>)
    requires i < |rows|
  {
    var row := rows[i];
    && i !in locked
    && ((row.status == Pending && row.nextAttempt <= now) || (row.status == Claimed && row.claimedAt.Some? && row.claimedAt.value + lease <= now))
    && !(exists k :: 0 <= k < |rows| && rows[k].aggregate == row.aggregate && rows[k].ordering < row.ordering && rows[k].status != Published)
  }

  /** What the claim picks: the claimable row with the earliest due time, the smallest event id among equals. */
  ghost predicate Picks(rows: seq<Row>, i: nat, now: int, lease: int, locked: set<nat>) {
    && i < |rows| && Claimable(rows, i, now, lease, locked)
    && forall k :: 0 <= k < |rows| && Claimable(rows, k, now, lease, locked) ==>
         rows[i].nextAttempt <= rows[k].nextAttempt && (rows[i].nextAttempt == rows[k].nextAttempt ==> rows[i].event <= rows[k].event)
  }

  /** The row under a new claim. */
  function ClaimedRow(row: Row, now: int, token: nat): Row {
    row.(status := Claimed, claimedAt := Some(now), token := Some(token), attempts := row.attempts + 1)
  }

  /** The row once its claim has ended this way. */
  function Released(row: Row, status: Status, next: int): Row {
    row.(status := status, nextAttempt := next, claimedAt := None, token := None)
  }

  /** Exactly the row of this event that is CLAIMED under this token has ended its claim this way. */
  ghost predicate Ends(rows: seq<Row>, rows': seq<Row>, event: nat, token: nat, status: Status, next: Option<int>) {
    && |rows'| == |rows|
    && forall k :: 0 <= k < |rows| ==>
         rows'[k] == if rows[k].event == event && rows[k].token == Some(token) && rows[k].status == Claimed
                     then Released(rows[k], status, if next.Some? then next.value else rows[k].nextAttempt)
                     else rows[k]
  }

  ghost predicate UniqueEvents(rows: seq<Row>) {
    forall i, j :: 0 <= i < j < |rows| ==> rows[i].event != rows[j].event
  }

  /** The claim a token stands for, if it still does. */
  ghost predicate Holds(rows: seq<Row>, event: nat, token: nat) {
    exists i :: 0 <= i < |rows| && Owns(rows[i], event, token)
  }

  /** What a publisher hands to the broker, in order. */
  class Broker {
    var accepted: seq<Message>

    constructor ()
      ensures accepted == []
    {
      accepted := [];
    }

    /** SendEvent: the broker may take the message whether or not the sender learns of it. */
    method SendEvent(message: Message, arrives: bool, fails: bool) returns (ok: bool)
      requires !fails ==> arrives
      modifies this
      ensures ok == !fails && accepted == old(accepted) + if arrives then [message] else []
    {
      if arrives {
        accepted := accepted + [message];
      }
      return !fails;
    }
  }

  class OutboxRepository {
    var rows: seq<Row>

    constructor ()
      ensures rows == []
    {
      rows := [];
    }

    method IsUnblocked(i: nat) returns (ok: bool)
      requires i < |rows|
      ensures ok == Unblocked(rows, i)
    {
      for j := 0 to |rows|
        invariant forall k :: 0 <= k < j && rows[k].aggregate == rows[i].aggregate && rows[k].ordering < rows[i].ordering ==> rows[k].status.Published?
      {
        if rows[j].aggregate == rows[i].aggregate && rows[j].ordering < rows[i].ordering && !rows[j].status.Published? {
          return false;
        }
      }
      return true;
    }

    /** ClaimOneRecord: claims the first claimable row under a fresh token, or finds none. */
    method ClaimOneRecord(now: int, lease: int, token: nat, locked: set<nat>) returns (at: Option<nat>)
      modifies this
      ensures at.None? ==> rows == old(rows) && forall k :: 0 <= k < |rows| ==> !Claimable(rows, k, now, lease, locked)
      ensures at.Some? ==> Picks(old(rows), at.value, now, lease, locked) && rows == old(rows)[at.value := ClaimedRow(old(rows)[at.value], now, token)]
    {
      at := None;
      for i := 0 to |rows|
        invariant rows == old(rows)
        invariant at.None? ==> forall k :: 0 <= k < i ==> !Claimable(rows, k, now, lease, locked)
        invariant at.Some? ==> at.value < i && Claimable(rows, at.value, now, lease, locked)
        invariant at.Some? ==> forall k :: 0 <= k < i && Claimable(rows, k, now, lease, locked) ==> Sooner(rows[at.value], rows[k])
      {
        if i !in locked && Due(rows[i], now, lease) {
          var unblocked := IsUnblocked(i);
          if unblocked && (at.None? || !Sooner(rows[at.value], rows[i])) {
            at := Some(i);
          }
        }
      }
      if at.Some? {
        rows := Claim(rows, at.value, now, token);
      }
    }

    /** The row a token still claims. */
    method FindClaim(event: nat, token: nat) returns (at: Option<nat>)
      ensures at.Some? ==> at.value < |rows| && Owns(rows[at.value], event, token)
      ensures at.None? ==> !Holds(rows, event, token)
    {
      for i := 0 to |rows|
        invariant forall k :: 0 <= k < i ==> !Owns(rows[k], event, token)
      {
        if Owns(rows[i], event, token) {
          return Some(i);
        }
      }
      return None;
    }

    /** MarkPublished: effective exactly while the claim is still held, and an error otherwise. */
    method MarkPublished(event: nat, token: nat) returns (e: Option<PublishError>)
      requires UniqueEvents(rows)
      modifies this
      ensures rows == Outbox.MarkPublished(old(rows), event, token) && UniqueEvents(rows)
      ensures Ends(old(rows), rows, event, token, Published, None)
      ensures e == if Holds(old(rows), event, token) then None else Some(ClaimLost)
    {
      var at := FindClaim(event, token);
      if at.None? {
        assert rows == Outbox.MarkPublished(old(rows), event, token);
        return Some(ClaimLost);
      }
      rows := rows[at.value := rows[at.value].(status := Published, claimedAt := None, token := None)];
      assert rows == Outbox.MarkPublished(old(rows), event, token);
      return None;
    }

    method MarkRetry(event: nat, token: nat, attempts: nat, next: int, max: nat) returns (e: Option<PublishError>)
      requires UniqueEvents(rows)
      modifies this
      ensures rows == Outbox.MarkRetry(old(rows), event, token, attempts, next, max) && UniqueEvents(rows)
      ensures Ends(old(rows), rows, event, token, if attempts >= max then Failed else Pending, Some(next))
      ensures e == if Holds(old(rows), event, token) then None else Some(ClaimLost)
    {
      var status := if attempts >= max then Failed else Pending;
      var at := FindClaim(event, token);
      if at.None? {
        assert rows == Outbox.MarkRetry(old(rows), event, token, attempts, next, max);
        return Some(ClaimLost);
      }
      rows := rows[at.value := rows[at.value].(status := status, nextAttempt := next, claimedAt := None, token := None)];
      assert rows == Outbox.MarkRetry(old(rows), event, token, attempts, next, max);
      return None;
    }

    /**
     One undisturbed round of processOne: the first claimable row is claimed, its
     message goes out, and the row is marked published if the send reported
     success and otherwise scheduled again or failed. Its own claim is never lost.
     */
    method ProcessOne(broker: Broker, now: int, lease: int, token: nat, locked: set<nat>, encodes: bool, arrives: bool, fails: bool, backoff: int, max: nat)
      returns (at: Option<nat>, e: Option<PublishError>)
      requires UniqueEvents(rows) && (!fails ==> arrives)
      modifies this, broker
      ensures UniqueEvents(rows)
      ensures at.None? ==> e == Some(NoRows) && rows == old(rows) && broker.accepted == old(broker.accepted)
      ensures at.Some? ==>
                && Picks(old(rows), at.value, now, lease, locked) && e == None
                && var row := old(rows)[at.value]; var record := ClaimedRow(row, now, token);
                   && broker.accepted == old(broker.accepted) +
                        (if encodes && arrives
                         then [Message(body := Envelope(row.event, row.aggregate, row.content), group := row.aggregate, deduplication := row.event)]
                         else [])
                   && rows == old(rows)[at.value :=
                        if encodes && !fails then Released(record, Published, row.nextAttempt)
                        else Released(record, if row.attempts + 1 >= max then Failed else Pending, now + WorkerDelay(backoff, row.attempts + 1))]
    {
      at := ClaimOneRecord(now, lease, token, locked);
      if at.None? {
        return None, Some(NoRows);
      }
      var record := rows[at.value];
      assert Owns(rows[at.value], record.event, token);
      ghost var claimed := rows;
      var sent := false;
      if encodes {
        sent := broker.SendEvent(MessageOf(record), arrives, fails);
      }
      if sent {
        e := MarkPublished(record.event, token);
        OnlyOwner(claimed, at.value, token);
      } else {
        e := MarkRetry(record.event, token, record.attempts, now + WorkerDelay(backoff, record.attempts), max);
        OnlyOwner(claimed, at.value, token);
      }
    }
  }

  /** Event ids are unique, so a token marks one row. */
  lemma OnlyOwner(rows: seq<Row>, i: nat, token: nat)
    requires UniqueEvents(rows) && i < |rows| && Owns(rows[i], rows[i].event, token)
    ensures Outbox.MarkPublished(rows, rows[i].event, token) == rows[i := rows[i].(status := Published, claimedAt := None, token := None)]
    ensures forall attempts, next, max ::
              Outbox.MarkRetry(rows, rows[i].event, token, attempts, next, max) ==
              rows[i := rows[i].(status := if attempts >= max then Failed else Pending, nextAttempt := next, claimedAt := None, token := None)]
  {
    forall k | 0 <= k < |rows| && k != i
      ensures !Owns(rows[k], rows[i].event, token)
    {
    }
  }
}
