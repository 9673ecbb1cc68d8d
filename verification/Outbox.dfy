/**
 The outbox table and its publishers (internal/infrastructure/postgres/repositories.go,
 internal/application/outbox/worker.go): any number of workers claim rows under
 leases, send them to the broker and mark them. Workers may crash at any point,
 leases may run out while a send is in flight, clocks may disagree, and a send
 may reach the broker late, more than once, or after its worker saw an error.
 */
module Outbox {
  import opened Prelude

  datatype Status = Pending | Claimed | Published | Failed

  /** The columns the publisher copies into the envelope. No statement updates them. */
  datatype Content = Content(eventType: string, correlation: string, causation: string, occurredAt: int, version: int, data: string)

  datatype Row = Row(
    event: nat, ordering: int, aggregate: nat, content: Content,
    status: Status, attempts: nat, nextAttempt: int, claimedAt: Option<int>, token: Option<nat>)

  /** What the broker receives: the encoded envelope, its group and its deduplication id. */
  datatype Message = Message(body: Envelope, group: nat, deduplication: nat)
  datatype Envelope = Envelope(event: nat, aggregate: nat, content: Content)

  /** marshalEnvelope followed by the arguments of SendEvent. */
  function MessageOf(record: Row): Message {
    Message(Envelope(record.event, record.aggregate, record.content), record.aggregate, record.event)
  }

  // ---------------------------------------------------------------------
  // The three statements on the table
  // ---------------------------------------------------------------------

  /** No row of the same aggregate with a smaller ordering id is unpublished. */
  predicate Unblocked(rows: seq<Row>, i: nat)
    requires i < |rows|
  {
    forall j :: 0 <= j < |rows| && rows[j].aggregate == rows[i].aggregate && rows[j].ordering < rows[i].ordering
      ==> rows[j].status.Published?
  }

  predicate Due(row: Row, now: int, lease: int) {
    || (row.status.Pending? && row.nextAttempt <= now)
    || (row.status.Claimed? && row.claimedAt.Some? && row.claimedAt.value <= now - lease)
  }

  predicate Eligible(rows: seq<Row>, i: nat, now: int, lease: int)
    requires i < |rows|
  {
    Due(rows[i], now, lease) && Unblocked(rows, i)
  }

  function Claim(rows: seq<Row>, i: nat, now: int, token: nat): seq<Row>
    requires i < |rows|
  {
    rows[i := rows[i].(status := Claimed, claimedAt := Some(now), token := Some(token), attempts := rows[i].attempts + 1)]
  }

  predicate Owns(row: Row, event: nat, token: nat) {
    row.event == event && row.token == Some(token) && row.status.Claimed?
  }

  function MarkPublished(rows: seq<Row>, event: nat, token: nat): seq<Row> {
    seq(|rows|, i requires 0 <= i < |rows| =>
      if Owns(rows[i], event, token) then rows[i].(status := Published, claimedAt := None, token := None) else rows[i])
  }

  function MarkRetry(rows: seq<Row>, event: nat, token: nat, attempts: nat, next: int, max: nat): seq<Row> {
    var status := if attempts >= max then Failed else Pending;
    seq(|rows|, i requires 0 <= i < |rows| =>
      if Owns(rows[i], event, token)
      then rows[i].(status := status, nextAttempt := next, claimedAt := None, token := None)
      else rows[i])
  }

  // ---------------------------------------------------------------------
  // The publishers as a state machine
  // ---------------------------------------------------------------------

  /** Where a worker stands in processOne; `record` is the row as its claim returned it. */
  datatype Worker =
    | Idle
    | Holding(record: Row)  // claimed, nothing sent yet
    | Sending(record: Row)  // SendEvent called, no answer yet
    | Accepted(record: Row) // SendEvent returned without error
    | Refused(record: Row)  // encoding or sending returned an error

  /** `wire` holds every message ever handed to the network; the broker may take any of them at any time. */
  datatype State = State(rows: seq<Row>, workers: map<nat, Worker>, wire: set<Message>, log: seq<Message>, tokens: set<nat>)

  datatype Action =
    | Insert(row: Row)
    | ClaimRow(worker: nat, at: nat, now: int, lease: int, token: nat)
    | Send(worker: nat)
    | Deliver(message: Message)
    | SendOk(worker: nat)
    | SendError(worker: nat)
    | Publish(worker: nat)
    | Retry(worker: nat, next: int)
    | Crash(worker: nat)

  const Start := State([], map[], {}, [], {})

  /** A committed insert: a fresh event, not yet attempted, behind the rows its aggregate already has. */
  predicate FreshRow(rows: seq<Row>, row: Row) {
    && row.status.Pending? && row.attempts == 0 && row.claimedAt.None? && row.token.None?
    && forall i :: 0 <= i < |rows| ==>
        rows[i].event != row.event && (rows[i].aggregate == row.aggregate ==> rows[i].ordering < row.ordering)
  }

  predicate At(s: State, worker: nat, w: Worker) {
    worker in s.workers && s.workers[worker] == w
  }

  predicate Enabled(s: State, a: Action) {
    match a
    case Insert(row) => FreshRow(s.rows, row)
    case ClaimRow(w, i, now, lease, token) =>
      (w in s.workers ==> s.workers[w].Idle?) && i < |s.rows| && Eligible(s.rows, i, now, lease) && token !in s.tokens
    case Send(w) => w in s.workers && s.workers[w].Holding?
    case Deliver(m) => m in s.wire
    case SendOk(w) => w in s.workers && s.workers[w].Sending? && MessageOf(s.workers[w].record) in s.log
    case SendError(w) => w in s.workers && (s.workers[w].Holding? || s.workers[w].Sending?)
    case Publish(w) => w in s.workers && s.workers[w].Accepted? && s.workers[w].record.token.Some?
    case Retry(w, _) => w in s.workers && s.workers[w].Refused? && s.workers[w].record.token.Some?
    case Crash(w) => w in s.workers
  }

  function Apply(max: nat, s: State, a: Action): State
    requires Enabled(s, a)
  {
    match a
    case Insert(row) => s.(rows := s.rows + [row])
    case ClaimRow(w, i, now, _, token) =>
      var rows := Claim(s.rows, i, now, token);
      s.(rows := rows, workers := s.workers[w := Holding(rows[i])], tokens := s.tokens + {token})
    case Send(w) =>
      var record := s.workers[w].record;
      s.(workers := s.workers[w := Sending(record)], wire := s.wire + {MessageOf(record)})
    case Deliver(m) => s.(log := s.log + [m])
    case SendOk(w) => s.(workers := s.workers[w := Accepted(s.workers[w].record)])
    case SendError(w) => s.(workers := s.workers[w := Refused(s.workers[w].record)])
    case Publish(w) =>
      var record := s.workers[w].record;
      s.(rows := MarkPublished(s.rows, record.event, record.token.value), workers := s.workers[w := Idle])
    case Retry(w, next) =>
      var record := s.workers[w].record;
      s.(rows := MarkRetry(s.rows, record.event, record.token.value, record.attempts, next, max), workers := s.workers[w := Idle])
    case Crash(w) => s.(workers := s.workers[w := Idle])
  }

  /** A run: any interleaving of the workers' steps, the network and the inserts. */
  ghost predicate Run(max: nat, states: seq<State>, actions: seq<Action>) {
    && |states| == |actions| + 1 && states[0] == Start
    && forall i :: 0 <= i < |actions| ==> Enabled(states[i], actions[i]) && states[i + 1] == Apply(max, states[i], actions[i])
  }

  // ---------------------------------------------------------------------
  // Invariant
  // ---------------------------------------------------------------------

  ghost predicate TableOk(rows: seq<Row>) {
    && (forall i, j :: 0 <= i < j < |rows| ==> rows[i].event != rows[j].event)
    && (forall i, j :: 0 <= i < j < |rows| && rows[i].aggregate == rows[j].aggregate ==> rows[i].ordering < rows[j].ordering)
  }

  /** The lifecycle of one row. */
  predicate RowOk(max: nat, tokens: set<nat>, r: Row) {
    && (r.status.Pending? ==> r.attempts < max)
    && (r.status.Failed? ==> r.attempts >= max)
    && (!r.status.Pending? ==> r.attempts > 0)
    && (r.status.Claimed? <==> r.token.Some?) && (r.status.Claimed? <==> r.claimedAt.Some?)
    && (r.token.Some? ==> r.token.value in tokens)
  }

  /** A row that was ever claimed has only published rows before it. */
  ghost predicate InOrder(rows: seq<Row>) {
    forall i, j :: 0 <= i < j < |rows| && rows[i].aggregate == rows[j].aggregate && rows[j].attempts > 0
      ==> rows[i].status.Published?
  }

  predicate SameEvent(r: Row, s: Row) {
    r.event == s.event && r.ordering == s.ordering && r.aggregate == s.aggregate && r.content == s.content
  }

  /** Row i is the one a worker's record was read from; while the claim is still its own, nothing moved. */
  ghost predicate Backs(rows: seq<Row>, i: nat, record: Row) {
    && i < |rows| && SameEvent(rows[i], record) && rows[i].attempts > 0
    && (rows[i].token == record.token ==> rows[i].attempts == record.attempts)
  }

  ghost predicate WorkerOk(s: State, w: Worker) {
    w.Idle? || (
      && (exists i :: Backs(s.rows, i, w.record))
      && w.record.token.Some? && w.record.token.value in s.tokens
      && (w.Accepted? ==> MessageOf(w.record) in s.log))
  }

  ghost predicate Carries(rows: seq<Row>, i: nat, m: Message) {
    i < |rows| && MessageOf(rows[i]) == m && rows[i].attempts > 0
  }

  ghost predicate WireOk(s: State) {
    && (forall m :: m in s.wire ==> exists i :: Carries(s.rows, i, m))
    && (forall k :: 0 <= k < |s.log| ==> s.log[k] in s.wire)
    && (forall i :: 0 <= i < |s.rows| && s.rows[i].status.Published? ==> MessageOf(s.rows[i]) in s.log)
  }

  /** The events of one aggregate, in ordering order. */
  function EventsOf(rows: seq<Row>, aggregate: nat): seq<nat> {
    if rows == [] then []
    else
      var rest := EventsOf(rows[..|rows| - 1], aggregate);
      if rows[|rows| - 1].aggregate == aggregate then rest + [rows[|rows| - 1].event] else rest
  }

  /** What a consumer of one group sees once repeats of a deduplication id are dropped. */
  function FirstSeen(log: seq<Message>, aggregate: nat): seq<nat> {
    if log == [] then []
    else
      var rest := FirstSeen(log[..|log| - 1], aggregate);
      var last := log[|log| - 1];
      if last.group == aggregate && last.deduplication !in rest then rest + [last.deduplication] else rest
  }

  ghost predicate Ordered(s: State) {
    forall a :: FirstSeen(s.log, a) <= EventsOf(s.rows, a)
  }

  ghost predicate Inv(max: nat, s: State) {
    && TableOk(s.rows) && InOrder(s.rows)
    && (forall i :: 0 <= i < |s.rows| ==> RowOk(max, s.tokens, s.rows[i]))
    && (forall w :: w in s.workers ==> WorkerOk(s, s.workers[w]))
    && WireOk(s)
    && Ordered(s)
  }
}
