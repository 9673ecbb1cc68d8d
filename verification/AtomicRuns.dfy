/** Runs of whole operations, each committed or rolled back before the next one starts. */
module AtomicRuns {
  import opened Prelude
  import opened Monetary
  import opened Tables
  import opened Domain
  import opened Engine
  import opened TxFacts
  import opened Invariants
  import opened Decisions
  import opened Operations
  import opened OperationProofs

  datatype Operation =
    | Opens(id: Id, txId: Id, player: string, opening: Money)
    | Calls(cmd: Command, now: int)
    | Receives(message: InboxKey, hash: string, cmd: Command, now: int)
    | Resolves(at: nat, now: int, max: nat, backoff: int)

  /** The transports admit external kinds and well-typed money, and the hash is computed from the payload. */
  ghost predicate Admitted(op: Operation) {
    match op
    case Calls(c, _) => TypedMoney(c.amount) && ExternalKind(c.kind) && c.hash == Digest(PayloadOf(c))
    case Receives(_, _, c, _) => TypedMoney(c.amount) && ExternalKind(c.kind) && c.hash == Digest(PayloadOf(c))
    case _ => true
  }

  /** What an operation leaves; a refused one leaves everything, and the worker only takes due rows. */
  function After(db: Db, op: Operation): Db
    requires TypedOperation(op)
  {
    match op
    case Opens(id, txId, player, opening) => var r := Open(db, id, txId, player, opening); if r.Ok? then r.value else db
    case Calls(c, now) => var r := Call(db, c, now); if r.Ok? then r.value.db else db
    case Receives(m, hash, c, now) => var r := Message(db, m, hash, c, now); if r.Ok? then r.value.0.db else db
    case Resolves(at, now, max, backoff) =>
      if at < |db.txs| && DueRow(db.txs[at], now) && WorkerTx(db, at, now, max, backoff).Ok?
      then WorkerTx(db, at, now, max, backoff).value.db
      else db
  }

  lemma ExtendsRefl(txs: seq<Tx>)
    ensures Extends(txs, txs)
  {
  }

  lemma OperationKeeps(db: Db, op: Operation)
    requires Inv(db) && Admitted(op)
    ensures Inv(After(db, op)) && Extends(db.txs, After(db, op).txs)
  {
    ExtendsRefl(db.txs);
    match op
    case Opens(id, txId, player, opening) =>
      if Open(db, id, txId, player, opening).Ok? {
        OpenKeeps(db, id, txId, player, opening);
      }
    case Calls(c, now) =>
      if Call(db, c, now).Ok? {
        CallKeeps(db, c, now);
      }
    case Receives(m, hash, c, now) =>
      if Message(db, m, hash, c, now).Ok? {
        MessageKeeps(db, m, hash, c, now);
      }
    case Resolves(at, now, max, backoff) =>
      if at < |db.txs| && DueRow(db.txs[at], now) && WorkerTx(db, at, now, max, backoff).Ok? {
        WorkerKeeps(db, at, now, max, backoff);
      }
  }

  ghost predicate AllAdmitted(ops: seq<Operation>) {
    forall i :: 0 <= i < |ops| ==> TypedOperation(ops[i]) && Admitted(ops[i])
  }

  predicate TypedOperation(op: Operation) {
    op.Calls? || op.Receives? ==> TypedMoney(op.cmd.amount)
  }

  function AfterAll(db: Db, ops: seq<Operation>): Db
    requires forall i :: 0 <= i < |ops| ==> TypedOperation(ops[i])
  {
    if ops == [] then db else After(AfterAll(db, ops[..|ops| - 1]), ops[|ops| - 1])
  }

  /** Any sequence of operations keeps the invariant and never takes a terminal row back. */
  lemma {:induction false} OperationsKeep(db: Db, ops: seq<Operation>)
    requires Inv(db) && AllAdmitted(ops)
    ensures Inv(AfterAll(db, ops)) && Extends(db.txs, AfterAll(db, ops).txs)
  {
    if ops == [] {
      ExtendsRefl(db.txs);
    } else {
      var before := AfterAll(db, ops[..|ops| - 1]);
      OperationsKeep(db, ops[..|ops| - 1]);
      OperationKeeps(before, ops[|ops| - 1]);
      ExtendsTransitive(db.txs, before.txs, AfterAll(db, ops).txs);
    }
  }

  lemma EmptyIsSound()
    ensures Inv(EmptyDb)
  {
    assert CoreInv(EmptyDb);
  }

  /** Every run from empty tables. */
  lemma AtomicRunSound(ops: seq<Operation>)
    requires AllAdmitted(ops)
    ensures Inv(AfterAll(EmptyDb, ops))
  {
    EmptyIsSound();
    OperationsKeep(EmptyDb, ops);
  }

  // ---------------------------------------------------------------------
  // Repeating a call
  // ---------------------------------------------------------------------

  lemma CallIsTx(db: Db, c: Command, now: int)
    requires TypedMoney(c.amount) && Call(db, c, now).Ok?
    ensures ValidCommand(c) && CallTx(db, c, now) == Call(db, c, now)
  {
    if CallTx(db, c, now).Err? {
      CallRefusals(db, c, now);
    }
  }

  /** A recorded command replays: the persisted answer, and no table changes. */
  lemma RecordedReplays(db: Db, d: Command, k: nat, r: Result, now: int)
    requires UniqueKeys(db.txs) && ValidCommand(d) && TypedMoney(d.amount) && Answered(db.txs, d, k, r)
    ensures Call(db, d, now) == if IdTaken(db.txs, d.id, k) then Err(IdempotencyConflict) else Ok(Answer(db, r))
  {
    RecordIsFound(db.txs, d, k);
  }

  lemma AnsweredKept(db: Db, after: Db, c: Command, k: nat, r: Result)
    requires Answered(db.txs, c, k, r) && Inv(after) && Extends(db.txs, after.txs)
    ensures Answered(after.txs, c, k, r) && UniqueKeys(after.txs)
  {
    AnsweredLater(db.txs, after.txs, c, k, r);
  }

  lemma AnsweredAfter(db: Db, c: Command, k: nat, r: Result, ops: seq<Operation>)
    requires Inv(db) && AllAdmitted(ops) && Answered(db.txs, c, k, r)
    ensures var after := AfterAll(db, ops); Answered(after.txs, c, k, r) && UniqueKeys(after.txs)
  {
    OperationsKeep(db, ops);
    AnsweredKept(db, AfterAll(db, ops), c, k, r);
  }

  /** What a call leaves of its terminal answer. */
  lemma CallAnswers(db: Db, c: Command, now: int) returns (k: nat)
    requires Inv(db) && Prepared(c) && ExternalKind(c.kind) && Call(db, c, now).Ok?
    ensures var first := Call(db, c, now).value;
            Inv(first.db) && (Terminal(first.result.state) ==> Answered(first.db.txs, c, k, first.result))
  {
    CallIsTx(db, c, now);
    CallKeeps(db, c, now);
    k := CallTxRow(db, c, now);
  }

  /**
   Once a call has returned a terminal result, the same request under the same
   or an unused id returns that result and changes no table at all, whatever
   operations ran in between; under the id of another row it conflicts.
   */
  lemma ReplayExact(db: Db, c: Command, now: int, ops: seq<Operation>, d: Command, later: int) returns (k: nat)
    requires Inv(db) && Prepared(c) && ExternalKind(c.kind) && Call(db, c, now).Ok? && Terminal(Call(db, c, now).value.result.state)
    requires AllAdmitted(ops) && Prepared(d) && SameRequest(c, d)
    ensures var first := Call(db, c, now).value; var after := AfterAll(first.db, ops);
            && Answered(after.txs, c, k, first.result)
            && Call(after, d, later) == if IdTaken(after.txs, d.id, k) then Err(IdempotencyConflict) else Ok(Answer(after, first.result))
  {
    var first := Call(db, c, now).value;
    k := CallAnswers(db, c, now);
    AnsweredAfter(first.db, c, k, first.result, ops);
    RecordedReplays(AfterAll(first.db, ops), d, k, first.result, later);
  }

  // ---------------------------------------------------------------------
  // Delivering a message again
  // ---------------------------------------------------------------------

  predicate SameInbox(inbox: map<InboxKey, InboxRow>, inbox': map<InboxKey, InboxRow>, m: InboxKey) {
    m in inbox ==> m in inbox' && inbox'[m].hash == inbox[m].hash
  }

  lemma WorkerLeavesInbox(db: Db, at: nat, now: int, max: nat, backoff: int)
    requires at < |db.txs| && WorkerTx(db, at, now, max, backoff).Ok?
    ensures WorkerTx(db, at, now, max, backoff).value.db.inbox == db.inbox
  {
    hide Conclude, Resolve, WriteRefusal;
  }

  lemma CallTxLeavesInbox(db: Db, c: Command, now: int)
    requires TypedMoney(c.amount) && CallTx(db, c, now).Ok?
    ensures CallTx(db, c, now).value.db.inbox == db.inbox
  {
    hide Decide, FindExisting, ReplayResult, InsertRefusal;
  }

  /** No operation changes the hash a message was recorded under. */
  lemma OperationKeepsMessage(db: Db, op: Operation, m: InboxKey)
    requires TypedOperation(op)
    ensures SameInbox(db.inbox, After(db, op).inbox, m)
  {
    hide CallTx, WorkerTx, FindExisting;
    match op
    case Opens(id, txId, player, opening) =>
    case Calls(c, now) =>
      if Call(db, c, now).Ok? {
        CallIsTx(db, c, now);
        CallTxLeavesInbox(db, c, now);
      }
    case Receives(_, _, c, now) =>
      if CallTx(db, c, now).Ok? {
        CallTxLeavesInbox(db, c, now);
      }
    case Resolves(at, now, max, backoff) =>
      if at < |db.txs| && WorkerTx(db, at, now, max, backoff).Ok? {
        WorkerLeavesInbox(db, at, now, max, backoff);
      }
  }

  lemma {:induction false} OperationsKeepMessage(db: Db, ops: seq<Operation>, m: InboxKey)
    requires forall i :: 0 <= i < |ops| ==> TypedOperation(ops[i])
    ensures SameInbox(db.inbox, AfterAll(db, ops).inbox, m)
  {
    hide After;
    if ops != [] {
      OperationsKeepMessage(db, ops[..|ops| - 1], m);
      OperationKeepsMessage(AfterAll(db, ops[..|ops| - 1]), ops[|ops| - 1], m);
    }
  }

  /** Nothing but the message's own checks complains about its payload. */
  lemma CallAcceptsPayload(db: Db, c: Command, now: int)
    requires TypedMoney(c.amount)
    ensures CallTx(db, c, now) != Err(InboxPayloadMismatch)
  {
    hide Decide, ReplayResult, CommitNext;
    LookupErrors(db.txs, c);
    if FindExisting(db.txs, c).Missing? && c.wallet in db.wallets {
      DecideErrors(c, db.wallets[c.wallet], LookupExternal(db.txs, c.provider, c.ref));
    } else if FindExisting(db.txs, c).Hit? {
      ReplayAcceptsPayload(db.txs[FindExisting(db.txs, c).at]);
    }
  }

  lemma ReplayAcceptsPayload(t: Tx)
    ensures ReplayResult(t) != Err(InboxPayloadMismatch)
  {
  }

  /**
   A message that was answered for command c and arrives again, whatever
   operations ran in between, with command d: it is refused as a foreign payload,
   leaving every table, exactly when the two payloads hash differently.
   */
  lemma RedeliveryDecided(db: Db, m: InboxKey, c: Command, now: int, ops: seq<Operation>, d: Command, later: int)
    requires Prepared(c) && Prepared(d) && Message(db, m, c.hash, c, now).Ok? && AllAdmitted(ops)
    ensures var after := AfterAll(Message(db, m, c.hash, c, now).value.0.db, ops);
            Message(after, m, d.hash, d, later) == Err(InboxPayloadMismatch) <==> Digest(PayloadOf(c)) != Digest(PayloadOf(d))
  {
    hide CallTx, Digest;
    var first := Message(db, m, c.hash, c, now).value.0.db;
    OperationsKeepMessage(first, ops, m);
    CallAcceptsPayload(AfterAll(first, ops), d, later);
  }
}
