/** The financial service: methods that change the tables in place, statement by statement. */
module Service {
  import opened Prelude
  import opened Monetary
  import opened Tables
  import opened Domain
  import opened Engine
  import opened Backoff
  import opened Operations
  import opened Invariants
  import opened Openings
  import opened Reconstruction
  import opened WalletTheorems

  /** A row that waits for its reference and is due by now. */
  predicate WaitsUntil(t: Tx, now: int) {
    t.state == PendingReference && (t.nextAttempt.Some? ==> t.nextAttempt.value <= now)
  }

  /** Rows without a time come first, then earlier times, then smaller ids. */
  predicate ServedFirst(t: Tx, u: Tx) {
    match (t.nextAttempt, u.nextAttempt)
    case (None, Some(_)) => true
    case (Some(_), None) => false
    case (None, None) => t.id <= u.id
    case (Some(a), Some(b)) => a < b || (a == b && t.id <= u.id)
  }

  datatype Reconciliation = Reconciliation(stored: int, rebuilt: int, consistent: bool)

  class FinancialService {
    var wallets: map<Id, Wallet>
    var txs: seq<Tx>
    var ledger: seq<Entry>
    var inbox: map<InboxKey, InboxRow>
    var outbox: seq<Event>
    var nextOrdering: nat

    function Contents(): Db
      reads this
    {
      Db(wallets, txs, ledger, inbox, outbox, nextOrdering)
    }

    constructor ()
      ensures Contents() == EmptyDb
    {
      wallets, txs, ledger, inbox, outbox, nextOrdering := map[], [], [], map[], [], 0;
    }

    // -------------------------------------------------------------------
    // Statements
    // -------------------------------------------------------------------

    /** Undoes a transaction; sequence numbers are not given back. */
    method Rollback(saved: Db)
      modifies this
      ensures Contents() == saved.(nextOrdering := old(nextOrdering))
    {
      wallets, txs, ledger, inbox, outbox := saved.wallets, saved.txs, saved.ledger, saved.inbox, saved.outbox;
    }

    method InsertWallet(id: Id, w: Wallet) returns (e: Option<Error>)
      modifies this`wallets
      ensures e == WalletRefusal(old(wallets), id, w.player, w.currency)
      ensures wallets == if e.None? then old(wallets)[id := w] else old(wallets)
    {
      if id in wallets {
        return Some(Violation(WalletPkey));
      }
      if OwnerTaken(wallets, w.player, w.currency) {
        return Some(Violation(WalletOwnerIndex));
      }
      wallets := wallets[id := w];
      return None;
    }

    method InsertTransaction(row: Tx) returns (e: Option<Error>)
      modifies this`txs
      ensures e == InsertRefusal(wallets, old(txs), row)
      ensures txs == if e.None? then old(txs) + [row] else old(txs)
    {
      e := InsertRefusal(wallets, txs, row);
      if e.None? {
        txs := txs + [row];
      }
    }

    method UpdatePendingReference(at: nat, row: Tx) returns (e: Option<Error>)
      requires at < |txs|
      modifies this`txs
      ensures e == WriteRefusal(wallets, old(txs), Some(at), row)
      ensures txs == if e.None? then old(txs)[at := row] else old(txs)
    {
      if SlotTaken(txs, row) {
        return Some(Violation(ReversalIndex));
      }
      txs := txs[at := row];
      return None;
    }

    method UpdateBalance(id: Id, balance: int, version: int)
      modifies this`wallets
      ensures wallets == if id in old(wallets) then old(wallets)[id := old(wallets)[id].(balance := balance, version := version)] else old(wallets)
    {
      if id in wallets {
        wallets := wallets[id := wallets[id].(balance := balance, version := version)];
      }
    }

    method InsertEvent(kind: EventKind, aggregate: Aggregate, correlation: string, causation: Id, version: int, body: Body)
      modifies this`outbox, this`nextOrdering
      ensures outbox == old(outbox) + [Event(old(nextOrdering), kind, aggregate, correlation, causation, version, body)]
      ensures nextOrdering == old(nextOrdering) + 1
    {
      outbox, nextOrdering := outbox + [Event(nextOrdering, kind, aggregate, correlation, causation, version, body)], nextOrdering + 1;
    }

    // -------------------------------------------------------------------
    // Writing a decision
    // -------------------------------------------------------------------

    /** The events of a settled row, and of its wallet if it moved (insertFinancialEvents, insertEvent). */
    method InsertEvents(row: Tx, result: Result, w: Wallet, move: Option<Direction>)
      requires row.id == result.tx && result.amount.currency == row.currency
      modifies this`outbox, this`nextOrdering
      ensures var ch := Settle(row, result, w, move);
              outbox == old(outbox) + Events(ch, NextOrderings(old(Contents()), ch)) && nextOrdering == old(nextOrdering) + EventCount(ch)
    {
      var version := if move.Some? then w.version + 1 else w.version;
      InsertEvent(EventKindOf(result.state), TxAggregate(row.id), row.key, result.tx, version, TxBody(result, row.wallet, row.kind));
      if move.Some? {
        InsertEvent(WalletBalanceChanged, WalletAggregate(row.wallet), row.key, result.tx, version,
          BalanceBody(result.tx, row.wallet, move.value, result.amount,
                      Money(w.balance, result.amount.currency), Money(result.balance, result.amount.currency), version, row.kind, result.state));
      }
    }

    /** persistRejected and persistPendingReference: a new row that moves nothing. */
    method Persist(c: Command, w: Wallet, result: Result, now: int) returns (r: Outcome<Result, Error>)
      requires result.tx == c.id && result.amount == c.amount
      modifies this
      ensures var ch := Settle(NewRow(c, result, now), result, w, None); var refusal := InsertRefusal(old(wallets), old(txs), ch.row);
              && r == (if refusal.Some? then Err(refusal.value) else Ok(result))
              && Contents() == if r.Ok? then CommitNext(old(Contents()), None, ch) else old(Contents())
    {
      var row := NewRow(c, result, now);
      var e := InsertTransaction(row);
      if e.Some? {
        return Err(e.value);
      }
      InsertEvents(row, result, w, None);
      return Ok(result);
    }

    /** The wallet movement of a processed row: the balance, then the ledger entry. */
    method Post(c: Command, w: Wallet, direction: Direction, after: Money)
      requires c.wallet in wallets && wallets[c.wallet] == w && ValidCurrency(c.amount.currency)
      requires 0 <= w.balance <= MAX_INT64 && 0 <= after.minor <= MAX_INT64 && 0 < c.amount.minor <= MAX_INT64
      requires Balances(direction, c.amount.minor, w.balance, after.minor)
      modifies this`wallets, this`ledger
      ensures wallets == old(wallets)[c.wallet := w.(balance := after.minor, version := w.version + 1)]
      ensures ledger == old(ledger) + [Entry(c.wallet, c.id, direction, c.amount.minor, c.amount.currency, w.balance, after.minor)]
    {
      UpdateBalance(c.wallet, after.minor, w.version + 1);
      var value, before, next := FromMinor(c.amount.minor, c.amount.currency), FromMinor(w.balance, c.amount.currency), FromMinor(after.minor, c.amount.currency);
      var entry := NewEntry(c.wallet, c.id, direction, value.value, before.value, next.value);
      ledger := ledger + [entry.value];
    }

    /** The domain wallet's answer to an operation: the balance it leaves, or a refusal. */
    method Operated(c: Command, w: Wallet, direction: Direction) returns (r: Outcome<Option<Money>, Error>)
      requires IsInt64(c.amount.minor)
      ensures r.Err? <==> FromMinor(w.balance, w.currency).None? || w.player == ""
      ensures r.Err? ==> r.error == InvalidStoredMoney
      ensures r.Ok? ==> var balance := Money(w.balance, w.currency);
                        var next := if direction.Credit? then Credited(balance, c.amount) else Debited(balance, c.amount);
                        r.value == if next.Ok? then Some(next.value) else None
    {
      var balance := FromMinor(w.balance, w.currency);
      if balance.None? {
        return Err(InvalidStoredMoney);
      }
      var created := NewWallet(c.wallet, w.player, balance.value);
      if created.Err? {
        return Err(InvalidStoredMoney);
      }
      var wallet := created.value;
      var refused: Option<WalletError>;
      if direction.Credit? {
        refused := wallet.Credit(c.amount);
      } else {
        refused := wallet.Debit(c.amount);
      }
      return Ok(if refused.None? then Some(wallet.balance) else None);
    }

    /** The decision of applyOperationInTx, with the domain wallet. */
    method Judge(c: Command, w: Wallet, refKind: Option<Kind>) returns (plan: Plan)
      requires IsInt64(c.amount.minor)
      ensures plan == Operate(c, w, refKind)
    {
      if FromMinor(w.balance, w.currency).None? {
        return Refuse(InvalidStoredMoney);
      }
      if w.player == "" {
        return Refuse(InvalidStoredWallet);
      }
      if c.kind.Opening? || (c.kind.Rollback? && refKind.None?) {
        return Refuse(InvalidReference);
      }
      if c.kind.Loss? {
        return Plan.Persist(Result(c.id, Processed, w.balance, c.amount, NoCode), None);
      }
      var direction := DirectionFor(c.kind, if refKind.Some? then refKind.value else c.kind);
      var next := Operated(c, w, direction);
      if next.value.None? {
        return Plan.Persist(Result(c.id, Rejected, w.balance, c.amount, if c.kind.Bet? then InsufficientBalance else ReversalInsufficientBalance), None);
      }
      return Plan.Persist(Result(c.id, Processed, next.value.value.minor, c.amount, NoCode), Some(direction));
    }

    /** What a movement must satisfy to be posted. */
    predicate Postable(c: Command, w: Wallet, result: Result, move: Option<Direction>)
      reads this
    {
      && c.wallet in wallets && wallets[c.wallet] == w && result.tx == c.id && result.amount == c.amount
      && (move.Some? ==> && ValidCurrency(c.amount.currency) && 0 <= w.balance <= MAX_INT64 && 0 <= result.balance <= MAX_INT64
                         && 0 < c.amount.minor <= MAX_INT64 && Balances(move.value, c.amount.minor, w.balance, result.balance))
    }

    /** The writes of applyOperationInTx: the row, the movement, the events. */
    method Settled(c: Command, w: Wallet, result: Result, move: Option<Direction>, existing: Option<nat>, row: Tx) returns (r: Outcome<Result, Error>)
      requires Postable(c, w, result, move) && Identity(row, c)
      requires existing.Some? ==> existing.value < |txs|
      modifies this
      ensures match Write(old(Contents()), existing, Settle(row, result, w, move))
              case Err(e) => r == Err(e) && Contents() == old(Contents())
              case Ok(db) => r == Ok(result) && Contents() == db
    {
      var e: Option<Error>;
      if existing.None? {
        e := InsertTransaction(row);
      } else {
        e := UpdatePendingReference(existing.value, row);
      }
      if e.Some? {
        return Err(e.value);
      }
      if move.Some? {
        Post(c, w, move.value, Money(result.balance, c.amount.currency));
      }
      InsertEvents(row, result, w, move);
      return Ok(result);
    }

    /** applyOperationInTx on a new row (`existing` absent) or on the claimed one. */
    method ApplyOperation(c: Command, w: Wallet, tx: TransactionObject, refKind: Option<Kind>, existing: Option<nat>, record: Tx, now: int)
      returns (r: Outcome<Result, Error>)
      requires TypedMoney(c.amount) && ExternalKind(c.kind) && ValidAmount(c.kind, c.amount)
      requires c.wallet in wallets && wallets[c.wallet] == w && !Terminal(tx.state)
      requires existing.Some? ==> existing.value < |txs| && CommandOf(record) == c
      modifies this, tx
      ensures match Operate(c, w, refKind)
              case Refuse(e) => r == Err(e) && Contents() == old(Contents())
              case Persist(result, move) =>
                var row := if existing.None? then NewRow(c, result, now) else SettledRow(record, result);
                match Write(old(Contents()), existing, Settle(row, result, w, move))
                case Err(e) => r == Err(e) && Contents() == old(Contents())
                case Ok(db) => r == Ok(result) && Contents() == db
    {
      var plan := Judge(c, w, refKind);
      if plan.Refuse? {
        return Err(plan.error);
      }
      var result := plan.result;
      var moved := tx.Transition(result.state);
      assert moved;
      var row := if existing.None? then NewRow(c, result, now) else SettledRow(record, result);
      r := Settled(c, w, result, plan.move, existing, row);
    }

    // -------------------------------------------------------------------
    // Calls
    // -------------------------------------------------------------------

    /** processInTx. */
    method ProcessInTx(c: Command, now: int) returns (r: Outcome<Result, Error>)
      requires ValidCommand(c) && TypedMoney(c.amount)
      modifies this
      ensures match CallTx(old(Contents()), c, now)
              case Err(e) => r == Err(e) && Contents() == old(Contents())
              case Ok(answer) => r == Ok(answer.result) && Contents() == answer.db
    {
      var found := FindExisting(txs, c);
      if found.Clash? {
        return Err(found.error);
      }
      if found.Hit? {
        return ReplayResult(txs[found.at]);
      }
      if c.wallet !in wallets {
        return Err(WalletNotFound);
      }
      var w := wallets[c.wallet];
      var created := NewTransaction(c.external, c.provider, c.kind, c.amount);
      if created.None? {
        return Err(InvalidTransaction);
      }
      var tx := created.value;
      if c.player != w.player {
        r := Reject(c, w, tx, PlayerWalletMismatch, now);
        return;
      }
      var refKind: Option<Kind> := None;
      if IsReversal(c.kind) {
        if c.ref == "" {
          r := Reject(c, w, tx, ReferenceRequired, now);
          return;
        }
        var reference := LookupExternal(txs, c.provider, c.ref);
        if reference.None? {
          var waits := tx.Transition(PendingReference);
          assert waits;
          r := Persist(c, w, Result(c.id, PendingReference, w.balance, c.amount, NoCode), now);
          return;
        }
        if !ValidReference(c, reference.value) {
          r := Reject(c, w, tx, ReferenceInvalid, now);
          return;
        }
        refKind := Some(reference.value.kind);
      }
      r := ApplyOperation(c, w, tx, refKind, None, NewRow(c, Result(c.id, Pending, 0, c.amount, NoCode), now), now);
    }

    /** persistRejected. */
    method Reject(c: Command, w: Wallet, tx: TransactionObject, code: Code, now: int) returns (r: Outcome<Result, Error>)
      requires tx.state.Pending?
      modifies this, tx
      ensures var result := Result(c.id, Rejected, w.balance, c.amount, code);
              match Write(old(Contents()), None, Settle(NewRow(c, result, now), result, w, None))
              case Err(e) => r == Err(e) && Contents() == old(Contents())
              case Ok(db) => r == Ok(result) && Contents() == db
    {
      var rejected := tx.Transition(Rejected);
      assert rejected;
      r := Persist(c, w, Result(c.id, Rejected, w.balance, c.amount, code), now);
    }

    /** Process: one transaction; a lost race is answered from the winner's row. */
    method Process(c: Command, now: int) returns (r: Outcome<Result, Error>)
      requires TypedMoney(c.amount)
      modifies this
      ensures match Call(old(Contents()), c, now)
              case Err(e) => r == Err(e) && Contents() == old(Contents())
              case Ok(answer) => r == Ok(answer.result) && Contents() == answer.db
    {
      if !ValidCommand(c) {
        return Err(InvalidCommand);
      }
      var saved := Contents();
      r := ProcessInTx(c, now);
      if r.Ok? {
        return;
      }
      Rollback(saved);
      if !IdentityViolation(r.error) {
        return;
      }
      if r.error == Violation(ReversalIndex) {
        return Err(IdempotencyConflict);
      }
      var found := FindExisting(txs, c);
      if found.Clash? {
        return Err(found.error);
      }
      if found.Missing? {
        return Err(IdempotencyConflict);
      }
      return ReplayResult(txs[found.at]);
    }

    /** ProcessMessage: the inbox row, the command and the completion in one transaction. */
    method ProcessMessage(m: InboxKey, hash: string, c: Command, now: int) returns (r: Outcome<(Result, bool), Error>)
      requires TypedMoney(c.amount)
      modifies this
      ensures match Message(old(Contents()), m, hash, c, now)
              case Err(e) => r == Err(e) && Contents() == old(Contents())
              case Ok(reply) => r == Ok((reply.0.result, reply.1)) && Contents() == reply.0.db
    {
      if !ValidCommand(c) {
        return Err(InvalidCommand);
      }
      if c.hash != hash {
        return Err(InboxPayloadMismatch);
      }
      var saved := Contents();
      var duplicate := false;
      if m !in inbox {
        inbox := inbox[m := InboxRow(hash, false)];
      } else {
        if inbox[m].hash != hash {
          return Err(InboxPayloadMismatch);
        }
        duplicate := inbox[m].completed;
      }
      ghost var during := inbox;
      var answer := ProcessInTx(c, now);
      CallIgnoresInbox(saved, during, c, now);
      if answer.Err? {
        Rollback(saved);
        return Err(if IdentityViolation(answer.error) then IdempotencyConflict else answer.error);
      }
      inbox := inbox[m := inbox[m].(completed := true)];
      return Ok((answer.value, duplicate));
    }

    // -------------------------------------------------------------------
    // The pending-reference worker
    // -------------------------------------------------------------------

    /** FindNextPendingReferenceForUpdate: the first due row, earliest attempt first. */
    method FindNextPending(now: int) returns (at: Option<nat>)
      ensures at.None? ==> forall k :: 0 <= k < |txs| ==> !WaitsUntil(txs[k], now)
      ensures at.Some? ==> at.value < |txs| && WaitsUntil(txs[at.value], now)
      ensures at.Some? ==> forall k :: 0 <= k < |txs| && WaitsUntil(txs[k], now) ==> ServedFirst(txs[at.value], txs[k])
    {
      at := None;
      for i := 0 to |txs|
        invariant at.None? ==> forall k :: 0 <= k < i ==> !DueRow(txs[k], now)
        invariant at.Some? ==> at.value < i && DueRow(txs[at.value], now)
        invariant at.Some? ==> forall k :: 0 <= k < i && DueRow(txs[k], now) ==> Precedes(txs[at.value], txs[k])
      {
        if DueRow(txs[i], now) && (at.None? || !Precedes(txs[at.value], txs[i])) {
          at := Some(i);
        }
      }
    }

    /** rejectPendingReferenceInTx: the claimed row, with its attempts as counted so far, ends REJECTED. */
    method RejectPending(at: nat, record: Tx, code: Code) returns (e: Option<Error>)
      requires at < |txs| && record == txs[at].(attempts := record.attempts) && FromMinor(record.amount, record.currency).Some?
      modifies this
      ensures if record.wallet !in old(wallets) then e == Some(WalletNotFound) && Contents() == old(Contents())
              else if record.external == "" || record.provider == "" || !ExternalKind(record.kind) || !ValidAmount(record.kind, Money(record.amount, record.currency))
              then e == Some(InvalidTransaction) && Contents() == old(Contents())
              else
                var w := old(wallets)[record.wallet];
                var result := Result(record.id, Rejected, w.balance, Money(record.amount, record.currency), code);
                e == None && Contents() == CommitNext(old(Contents()), Some(at), Settle(SettledRow(record, result), result, w, None))
    {
      hide FromMinor;
      var c := CommandOf(record);
      if c.wallet !in wallets {
        return Some(WalletNotFound);
      }
      var w := wallets[c.wallet];
      var created := NewTransaction(c.external, c.provider, c.kind, c.amount);
      if created.None? {
        return Some(InvalidTransaction);
      }
      var waits := created.value.Transition(PendingReference);
      var rejected := created.value.Transition(Rejected);
      assert waits && rejected;
      var result := Result(c.id, Rejected, w.balance, c.amount, code);
      var row := SettledRow(record, result);
      e := UpdatePendingReference(at, row);
      InsertEvents(row, result, w, None);
    }

    /** advancePendingReferenceInTx: wait for another attempt, or give up. */
    method AdvancePending(at: nat, now: int, max: nat, backoff: int, code: Code) returns (r: Outcome<bool, Error>)
      requires at < |txs| && txs[at].state.PendingReference?
      requires FromMinor(txs[at].amount, txs[at].currency).Some?
      modifies this
      ensures var t := old(txs)[at];
              if t.attempts + 1 < max
              then r == Ok(true) && Contents() ==
                   Commit(old(Contents()), Some(at), Postpone(PostponedRow(t, now + WorkerDelay(backoff, t.attempts + 1))), [])
              else match ConcludeTx(old(Contents()), at, Wait(code))
                   case Err(e) => r == Err(e) && Contents() == old(Contents())
                   case Ok(step) => r == Ok(step.retry) && Contents() == step.db
    {
      hide FromMinor, WorkerDelay;
      var t := txs[at];
      if t.attempts + 1 < max {
        var e := UpdatePendingReference(at, PostponedRow(t, now + WorkerDelay(backoff, t.attempts + 1)));
        assert outbox + [] == outbox;
        return Ok(true);
      }
      var e := RejectPending(at, t.(attempts := t.attempts + 1), code);
      return if e.Some? then Err(e.value) else Ok(false);
    }

    /** processPendingReferenceInTx once a processed, valid reference was found. */
    method CarryPending(at: nat, kind: Kind, now: int) returns (r: Outcome<bool, Error>)
      requires at < |txs| && txs[at].state.PendingReference?
      requires FromMinor(txs[at].amount, txs[at].currency).Some?
      modifies this
      ensures match ConcludeTx(old(Contents()), at, Carry(kind))
              case Err(e) => r == Err(e) && Contents() == old(Contents())
              case Ok(step) => r == Ok(step.retry) && Contents() == step.db
    {
      var t := txs[at];
      var c := CommandOf(t);
      if c.wallet !in wallets {
        return Err(WalletNotFound);
      }
      var created := NewTransaction(c.external, c.provider, c.kind, c.amount);
      if created.None? {
        return Err(InvalidTransaction);
      }
      var waits := created.value.Transition(PendingReference);
      assert waits;
      var done := ApplyOperation(c, wallets[c.wallet], created.value, Some(kind), Some(at), t, now);
      return if done.Err? then Err(done.error) else Ok(false);
    }

    /** processPendingReferenceInTx. */
    method ProcessPendingInTx(at: nat, now: int, max: nat, backoff: int) returns (r: Outcome<bool, Error>)
      requires at < |txs| && txs[at].state.PendingReference?
      modifies this
      ensures match WorkerTx(old(Contents()), at, now, max, backoff)
              case Err(e) => r == Err(e) && Contents() == old(Contents())
              case Ok(step) => r == Ok(step.retry) && Contents() == step.db
    {
      var t := txs[at];
      if FromMinor(t.amount, t.currency).None? {
        return Err(InvalidStoredMoney);
      }
      match Resolve(t, LookupExternal(txs, t.provider, t.ref))
      case Wait(code) =>
        r := AdvancePending(at, now, max, backoff, code);
      case Turn(code) =>
        var e := RejectPending(at, t, code);
        return if e.Some? then Err(e.value) else Ok(false);
      case Carry(kind) =>
        r := CarryPending(at, kind, now);
    }

    /** ProcessPendingReference: claims the first due row, if any, and takes one step on it. */
    method ProcessPendingReference(now: int, maxAttempts: int, backoff: int) returns (claimed: Option<nat>, r: Outcome<bool, Error>)
      modifies this
      ensures claimed.None? ==> Contents() == old(Contents()) && r == Ok(false) && forall k :: 0 <= k < |txs| ==> !WaitsUntil(txs[k], now)
      ensures claimed.Some? ==>
                && claimed.value < |old(txs)| && WaitsUntil(old(txs)[claimed.value], now)
                && (forall k :: 0 <= k < |old(txs)| && WaitsUntil(old(txs)[k], now) ==> ServedFirst(old(txs)[claimed.value], old(txs)[k]))
                && match WorkerTx(old(Contents()), claimed.value, now, if maxAttempts < 1 then 1 else maxAttempts, backoff)
                   case Err(e) => r == Err(e) && Contents() == old(Contents())
                   case Ok(step) => r == Ok(step.retry) && Contents() == step.db
    {
      var max := if maxAttempts < 1 then 1 else maxAttempts;
      var saved := Contents();
      claimed := FindNextPending(now);
      if claimed.None? {
        return claimed, Ok(false);
      }
      r := ProcessPendingInTx(claimed.value, now, max, backoff);
      if r.Err? {
        Rollback(saved);
      }
    }

    // -------------------------------------------------------------------
    // Wallets
    // -------------------------------------------------------------------

    /** The opening row, its ledger entry and its events, for a wallet just inserted. */
    method PostOpening(id: Id, txId: Id, player: string, opening: Money) returns (e: Option<Error>)
      requires ValidOpening(player, opening) && opening.minor > 0
      modifies this
      ensures var ch := OpeningChange(id, txId, player, opening);
              && e == InsertRefusal(old(wallets), old(txs), ch.row)
              && Contents() == if e.Some? then old(Contents()) else
                   old(Contents()).(txs := old(txs) + [ch.row],
                                    ledger := old(ledger) + [Entry(id, txId, Credit, opening.minor, opening.currency, 0, opening.minor)],
                                    outbox := old(outbox) + Events(ch, NextOrderings(old(Contents()), ch)),
                                    nextOrdering := old(nextOrdering) + 2)
    {
      var row := OpeningRow(id, txId, player, opening);
      e := InsertTransaction(row);
      if e.Some? {
        return;
      }
      var entry := NewEntry(id, txId, Credit, opening, Money(0, opening.currency), opening);
      ledger := ledger + [entry.value];
      InsertEvents(row, OpeningResult(txId, opening), Unopened(player, opening), Some(Credit));
    }

    /** OpenWallet; `txId` is the identifier drawn for the opening row. */
    method OpenWallet(id: Id, txId: Id, player: string, opening: Money) returns (e: Option<Error>)
      requires TypedMoney(opening)
      modifies this
      ensures match Open(old(Contents()), id, txId, player, opening)
              case Err(error) => e == Some(error) && Contents() == old(Contents())
              case Ok(db) => e == None && Contents() == db
    {
      var saved := Contents();
      var checked := NewWallet(id, player, opening);
      if checked.Err? {
        return Some(InvalidOpening);
      }
      e := InsertWallet(id, Wallet(player, opening.currency, opening.minor, 1));
      if e.Some? || opening.minor == 0 {
        return;
      }
      e := PostOpening(id, txId, player, opening);
      if e.Some? {
        Rollback(saved);
        return;
      }
      OpeningShape(saved, id, txId, player, opening, [saved.nextOrdering, saved.nextOrdering + 1]);
      assert NextOrderings(saved, OpeningChange(id, txId, player, opening)) == [saved.nextOrdering, saved.nextOrdering + 1];
    }

    /**
     Reconcile: the stored balance against the one rebuilt from the wallet's
     ledger rows, in whatever order they are read. In a sound state it succeeds
     exactly when no two movements of the wallet started from the same balance,
     and it then finds the two balances equal.
     */
    method Reconcile(id: Id, rows: seq<Entry>) returns (r: Option<Outcome<Reconciliation, Failure>>)
      requires multiset(rows) == multiset(EntriesOf(ledger, id))
      ensures r.Some? <==> id in wallets
      ensures r.Some? ==> (r.value.Ok? <==> Reconstructible(rows, wallets[id].currency))
      ensures r.Some? && r.value.Ok? ==>
                r.value.value == Reconciliation(wallets[id].balance, Net(rows), wallets[id].balance == Net(rows))
      ensures r.Some? && Inv(Contents()) ==> (r.value.Ok? <==> DistinctBefores(EntriesOf(ledger, id)))
      ensures r.Some? && Inv(Contents()) && r.value.Ok? ==> r.value.value.consistent
    {
      if id !in wallets {
        return None;
      }
      var rebuilt := Reconstruct(rows, wallets[id].currency);
      if Inv(Contents()) {
        ReconcileHolds(Contents(), id, rows);
      }
      match rebuilt
      case Err(e) => return Some(Err(e));
      case Ok(balance) => return Some(Ok(Reconciliation(wallets[id].balance, balance, wallets[id].balance == balance)));
    }
  }

  /** A call neither reads nor writes the inbox. */
  lemma CallIgnoresInbox(db: Db, inbox: map<InboxKey, InboxRow>, c: Command, now: int)
    requires TypedMoney(c.amount)
    ensures CallTx(db.(inbox := inbox), c, now) ==
            match CallTx(db, c, now)
            case Err(e) => Err(e)
            case Ok(answer) => Ok(Answer(answer.db.(inbox := inbox), answer.result))
    ensures CallTx(db, c, now).Ok? ==> CallTx(db, c, now).value.db.inbox == db.inbox
  {
  }

  /** The row carries the command's columns. */
  predicate Identity(row: Tx, c: Command) {
    row.id == c.id && row.wallet == c.wallet && row.amount == c.amount.minor && row.currency == c.amount.currency
  }
}
