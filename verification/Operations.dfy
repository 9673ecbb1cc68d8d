/**
 The four operations of the service as whole transactions: what each returns
 and what it leaves in the tables. A refused transaction leaves everything.
 */
module Operations {
  import opened Prelude
  import opened Monetary
  import opened Tables
  import opened Domain
  import opened Engine
  import opened Backoff

  /** The sequence numbers a change would draw now. */
  function NextOrderings(db: Db, ch: Change): seq<nat> {
    seq(EventCount(ch), i => db.nextOrdering + i)
  }

  /** A change committed with the next sequence numbers. */
  function CommitNext(db: Db, slot: Option<nat>, ch: Change): Db
    requires slot.Some? ==> slot.value < |db.txs|
  {
    Commit(db, slot, ch, NextOrderings(db, ch)).(nextOrdering := db.nextOrdering + EventCount(ch))
  }

  predicate SlotTaken(txs: seq<Tx>, row: Tx) {
    row.state.Processed? && row.ref != "" && IndexBySlot(txs, row.provider, row.ref).Some?
  }

  /** The constraint an INSERT into wager_transactions violates first. */
  function InsertRefusal(wallets: map<Id, Wallet>, txs: seq<Tx>, row: Tx): Option<Error> {
    if IndexById(txs, row.id).Some? then Some(Violation(TxPkey))
    else if IndexByExternal(txs, row.provider, row.external).Some? then Some(Violation(ExternalIndex))
    else if IndexByKey(txs, row.provider, row.key).Some? then Some(Violation(KeyIndex))
    else if SlotTaken(txs, row) then Some(Violation(ReversalIndex))
    else if row.wallet !in wallets || wallets[row.wallet].currency != row.currency then Some(ForeignKeyViolation)
    else None
  }

  /** An UPDATE of a waiting row can only meet the reversal index. */
  function WriteRefusal(wallets: map<Id, Wallet>, txs: seq<Tx>, slot: Option<nat>, row: Tx): Option<Error> {
    if slot.None? then InsertRefusal(wallets, txs, row)
    else if SlotTaken(txs, row) then Some(Violation(ReversalIndex))
    else None
  }

  /** Writing a decided change: refused by a constraint, or committed. */
  function Write(db: Db, slot: Option<nat>, ch: Change): Outcome<Db, Error>
    requires slot.Some? ==> slot.value < |db.txs|
  {
    match WriteRefusal(db.wallets, db.txs, slot, ch.row)
    case Some(e) => Err(e)
    case None => Ok(CommitNext(db, slot, ch))
  }

  // ---------------------------------------------------------------------
  // Calls
  // ---------------------------------------------------------------------

  datatype Answer = Answer(db: Db, result: Result)

  function Replayed(db: Db, t: Tx): Outcome<Answer, Error> {
    match ReplayResult(t)
    case Err(e) => Err(e)
    case Ok(r) => Ok(Answer(db, r))
  }

  /** processInTx. */
  function CallTx(db: Db, c: Command, now: int): Outcome<Answer, Error>
    requires TypedMoney(c.amount)
  {
    match FindExisting(db.txs, c)
    case Clash(e) => Err(e)
    case Hit(at) => Replayed(db, db.txs[at])
    case Missing =>
      if c.wallet !in db.wallets then Err(WalletNotFound)
      else
        match Decide(c, db.wallets[c.wallet], LookupExternal(db.txs, c.provider, c.ref))
        case Refuse(e) => Err(e)
        case Persist(result, move) =>
          match Write(db, None, Settle(NewRow(c, result, now), result, db.wallets[c.wallet], move))
          case Err(e) => Err(e)
          case Ok(db') => Ok(Answer(db', result))
  }

  predicate IdentityViolation(e: Error) {
    e.Violation? && (e.index.TxPkey? || e.index.ExternalIndex? || e.index.KeyIndex? || e.index.ReversalIndex?)
  }

  /** resolveIdentityConflict. */
  function ResolveConflict(db: Db, c: Command): Outcome<Answer, Error> {
    match FindExisting(db.txs, c)
    case Clash(e) => Err(e)
    case Missing => Err(IdempotencyConflict)
    case Hit(at) => Replayed(db, db.txs[at])
  }

  /** Process. */
  function Call(db: Db, c: Command, now: int): Outcome<Answer, Error>
    requires TypedMoney(c.amount)
  {
    if !ValidCommand(c) then Err(InvalidCommand)
    else
      match CallTx(db, c, now)
      case Ok(answer) => Ok(answer)
      case Err(e) =>
        if !IdentityViolation(e) then Err(e)
        else if e == Violation(ReversalIndex) then Err(IdempotencyConflict)
        else ResolveConflict(db, c)
  }

  function Complete(db: Db, m: InboxKey, hash: string): Db {
    db.(inbox := db.inbox[m := InboxRow(hash, true)])
  }

  /** ProcessMessage; the flag tells whether the message had already been completed. */
  function Message(db: Db, m: InboxKey, hash: string, c: Command, now: int): Outcome<(Answer, bool), Error>
    requires TypedMoney(c.amount)
  {
    if !ValidCommand(c) then Err(InvalidCommand)
    else if c.hash != hash then Err(InboxPayloadMismatch)
    else if m in db.inbox && db.inbox[m].hash != hash then Err(InboxPayloadMismatch)
    else
      match CallTx(db, c, now)
      case Ok(answer) => Ok((Answer(Complete(answer.db, m, hash), answer.result), m in db.inbox && db.inbox[m].completed))
      case Err(e) => Err(if IdentityViolation(e) then IdempotencyConflict else e)
  }

  // ---------------------------------------------------------------------
  // The pending-reference worker
  // ---------------------------------------------------------------------

  /** ORDER BY reference_next_attempt_at NULLS FIRST, id. */
  predicate Precedes(a: Tx, b: Tx) {
    if a.nextAttempt == b.nextAttempt then a.id <= b.id
    else a.nextAttempt.None? || (b.nextAttempt.Some? && a.nextAttempt.value < b.nextAttempt.value)
  }

  /** What one committed worker step leaves, and whether it scheduled a retry. */
  datatype Advance = Advance(db: Db, retry: bool)

  /** rejectPendingReferenceInTx and the end of applyOperationInTx: a waiting row concluded under its wallet. */
  function ConcludeTx(db: Db, at: nat, resolution: Resolution): Outcome<Advance, Error>
    requires at < |db.txs|
  {
    var t := db.txs[at];
    if t.wallet !in db.wallets then Err(WalletNotFound)
    else
      var w := db.wallets[t.wallet];
      match Conclude(t, w, resolution)
      case Refuse(e) => Err(e)
      case Persist(result, move) =>
        match Write(db, Some(at), Settle(SettledRow(CountedRow(t, resolution), result), result, w, move))
        case Err(e) => Err(e)
        case Ok(db') => Ok(Advance(db', false))
  }

  /** processPendingReferenceInTx on the claimed row. */
  function WorkerTx(db: Db, at: nat, now: int, max: nat, backoff: int): Outcome<Advance, Error>
    requires at < |db.txs|
  {
    var t := db.txs[at];
    if FromMinor(t.amount, t.currency).None? then Err(InvalidStoredMoney)
    else
      var resolution := Resolve(t, LookupExternal(db.txs, t.provider, t.ref));
      if resolution.Wait? && t.attempts + 1 < max
      then Ok(Advance(Commit(db, Some(at), Postpone(PostponedRow(t, now + WorkerDelay(backoff, t.attempts + 1))), []), true))
      else ConcludeTx(db, at, resolution)
  }

  // ---------------------------------------------------------------------
  // Opening a wallet
  // ---------------------------------------------------------------------

  /** The constraint an INSERT into wallets violates first. */
  function WalletRefusal(wallets: map<Id, Wallet>, id: Id, player: string, currency: string): Option<Error> {
    if id in wallets then Some(Violation(WalletPkey))
    else if OwnerTaken(wallets, player, currency) then Some(Violation(WalletOwnerIndex))
    else None
  }

  /** OpenWallet. */
  function Open(db: Db, id: Id, txId: Id, player: string, opening: Money): Outcome<Db, Error> {
    if !ValidOpening(player, opening) then Err(InvalidOpening)
    else
      match WalletRefusal(db.wallets, id, player, opening.currency)
      case Some(e) => Err(e)
      case None =>
        if opening.minor == 0 then Ok(CommitOpening(db, id, txId, player, opening, []))
        else
          var ch := OpeningChange(id, txId, player, opening);
          var wallets := db.wallets[id := Wallet(player, opening.currency, opening.minor, 1)];
          match InsertRefusal(wallets, db.txs, ch.row)
          case Some(e) => Err(e)
          case None =>
            Ok(CommitOpening(db, id, txId, player, opening, [db.nextOrdering, db.nextOrdering + 1]).(nextOrdering := db.nextOrdering + 2))
  }
}
