/**
 The decisions of the financial service (internal/application/financial/service.go,
 idempotency.go) as functions of what each transaction reads, and the effect of
 a commit on the database.
 */
module Engine {
  import opened Prelude
  import opened Monetary
  import opened Tables
  import opened Domain

  const LEGACY := "legacy"
  const INTERNAL := "internal"

  datatype Command = Command(
    id: Id, wallet: Id, external: string, provider: string, player: string, game: string, round: string,
    key: string, hash: string, ref: string, kind: Kind, amount: Money)

  datatype UniqueIndex = WalletPkey | WalletOwnerIndex | TxPkey | ExternalIndex | KeyIndex | ReversalIndex

  datatype Error =
    | InvalidCommand
    | InvalidTransaction
    | IdempotencyConflict
    | ReplayUnavailable
    | InboxPayloadMismatch
    | WalletNotFound
    | InvalidStoredMoney
    | InvalidStoredWallet
    | InvalidReference
    | InvalidOpening
    | Violation(index: UniqueIndex)
    | ForeignKeyViolation
    | Interrupted // connection lost, context cancelled or process crash: the transaction rolls back

  // ---------------------------------------------------------------------
  // Command identity
  // ---------------------------------------------------------------------

  /** canonicalCommand: the business input, without ids, keys and transport metadata. */
  datatype Payload = Payload(
    external: string, provider: string, wallet: Id, player: string, game: string, round: string, ref: string,
    kind: Kind, amount: Money)

  function PayloadOf(c: Command): Payload {
    Payload(c.external, c.provider, c.wallet, c.player, c.game, c.round, c.ref, c.kind, c.amount)
  }

  /** Any text of 64 characters may be the digest of any payload. */
  ghost predicate MayDigest(p: Payload, text: string) {
    |text| == 64
  }

  /** The hex SHA-256 of the canonical payload: a text chosen payload by payload, nothing more is known. */
  ghost function Digest(p: Payload): string {
    assert MayDigest(p, seq(64, _ => '0'));
    var text: string :| MayDigest(p, text);
    text
  }

  predicate ValidCommand(c: Command) {
    && c.id != 0 && c.wallet != 0 && c.external != "" && c.provider != "" && c.player != "" && c.game != ""
    && c.round != "" && c.key != "" && c.player != LEGACY && c.game != LEGACY && c.round != LEGACY
  }

  /** What the constructors of money leave possible: an int64 and a valid or absent currency. */
  predicate TypedMoney(m: Money) {
    IsInt64(m.minor) && (m.currency == "" || ValidCurrency(m.currency))
  }

  /** prepareCommand succeeded: validated, and the hash is the computed one. */
  ghost predicate Prepared(c: Command) {
    ValidCommand(c) && TypedMoney(c.amount) && c.hash == Digest(PayloadOf(c))
  }

  predicate SameBusiness(t: Tx, c: Command) {
    && t.provider == c.provider && t.external == c.external && t.wallet == c.wallet && t.player == c.player
    && t.game == c.game && t.round == c.round && t.kind == c.kind && t.amount == c.amount.minor
    && t.currency == c.amount.currency && t.ref == c.ref
  }

  /** commandFromRecord, once its amount has been rebuilt. */
  function CommandOf(t: Tx): Command {
    Command(t.id, t.wallet, t.external, t.provider, t.player, t.game, t.round, t.key, t.hash, t.ref, t.kind, Money(t.amount, t.currency))
  }

  // ---------------------------------------------------------------------
  // Persisted results
  // ---------------------------------------------------------------------

  function MarshalResult(r: Result): Snapshot {
    Snapshot(r.tx, r.state, r.balance, Amount(r.amount), r.amount.currency, r.code)
  }

  function UnmarshalResult(s: Snapshot): Option<Result> {
    match New(s.amount, s.currency)
    case Ok(m) => Some(Result(s.tx, s.state, s.balance, m, s.code))
    case Err(_) => None
  }

  /** The JSON snapshot loses nothing, because printing and parsing money does not. */
  lemma ResultRoundTrip(r: Result)
    requires ValidCurrency(r.amount.currency) && 0 <= r.amount.minor <= MAX_INT64
    ensures UnmarshalResult(MarshalResult(r)) == Some(r)
  {
    PrintParse(r.amount);
  }

  function ReplayResult(t: Tx): Outcome<Result, Error> {
    if t.result.None? then Err(ReplayUnavailable)
    else
      match UnmarshalResult(t.result.value)
      case None => Err(ReplayUnavailable)
      case Some(r) =>
        if r.tx != t.id || r.state != t.state || r.balance < 0 || r.amount.minor != t.amount || r.amount.currency != t.currency
        then Err(ReplayUnavailable)
        else Ok(r)
  }

  datatype Lookup = Missing | Hit(at: nat) | Clash(error: Error)

  function Judged(t: Tx, at: nat, c: Command): Lookup {
    if t.key != c.key || !SameBusiness(t, c) then Clash(IdempotencyConflict)
    else if t.hash != c.hash then Clash(ReplayUnavailable)
    else Hit(at)
  }

  /** findExistingTransaction: by id, then by idempotency key, then by external id. */
  function FindExisting(txs: seq<Tx>, c: Command): (r: Lookup)
    ensures r.Hit? ==> r.at < |txs| && txs[r.at].key == c.key && SameBusiness(txs[r.at], c) && txs[r.at].hash == c.hash
    ensures r.Missing? ==> IndexById(txs, c.id).None? && IndexByKey(txs, c.provider, c.key).None?
                           && IndexByExternal(txs, c.provider, c.external).None?
  {
    match IndexById(txs, c.id)
    case Some(i) => Judged(txs[i], i, c)
    case None =>
      match IndexByKey(txs, c.provider, c.key)
      case Some(i) => Judged(txs[i], i, c)
      case None =>
        match IndexByExternal(txs, c.provider, c.external)
        case Some(i) => Judged(txs[i], i, c)
        case None => Missing
  }

  // ---------------------------------------------------------------------
  // What a transaction decides to write
  // ---------------------------------------------------------------------

  /** validReference. */
  predicate ValidReference(c: Command, r: Tx) {
    && r.state.Processed? && r.player != LEGACY && r.game != LEGACY && r.round != LEGACY
    && r.wallet == c.wallet && r.player == c.player && r.game == c.game && r.round == c.round
    && r.currency == c.amount.currency && r.amount == c.amount.minor
    && (if c.kind.Refund? then r.kind.Bet? else r.kind.Bet? || r.kind.Win? || r.kind.Refund?)
  }

  /** The wallet movement an operation asks for; a loss asks for none. */
  function DirectionFor(kind: Kind, refKind: Kind): Direction {
    match kind
    case Bet => Debit
    case Rollback => if refKind.Bet? then Credit else Debit
    case _ => Credit
  }

  /**
   A decided write: the wallet as it was read under lock, the outcome to persist
   and the movement, if any. A postponed retry only touches the row.
   */
  datatype Plan =
    | Refuse(error: Error)
    | Persist(result: Result, move: Option<Direction>)

  function Rejection(c: Command, w: Wallet, code: Code): Plan {
    Persist(Result(c.id, Rejected, w.balance, c.amount, code), None)
  }

  /** applyOperationInTx up to its first write; `refKind` is the kind of the validated reference. */
  function Operate(c: Command, w: Wallet, refKind: Option<Kind>): Plan
    requires IsInt64(c.amount.minor)
  {
    match FromMinor(w.balance, w.currency)
    case None => Refuse(InvalidStoredMoney)
    case Some(balance) =>
      if w.player == "" then Refuse(InvalidStoredWallet)
      else if c.kind.Opening? || (c.kind.Rollback? && refKind.None?) then Refuse(InvalidReference)
      else if c.kind.Loss? then Persist(Result(c.id, Processed, w.balance, c.amount, NoCode), None)
      else
        var direction := DirectionFor(c.kind, if refKind.Some? then refKind.value else c.kind);
        match if direction.Credit? then Credited(balance, c.amount) else Debited(balance, c.amount)
        case Ok(next) => Persist(Result(c.id, Processed, next.minor, c.amount, NoCode), Some(direction))
        case Err(_) => Rejection(c, w, if c.kind.Bet? then InsufficientBalance else ReversalInsufficientBalance)
  }

  /** processInTx after its second lookup; `reference` is what the reference lookup found. */
  function Decide(c: Command, w: Wallet, reference: Option<Tx>): Plan
    requires IsInt64(c.amount.minor)
  {
    if !ExternalKind(c.kind) || !ValidAmount(c.kind, c.amount) then Refuse(InvalidTransaction)
    else if c.player != w.player then Rejection(c, w, PlayerWalletMismatch)
    else if IsReversal(c.kind) then
      if c.ref == "" then Rejection(c, w, ReferenceRequired)
      else
        match reference
        case None => Persist(Result(c.id, PendingReference, w.balance, c.amount, NoCode), None)
        case Some(r) =>
          if !ValidReference(c, r) then Rejection(c, w, ReferenceInvalid) else Operate(c, w, Some(r.kind))
    else Operate(c, w, None)
  }

  /** insertTransaction: the new row. */
  function NewRow(c: Command, result: Result, now: int): Tx {
    Tx(c.id, c.external, c.provider, c.wallet, c.player, c.game, c.round, c.kind, c.amount.minor, c.amount.currency,
       result.state, c.key, c.hash, c.ref, 0, if result.state.PendingReference? then Some(now) else None, result.code,
       Some(MarshalResult(result)))
  }

  /** The pending row once it is decided. */
  function SettledRow(t: Tx, result: Result): Tx {
    t.(state := result.state, result := Some(MarshalResult(result)), nextAttempt := None, code := result.code)
  }

  /** What the pending-reference worker does with the reference it found. */
  datatype Resolution = Wait(code: Code) | Turn(code: Code) | Carry(kind: Kind)

  /** processPendingReferenceInTx after its reference lookup. */
  function Resolve(t: Tx, reference: Option<Tx>): Resolution {
    match reference
    case None => Wait(ReferenceNotFound)
    case Some(r) =>
      if !r.state.Processed? then
        if r.state.Pending? || r.state.PendingReference? then Wait(ReferenceNotResolved) else Turn(ReferenceNotSuccessful)
      else if !ValidReference(CommandOf(t), r) then Turn(ReferenceInvalid)
      else Carry(r.kind)
  }

  /** What the worker writes once it holds the wallet; an exhausted wait counts its last attempt. */
  function Conclude(t: Tx, w: Wallet, resolution: Resolution): Plan {
    var c := CommandOf(t);
    if FromMinor(t.amount, t.currency).None? then Refuse(InvalidStoredMoney)
    else if c.external == "" || c.provider == "" || !ExternalKind(c.kind) || !ValidAmount(c.kind, c.amount) then Refuse(InvalidTransaction)
    else
      match resolution
      case Carry(kind) => Operate(c, w, Some(kind))
      case Turn(code) => Rejection(c, w, code)
      case Wait(code) => Rejection(c, w, code)
  }

  /** advancePendingReferenceInTx while attempts remain. */
  function PostponedRow(t: Tx, next: int): Tx {
    t.(attempts := t.attempts + 1, nextAttempt := Some(next))
  }

  /** The row the worker concludes: an exhausted wait has counted its last attempt. */
  function CountedRow(t: Tx, resolution: Resolution): Tx {
    if resolution.Wait? then t.(attempts := t.attempts + 1) else t
  }

  function LookupExternal(txs: seq<Tx>, provider: string, external: string): Option<Tx> {
    match IndexByExternal(txs, provider, external)
    case None => None
    case Some(k) => Some(txs[k])
  }

  /** The rows FindNextPendingReferenceForUpdate may claim. */
  predicate DueRow(t: Tx, now: int) {
    t.state.PendingReference? && (t.nextAttempt.None? || t.nextAttempt.value <= now)
  }

  // ---------------------------------------------------------------------
  // The effect of a commit
  // ---------------------------------------------------------------------

  /** What a transaction writes: a settled row with its wallet as read, or a postponed retry. */
  datatype Change =
    | Settle(row: Tx, result: Result, wallet: Wallet, move: Option<Direction>)
    | Postpone(row: Tx)

  function EntryOf(ch: Change): Entry
    requires ch.Settle? && ch.move.Some?
  {
    Entry(ch.row.wallet, ch.row.id, ch.move.value, ch.row.amount, ch.row.currency, ch.wallet.balance, ch.result.balance)
  }

  function VersionAfter(ch: Change): int
    requires ch.Settle?
  {
    if ch.move.Some? then ch.wallet.version + 1 else ch.wallet.version
  }

  function EventKindOf(state: Status): EventKind {
    if state.Processed? then TransactionProcessed
    else if state.PendingReference? then TransactionPendingReference
    else TransactionRejected
  }

  function TxEvent(row: Tx, result: Result, version: int, ordering: nat): Event {
    Event(ordering, EventKindOf(result.state), TxAggregate(row.id), row.key, row.id, version, TxBody(result, row.wallet, row.kind))
  }

  function BalanceEvent(ch: Change, ordering: nat): Event
    requires ch.Settle? && ch.move.Some?
  {
    Event(ordering, WalletBalanceChanged, WalletAggregate(ch.row.wallet), ch.row.key, ch.row.id, VersionAfter(ch),
          BalanceBody(ch.row.id, ch.row.wallet, ch.move.value, ch.result.amount,
                      Money(ch.wallet.balance, ch.row.currency), Money(ch.result.balance, ch.row.currency),
                      VersionAfter(ch), ch.row.kind, ch.result.state))
  }

  /** How many sequence numbers a change draws. */
  function EventCount(ch: Change): nat {
    if ch.Postpone? then 0 else if ch.move.Some? then 2 else 1
  }

  /** insertFinancialEvents and insertEvent: the transaction's event, then the wallet's. */
  function Events(ch: Change, orderings: seq<nat>): seq<Event>
    requires |orderings| == EventCount(ch)
  {
    if ch.Postpone? then []
    else if ch.move.Some? then
      [TxEvent(ch.row, ch.result, VersionAfter(ch), orderings[0]), BalanceEvent(ch, orderings[1])]
    else [TxEvent(ch.row, ch.result, VersionAfter(ch), orderings[0])]
  }

  function Put(txs: seq<Tx>, slot: Option<nat>, row: Tx): seq<Tx>
    requires slot.Some? ==> slot.value < |txs|
  {
    if slot.None? then txs + [row] else txs[slot.value := row]
  }

  /** Committing a change: a new row, or the row at `slot` rewritten. */
  function Commit(db: Db, slot: Option<nat>, ch: Change, orderings: seq<nat>): Db
    requires slot.Some? ==> slot.value < |db.txs|
    requires |orderings| == EventCount(ch)
  {
    var moved := ch.Settle? && ch.move.Some?;
    db.(txs := Put(db.txs, slot, ch.row),
        wallets := if moved then db.wallets[ch.row.wallet := ch.wallet.(balance := ch.result.balance, version := ch.wallet.version + 1)] else db.wallets,
        ledger := if moved then db.ledger + [EntryOf(ch)] else db.ledger,
        outbox := db.outbox + Events(ch, orderings))
  }

  // ---------------------------------------------------------------------
  // Opening a wallet
  // ---------------------------------------------------------------------

  function OpeningName(id: Id): string {
    "opening-" + Decimal(id)
  }

  /** The OPENING row; its hash column repeats the external id. */
  function OpeningRow(id: Id, txId: Id, player: string, opening: Money): Tx {
    var name := OpeningName(id);
    Tx(txId, name, INTERNAL, id, player, INTERNAL, "opening", Opening, opening.minor, opening.currency, Processed, name, name, "",
       0, None, NoCode, Some(MarshalResult(OpeningResult(txId, opening))))
  }

  function OpeningResult(txId: Id, opening: Money): Result {
    Result(txId, Processed, opening.minor, opening, NoCode)
  }

  /** The wallet before its opening movement; the movement brings it to version one. */
  function Unopened(player: string, opening: Money): Wallet {
    Wallet(player, opening.currency, 0, 0)
  }

  function OpeningChange(id: Id, txId: Id, player: string, opening: Money): Change {
    Settle(OpeningRow(id, txId, player, opening), OpeningResult(txId, opening), Unopened(player, opening), Some(Credit))
  }

  /** wallet.New and the checks of the wallets table. */
  predicate ValidOpening(player: string, opening: Money) {
    player != "" && 0 <= opening.minor <= MAX_INT64 && ValidCurrency(opening.currency)
  }

  /** UNIQUE (player_id, currency) would be violated. */
  predicate OwnerTaken(wallets: map<Id, Wallet>, player: string, currency: string) {
    exists v :: v in wallets && wallets[v].player == player && wallets[v].currency == currency
  }

  /** Committing OpenWallet. */
  function CommitOpening(db: Db, id: Id, txId: Id, player: string, opening: Money, orderings: seq<nat>): Db
    requires |orderings| == if opening.minor == 0 then 0 else 2
  {
    if opening.minor == 0 then db.(wallets := db.wallets[id := Wallet(player, opening.currency, 0, 1)])
    else
      Commit(db.(wallets := db.wallets[id := Unopened(player, opening)]), None, OpeningChange(id, txId, player, opening), orderings)
  }
}
