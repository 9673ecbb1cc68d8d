/**
 The rows of the database (migrations/000001 to 000008 and the record types of
 internal/infrastructure/postgres/repositories.go), and one database state.
 */
module Tables {
  import opened Prelude
  import opened Monetary

  /** A UUID; zero is uuid.Nil. */
  type Id = nat

  datatype Kind = Opening | Bet | Win | Loss | Refund | Rollback
  datatype Status = Pending | Processed | Rejected | Failed | PendingReference
  datatype Direction = Credit | Debit

  datatype Code =
    | NoCode
    | InsufficientBalance
    | ReversalInsufficientBalance
    | PlayerWalletMismatch
    | ReferenceRequired
    | ReferenceInvalid
    | ReferenceNotFound
    | ReferenceNotResolved
    | ReferenceNotSuccessful

  datatype Wallet = Wallet(player: string, currency: string, balance: int, version: int)

  /** The result a call returns. */
  datatype Result = Result(tx: Id, state: Status, balance: int, amount: Money, code: Code)

  /** The same result as the JSON column stores it, with the amount printed. */
  datatype Snapshot = Snapshot(tx: Id, state: Status, balance: int, amount: string, currency: string, code: Code)

  /** A wager_transactions row; an empty `ref` stands for NULL. */
  datatype Tx = Tx(
    id: Id, external: string, provider: string, wallet: Id, player: string, game: string, round: string,
    kind: Kind, amount: int, currency: string, state: Status, key: string, hash: string, ref: string,
    attempts: nat, nextAttempt: Option<int>, code: Code, result: Option<Snapshot>)

  /** A wallet_ledger_entries row. */
  datatype Entry = Entry(wallet: Id, tx: Id, direction: Direction, value: int, currency: string, before: int, after: int)

  /** What an event is about: the identifiers of wallets and of transactions are distinct UUIDs. */
  datatype Aggregate = WalletAggregate(wallet: Id) | TxAggregate(tx: Id)

  datatype EventKind = TransactionProcessed | TransactionRejected | TransactionPendingReference | WalletBalanceChanged

  datatype Body =
    | TxBody(result: Result, wallet: Id, kind: Kind)
    | BalanceBody(tx: Id, wallet: Id, direction: Direction, value: Money, before: Money, after: Money, version: int, kind: Kind, state: Status)

  /** An outbox row as the engine inserts it; `ordering` is drawn from the sequence. */
  datatype Event = Event(ordering: nat, kind: EventKind, aggregate: Aggregate, correlation: string, causation: Id, version: int, body: Body)

  datatype InboxKey = InboxKey(consumer: string, message: string)
  datatype InboxRow = InboxRow(hash: string, completed: bool)

  /** The committed state. Rows of `txs`, `ledger` and `outbox` are in commit order. */
  datatype Db = Db(
    wallets: map<Id, Wallet>, txs: seq<Tx>, ledger: seq<Entry>, inbox: map<InboxKey, InboxRow>,
    outbox: seq<Event>, nextOrdering: nat)

  const EmptyDb := Db(map[], [], [], map[], [], 0)

  // ---------------------------------------------------------------------
  // Index lookups
  // ---------------------------------------------------------------------

  function IndexById(txs: seq<Tx>, id: Id): (r: Option<nat>)
    ensures r.Some? ==> r.value < |txs| && txs[r.value].id == id
    ensures r.None? ==> forall k :: 0 <= k < |txs| ==> txs[k].id != id
  {
    if txs == [] then None
    else if txs[|txs| - 1].id == id then Some(|txs| - 1)
    else IndexById(txs[..|txs| - 1], id)
  }

  predicate HasExternal(t: Tx, provider: string, external: string) {
    t.provider == provider && t.external == external
  }

  function IndexByExternal(txs: seq<Tx>, provider: string, external: string): (r: Option<nat>)
    ensures r.Some? ==> r.value < |txs| && HasExternal(txs[r.value], provider, external)
    ensures r.None? ==> forall k :: 0 <= k < |txs| ==> !HasExternal(txs[k], provider, external)
  {
    if txs == [] then None
    else if HasExternal(txs[|txs| - 1], provider, external) then Some(|txs| - 1)
    else IndexByExternal(txs[..|txs| - 1], provider, external)
  }

  predicate HasKey(t: Tx, provider: string, key: string) {
    t.provider == provider && t.key == key
  }

  function IndexByKey(txs: seq<Tx>, provider: string, key: string): (r: Option<nat>)
    ensures r.Some? ==> r.value < |txs| && HasKey(txs[r.value], provider, key)
    ensures r.None? ==> forall k :: 0 <= k < |txs| ==> !HasKey(txs[k], provider, key)
  {
    if txs == [] then None
    else if HasKey(txs[|txs| - 1], provider, key) then Some(|txs| - 1)
    else IndexByKey(txs[..|txs| - 1], provider, key)
  }

  /** The rows the partial index wager_transactions_reversal_idx covers. */
  predicate HoldsSlot(t: Tx, provider: string, ref: string) {
    t.state.Processed? && t.ref != "" && t.provider == provider && t.ref == ref
  }

  function IndexBySlot(txs: seq<Tx>, provider: string, ref: string): (r: Option<nat>)
    ensures r.Some? ==> r.value < |txs| && HoldsSlot(txs[r.value], provider, ref)
    ensures r.None? ==> forall k :: 0 <= k < |txs| ==> !HoldsSlot(txs[k], provider, ref)
  {
    if txs == [] then None
    else if HoldsSlot(txs[|txs| - 1], provider, ref) then Some(|txs| - 1)
    else IndexBySlot(txs[..|txs| - 1], provider, ref)
  }

  /** The primary key and the unique indexes of wager_transactions. */
  ghost predicate UniqueKeys(txs: seq<Tx>) {
    forall i, j :: 0 <= i < j < |txs| ==>
      && txs[i].id != txs[j].id
      && !HasExternal(txs[j], txs[i].provider, txs[i].external)
      && !HasKey(txs[j], txs[i].provider, txs[i].key)
      && !(HoldsSlot(txs[i], txs[i].provider, txs[i].ref) && HoldsSlot(txs[j], txs[i].provider, txs[i].ref))
  }
}
