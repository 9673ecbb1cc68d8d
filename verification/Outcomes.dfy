/**
 The answer of a call in the columns of the tables alone: when a command is
 processed, when it waits, when it is rejected and with which code, when it
 fails, and every row, entry and event it then leaves.
 */
module Outcomes {
  import opened Prelude
  import opened Monetary
  import opened Tables
  import opened Domain
  import opened Engine
  import opened TxFacts
  import opened Invariants
  import opened Decisions
  import opened Operations
  import opened OperationProofs

  // ---------------------------------------------------------------------
  // What the columns say
  // ---------------------------------------------------------------------

  /** Row k is the one a provider's external id names. */
  ghost predicate Names(txs: seq<Tx>, provider: string, external: string, k: nat) {
    k < |txs| && txs[k].provider == provider && txs[k].external == external
  }

  /** Some processed row of the provider already holds this reference. */
  ghost predicate Taken(txs: seq<Tx>, provider: string, ref: string) {
    ref != "" && exists k :: 0 <= k < |txs| && txs[k].state == Processed && txs[k].provider == provider && txs[k].ref == ref
  }

  /** A refund takes back a bet; a rollback takes back a bet, a win or a refund; every column must agree. */
  predicate MayReverse(kind: Kind, wallet: Id, player: string, game: string, round: string, amount: Money, r: Tx) {
    && r.state == Processed && r.wallet == wallet && r.player == player && r.game == game && r.round == round
    && player != "legacy" && game != "legacy" && round != "legacy"
    && Money(r.amount, r.currency) == amount
    && (r.kind == Bet || (kind == Rollback && (r.kind == Win || r.kind == Refund)))
  }

  /** What a processed command adds to its wallet; `reversed` is the kind of the row a rollback takes back. */
  function Effect(kind: Kind, amount: int, reversed: Kind): int {
    match kind
    case Loss => 0
    case Bet => -amount
    case Rollback => if reversed == Bet then amount else -amount
    case _ => amount
  }

  predicate Affordable(balance: int, delta: int) {
    0 <= balance + delta <= 0x7fff_ffff_ffff_ffff
  }

  /** What becomes of a command: the state of its row, the movement of its wallet and the failure code. */
  datatype Ruling = Ruling(state: Status, delta: int, code: Code)

  function Carried(kind: Kind, balance: int, delta: int): Ruling {
    if Affordable(balance, delta) then Ruling(Processed, delta, NoCode)
    else Ruling(Rejected, 0, if kind == Bet then InsufficientBalance else ReversalInsufficientBalance)
  }

  /** The ruling on a reversal that names row r. */
  function Reversal(c: Command, balance: int, r: Tx): Ruling {
    if MayReverse(c.kind, c.wallet, c.player, c.game, c.round, c.amount, r)
    then Carried(c.kind, balance, Effect(c.kind, c.amount.minor, r.kind))
    else Ruling(Rejected, 0, ReferenceInvalid)
  }

  /** The ruling on a command that meets wallet w. */
  ghost predicate Rules(txs: seq<Tx>, c: Command, w: Wallet, v: Ruling) {
    if c.player != w.player then v == Ruling(Rejected, 0, PlayerWalletMismatch)
    else if c.kind != Refund && c.kind != Rollback then v == Carried(c.kind, w.balance, Effect(c.kind, c.amount.minor, c.kind))
    else if c.ref == "" then v == Ruling(Rejected, 0, ReferenceRequired)
    else
      && (forall k: nat :: Names(txs, c.provider, c.ref, k) ==> v == Reversal(c, w.balance, txs[k]))
      && ((forall k: nat :: !Names(txs, c.provider, c.ref, k)) ==> v == Ruling(PendingReference, 0, NoCode))
  }

  // ---------------------------------------------------------------------
  // What the tables gain
  // ---------------------------------------------------------------------

  function EventFor(state: Status): EventKind {
    match state
    case Processed => TransactionProcessed
    case PendingReference => TransactionPendingReference
    case _ => TransactionRejected
  }

  /** The result of a row whose wallet then has `balance`. */
  function ResultOf(row: Tx, balance: int): Result {
    Result(tx := row.id, state := row.state, balance := balance, amount := Money(row.amount, row.currency), code := row.code)
  }

  function SnapshotOf(row: Tx, balance: int): Snapshot {
    Snapshot(tx := row.id, state := row.state, balance := balance, amount := Amount(Money(row.amount, row.currency)), currency := row.currency, code := row.code)
  }

  /** `row`, carrying its own snapshot. */
  function Stamped(row: Tx, balance: int): Tx {
    row.(result := Some(SnapshotOf(row, balance)))
  }

  /** The event of a row and, if its wallet moved by `delta`, the event of the wallet. */
  function Told(row: Tx, w: Wallet, delta: int, ordering: nat): seq<Event> {
    var balance, version := w.balance + delta, w.version + if delta == 0 then 0 else 1;
    [Event(ordering := ordering, kind := EventFor(row.state), aggregate := TxAggregate(row.id), correlation := row.key, causation := row.id,
           version := version, body := TxBody(ResultOf(row, balance), row.wallet, row.kind))]
    + if delta == 0 then [] else
        [Event(ordering := ordering + 1, kind := WalletBalanceChanged, aggregate := WalletAggregate(row.wallet), correlation := row.key,
               causation := row.id, version := version,
               body := BalanceBody(tx := row.id, wallet := row.wallet, direction := if delta > 0 then Credit else Debit,
                                   value := Money(row.amount, row.currency), before := Money(w.balance, row.currency),
                                   after := Money(balance, row.currency), version := version, kind := row.kind, state := Processed))]
  }

  /** The tables once `row` stands in `txs` and its wallet moved by `delta`: one version, one entry and one event more, or none. */
  function Gains(db: Db, txs: seq<Tx>, row: Tx, delta: int): Db
    requires row.wallet in db.wallets
  {
    var w := db.wallets[row.wallet];
    var told := Told(row, w, delta, db.nextOrdering);
    if delta == 0 then db.(txs := txs, outbox := db.outbox + told, nextOrdering := db.nextOrdering + 1)
    else
      Db(wallets := db.wallets[row.wallet := Wallet(w.player, w.currency, w.balance + delta, w.version + 1)],
         txs := txs,
         ledger := db.ledger + [Entry(wallet := row.wallet, tx := row.id, direction := if delta > 0 then Credit else Debit, value := row.amount,
                                      currency := row.currency, before := w.balance, after := w.balance + delta)],
         inbox := db.inbox, outbox := db.outbox + told, nextOrdering := db.nextOrdering + 2)
  }

  /** The new row of a command. */
  function RowFor(c: Command, v: Ruling, now: int): Tx {
    Tx(id := c.id, external := c.external, provider := c.provider, wallet := c.wallet, player := c.player, game := c.game, round := c.round,
       kind := c.kind, amount := c.amount.minor, currency := c.amount.currency, state := v.state, key := c.key, hash := c.hash, ref := c.ref,
       attempts := 0, nextAttempt := if v.state == PendingReference then Some(now) else None, code := v.code, result := None)
  }

  function Recorded(db: Db, c: Command, v: Ruling, now: int): Db
    requires c.wallet in db.wallets
  {
    var row := Stamped(RowFor(c, v, now), db.wallets[c.wallet].balance + v.delta);
    Gains(db, db.txs + [row], row, v.delta)
  }

  // ---------------------------------------------------------------------
  // The model's commit is that gain
  // ---------------------------------------------------------------------

  /** A movement of `delta`, as the engine describes it. */
  predicate MovesBy(move: Option<Direction>, amount: int, delta: int) {
    match move
    case None => delta == 0
    case Some(Credit) => delta == amount > 0
    case Some(Debit) => -delta == amount > 0
  }

  lemma EventsAre(db: Db, row: Tx, result: Result, w: Wallet, move: Option<Direction>, delta: int)
    requires result == ResultOf(row, w.balance + delta) && MovesBy(move, row.amount, delta) && (delta != 0 ==> row.state == Processed)
    requires row.state == Processed || row.state == Rejected || row.state == PendingReference
    ensures var ch := Settle(row, result, w, move);
            Events(ch, NextOrderings(db, ch)) == Told(row, w, delta, db.nextOrdering) && EventCount(ch) == if delta == 0 then 1 else 2
  {
  }

  lemma CommitGains(db: Db, slot: Option<nat>, row: Tx, result: Result, move: Option<Direction>, delta: int)
    requires row.wallet in db.wallets && (slot.Some? ==> slot.value < |db.txs|)
    requires result == ResultOf(row, db.wallets[row.wallet].balance + delta) && MovesBy(move, row.amount, delta) && (delta != 0 ==> row.state == Processed)
    requires row.state == Processed || row.state == Rejected || row.state == PendingReference
    ensures CommitNext(db, slot, Settle(row, result, db.wallets[row.wallet], move)) ==
            Gains(db, if slot.None? then db.txs + [row] else db.txs[slot.value := row], row, delta)
  {
    EventsAre(db, row, result, db.wallets[row.wallet], move, delta);
  }

  // ---------------------------------------------------------------------
  // The model's decision is that ruling
  // ---------------------------------------------------------------------

  /** The wallet rows can be read and the unique indexes hold, as in every sound state. */
  ghost predicate Legible(db: Db) {
    UniqueKeys(db.txs) && forall w :: w in db.wallets ==> Readable(db.wallets[w])
  }

  lemma SoundIsLegible(db: Db)
    requires Inv(db)
    ensures Legible(db)
  {
    forall w | w in db.wallets
      ensures Readable(db.wallets[w])
    {
      WalletReads(db, w);
    }
  }

  /** The kind and amount wager.New accepts. */
  predicate Suitable(kind: Kind, amount: Money) {
    kind != Opening && amount.currency != "" && if kind == Loss then amount.minor == 0 else amount.minor > 0
  }

  /** A plan persists a ruling. */
  predicate Enacts(plan: Plan, id: Id, amount: Money, balance: int, v: Ruling) {
    plan.Persist? && plan.result == Result(id, v.state, balance + v.delta, amount, v.code) && MovesBy(plan.move, amount.minor, v.delta)
  }

  lemma OperateRules(c: Command, w: Wallet, reversed: Option<Kind>)
    requires Readable(w) && TypedMoney(c.amount) && Suitable(c.kind, c.amount) && c.amount.currency == w.currency
    requires c.kind == Rollback ==> reversed.Some?
    requires reversed.Some? ==> c.kind == Refund || c.kind == Rollback
    ensures Enacts(Operate(c, w, reversed), c.id, c.amount, w.balance,
                   Carried(c.kind, w.balance, Effect(c.kind, c.amount.minor, if reversed.Some? then reversed.value else c.kind)))
  {
  }

  lemma ReferenceRules(c: Command, r: Tx)
    requires c.kind == Refund || c.kind == Rollback
    ensures ValidReference(c, r) <==> MayReverse(c.kind, c.wallet, c.player, c.game, c.round, c.amount, r)
  {
  }

  lemma LookupNames(txs: seq<Tx>, provider: string, external: string)
    requires UniqueKeys(txs)
    ensures match IndexByExternal(txs, provider, external)
            case None => LookupExternal(txs, provider, external) == None && forall k: nat :: !Names(txs, provider, external, k)
            case Some(at) => LookupExternal(txs, provider, external) == Some(txs[at]) && Names(txs, provider, external, at) && forall k: nat :: Names(txs, provider, external, k) <==> k == at
  {
    if IndexByExternal(txs, provider, external).Some? {
      forall k: nat | Names(txs, provider, external, k)
        ensures IndexByExternal(txs, provider, external) == Some(k)
      {
        ExternalIs(txs, provider, external, k);
      }
    }
    forall k: nat | Names(txs, provider, external, k)
      ensures HasExternal(txs[k], provider, external)
    {
    }
  }

  lemma DecideRules(txs: seq<Tx>, c: Command, w: Wallet) returns (v: Ruling)
    requires UniqueKeys(txs) && Readable(w) && TypedMoney(c.amount) && Suitable(c.kind, c.amount) && c.amount.currency == w.currency
    ensures Rules(txs, c, w, v) && Enacts(Decide(c, w, LookupExternal(txs, c.provider, c.ref)), c.id, c.amount, w.balance, v)
  {
    hide Operate, ValidReference;
    LookupNames(txs, c.provider, c.ref);
    var reference := LookupExternal(txs, c.provider, c.ref);
    if c.player != w.player {
      v := Ruling(Rejected, 0, PlayerWalletMismatch);
    } else if !IsReversal(c.kind) {
      OperateRules(c, w, None);
      v := Carried(c.kind, w.balance, Effect(c.kind, c.amount.minor, c.kind));
    } else if c.ref == "" {
      v := Ruling(Rejected, 0, ReferenceRequired);
    } else if reference.None? {
      v := Ruling(PendingReference, 0, NoCode);
    } else {
      ReferenceRules(c, reference.value);
      OperateRules(c, w, Some(reference.value.kind));
      v := Reversal(c, w.balance, reference.value);
    }
  }

  // ---------------------------------------------------------------------
  // Commands nobody has seen
  // ---------------------------------------------------------------------

  /** What validateCommand asks for. */
  predicate WellFormed(c: Command) {
    && c.id != 0 && c.wallet != 0
    && "" !in [c.external, c.provider, c.player, c.game, c.round, c.key]
    && "legacy" !in [c.player, c.game, c.round]
  }

  /** No row has the command's id, nor its key or external id under its provider. */
  ghost predicate Unseen(txs: seq<Tx>, c: Command) {
    forall k :: 0 <= k < |txs| ==> txs[k].id != c.id && (txs[k].provider == c.provider ==> txs[k].key != c.key && txs[k].external != c.external)
  }

  lemma WellFormedIs(c: Command)
    ensures WellFormed(c) <==> ValidCommand(c)
  {
    var texts, names := [c.external, c.provider, c.player, c.game, c.round, c.key], [c.player, c.game, c.round];
    assert texts[0] == c.external && texts[1] == c.provider && texts[2] == c.player && texts[3] == c.game && texts[4] == c.round && texts[5] == c.key;
    assert names[0] == c.player && names[1] == c.game && names[2] == c.round;
  }

  lemma UnseenIsMissing(txs: seq<Tx>, c: Command)
    ensures Unseen(txs, c) <==> FindExisting(txs, c).Missing?
  {
  }

  lemma SlotIs(txs: seq<Tx>, row: Tx)
    ensures SlotTaken(txs, row) <==> row.state == Processed && Taken(txs, row.provider, row.ref)
  {
    if k :| 0 <= k < |txs| && txs[k].state == Processed && txs[k].provider == row.provider && txs[k].ref == row.ref && row.ref != "" {
      assert HoldsSlot(txs[k], row.provider, row.ref);
    }
  }

  /** What refuses the row of an unseen command: a taken reference, then a foreign currency. */
  lemma InsertIs(wallets: map<Id, Wallet>, txs: seq<Tx>, c: Command, row: Tx)
    requires Unseen(txs, c) && row.id == c.id && row.provider == c.provider && row.external == c.external && row.key == c.key
    requires row.wallet in wallets
    ensures InsertRefusal(wallets, txs, row) ==
            if row.state == Processed && Taken(txs, row.provider, row.ref) then Some(Violation(ReversalIndex))
            else if wallets[row.wallet].currency != row.currency then Some(ForeignKeyViolation)
            else None
  {
    UnseenIsMissing(txs, c);
    SlotIs(txs, row);
  }

  /** In a foreign currency only a LOSS is not rejected. */
  lemma DecideForeign(txs: seq<Tx>, c: Command, w: Wallet)
    requires Readable(w) && TypedMoney(c.amount) && Suitable(c.kind, c.amount) && c.amount.currency != w.currency
    ensures var plan := Decide(c, w, LookupExternal(txs, c.provider, c.ref));
            plan.Persist? && (plan.result.state == Processed <==> c.kind == Loss && c.player == w.player)
  {
  }

  /** The command and the wallet it names, once a call has got so far. */
  ghost predicate Meets(db: Db, c: Command) {
    && Legible(db) && TypedMoney(c.amount) && WellFormed(c) && Unseen(db.txs, c)
    && c.wallet in db.wallets && Suitable(c.kind, c.amount)
  }

  lemma ForeignCall(db: Db, c: Command, now: int)
    requires Meets(db, c) && c.amount.currency != db.wallets[c.wallet].currency
    ensures Call(db, c, now) == Err(if c.kind == Loss && c.player == db.wallets[c.wallet].player && Taken(db.txs, c.provider, c.ref)
                                    then IdempotencyConflict else ForeignKeyViolation)
  {
    hide Decide, InsertRefusal, FindExisting, LookupExternal, CommitNext, SlotTaken;
    WellFormedIs(c);
    UnseenIsMissing(db.txs, c);
    var w := db.wallets[c.wallet];
    DecideForeign(db.txs, c, w);
    var plan := Decide(c, w, LookupExternal(db.txs, c.provider, c.ref));
    InsertIs(db.wallets, db.txs, c, NewRow(c, plan.result, now));
  }

  lemma LocalCall(db: Db, c: Command, now: int) returns (v: Ruling)
    requires Meets(db, c) && c.amount.currency == db.wallets[c.wallet].currency
    ensures Rules(db.txs, c, db.wallets[c.wallet], v)
    ensures Call(db, c, now) ==
            if v.state == Processed && Taken(db.txs, c.provider, c.ref) then Err(IdempotencyConflict)
            else Ok(Answer(Recorded(db, c, v, now), Result(c.id, v.state, db.wallets[c.wallet].balance + v.delta, c.amount, v.code)))
  {
    hide Decide, InsertRefusal, FindExisting, LookupExternal, CommitNext, SlotTaken, Rules;
    WellFormedIs(c);
    UnseenIsMissing(db.txs, c);
    var w := db.wallets[c.wallet];
    v := DecideRules(db.txs, c, w);
    var plan := Decide(c, w, LookupExternal(db.txs, c.provider, c.ref));
    var row := NewRow(c, plan.result, now);
    InsertIs(db.wallets, db.txs, c, row);
    RulingStates(db.txs, c, w, v);
    assert row == Stamped(RowFor(c, v, now), w.balance + v.delta);
    CommitGains(db, None, row, plan.result, plan.move, v.delta);
  }

  lemma RulingStates(txs: seq<Tx>, c: Command, w: Wallet, v: Ruling)
    requires Rules(txs, c, w, v)
    ensures v.state == Processed || v.state == Rejected || v.state == PendingReference
    ensures v.delta != 0 ==> v.state == Processed
  {
    if k: nat :| Names(txs, c.provider, c.ref, k) {
    }
  }

  /**
   The whole answer of a call nobody has made before, in every state whose
   wallets can be read: which error, or which row, balance, entry and events.
   */
  lemma FreshCall(db: Db, c: Command, now: int) returns (v: Ruling)
    requires Legible(db) && TypedMoney(c.amount) && Unseen(db.txs, c)
    ensures WellFormed(c) && c.wallet in db.wallets ==> Rules(db.txs, c, db.wallets[c.wallet], v)
    ensures Call(db, c, now) ==
            if !WellFormed(c) then Err(InvalidCommand)
            else if c.wallet !in db.wallets then Err(WalletNotFound)
            else if !Suitable(c.kind, c.amount) then Err(InvalidTransaction)
            else
              var w := db.wallets[c.wallet];
              var reversed := Taken(db.txs, c.provider, c.ref);
              if c.amount.currency != w.currency then Err(if c.kind == Loss && c.player == w.player && reversed then IdempotencyConflict else ForeignKeyViolation)
              else if v.state == Processed && reversed then Err(IdempotencyConflict)
              else Ok(Answer(Recorded(db, c, v, now), Result(c.id, v.state, w.balance + v.delta, c.amount, v.code)))
  {
    hide Call, Rules, Recorded;
    if WellFormed(c) && c.wallet in db.wallets && Suitable(c.kind, c.amount) && c.amount.currency == db.wallets[c.wallet].currency {
      v := LocalCall(db, c, now);
    } else {
      v := Ruling(Rejected, 0, NoCode);
      if c.wallet in db.wallets {
        v := SomeRuling(db.txs, c, db.wallets[c.wallet]);
      }
      if Meets(db, c) {
        ForeignCall(db, c, now);
      } else {
        UnfitCall(db, c, now);
      }
    }
  }

  lemma UnfitCall(db: Db, c: Command, now: int)
    requires TypedMoney(c.amount) && Unseen(db.txs, c)
    requires !WellFormed(c) || c.wallet !in db.wallets || !Suitable(c.kind, c.amount)
    ensures Call(db, c, now) == Err(if !WellFormed(c) then InvalidCommand else if c.wallet !in db.wallets then WalletNotFound else InvalidTransaction)
  {
    hide FindExisting;
    WellFormedIs(c);
    UnseenIsMissing(db.txs, c);
  }

  lemma SomeRuling(txs: seq<Tx>, c: Command, w: Wallet) returns (v: Ruling)
    requires UniqueKeys(txs)
    ensures Rules(txs, c, w, v)
  {
    LookupNames(txs, c.provider, c.ref);
    var reference := LookupExternal(txs, c.provider, c.ref);
    v := if c.player != w.player then Ruling(Rejected, 0, PlayerWalletMismatch)
         else if c.kind != Refund && c.kind != Rollback then Carried(c.kind, w.balance, Effect(c.kind, c.amount.minor, c.kind))
         else if c.ref == "" then Ruling(Rejected, 0, ReferenceRequired)
         else if reference.Some? then Reversal(c, w.balance, reference.value)
         else Ruling(PendingReference, 0, NoCode);
  }

  /** A reversal is carried out: the row it names may be reversed and the wallet bears it. */
  ghost predicate CanReverse(db: Db, c: Command)
    requires c.wallet in db.wallets
  {
    exists k: nat :: Names(db.txs, c.provider, c.ref, k)
      && MayReverse(c.kind, c.wallet, c.player, c.game, c.round, c.amount, db.txs[k])
      && Affordable(db.wallets[c.wallet].balance, Effect(c.kind, c.amount.minor, db.txs[k].kind))
  }

  /** When a command that meets its own wallet and whose reference is free is processed, and when it waits. */
  lemma ProcessedExactly(db: Db, c: Command, now: int)
    requires Meets(db, c) && c.amount.currency == db.wallets[c.wallet].currency && !Taken(db.txs, c.provider, c.ref)
    ensures Call(db, c, now).Ok?
    ensures var state := Call(db, c, now).value.result.state; var w := db.wallets[c.wallet];
            && (state == Processed <==>
                c.player == w.player &&
                match c.kind
                case Bet => c.amount.minor <= w.balance
                case Win => w.balance + c.amount.minor <= MAX_INT64
                case Loss => true
                case _ => c.ref != "" && CanReverse(db, c))
            && (state == PendingReference <==>
                c.player == w.player && (c.kind == Refund || c.kind == Rollback) && c.ref != "" && forall k: nat :: !Names(db.txs, c.provider, c.ref, k))
            && (state == Processed || state == PendingReference || state == Rejected)
  {
    hide Call, Recorded;
    var v := LocalCall(db, c, now);
    RulingStates(db.txs, c, db.wallets[c.wallet], v);
    LookupNames(db.txs, c.provider, c.ref);
  }

  // ---------------------------------------------------------------------
  // Commands seen before
  // ---------------------------------------------------------------------

  /** Row k is the row of this very request. */
  ghost predicate RowOf(txs: seq<Tx>, c: Command, k: nat) {
    && k < |txs|
    && var t := txs[k];
       && t.provider == c.provider && t.external == c.external && t.key == c.key && t.ref == c.ref && t.kind == c.kind
       && t.wallet == c.wallet && t.player == c.player && t.game == c.game && t.round == c.round && Money(t.amount, t.currency) == c.amount
  }

  /** A stored result, read back. */
  predicate ReadsBack(t: Tx, r: Result) {
    t.result == Some(Snapshot(r.tx, r.state, r.balance, Amount(r.amount), r.amount.currency, r.code))
    && r.tx == t.id && r.state == t.state && r.code == t.code && r.amount == Money(t.amount, t.currency)
  }

  lemma ReplayReads(wallets: map<Id, Wallet>, t: Tx)
    requires RowOk(wallets, t)
    ensures ReplayResult(t).Ok? && ReadsBack(t, ReplayResult(t).value)
  {
    var s := t.result.value;
    ParsePrint(s.amount, s.currency);
  }

  /** In sound tables the row of a request carries its hash. */
  lemma RequestHash(wallets: map<Id, Wallet>, txs: seq<Tx>, c: Command, k: nat)
    requires RowOf(txs, c, k) && RowOk(wallets, txs[k]) && c.kind != Opening && c.hash == Digest(PayloadOf(c))
    ensures Records(txs[k], c)
  {
    assert PayloadOf(CommandOf(txs[k])) == PayloadOf(c);
  }

  lemma ForeignRows(txs: seq<Tx>, c: Command)
    requires !Unseen(txs, c) && forall k: nat :: !RowOf(txs, c, k)
    ensures FindExisting(txs, c) == Clash(IdempotencyConflict)
  {
    UnseenIsMissing(txs, c);
    forall k: nat | k < |txs|
      ensures Judged(txs[k], k, c) == Clash(IdempotencyConflict)
    {
      assert !RowOf(txs, c, k);
    }
  }

  lemma SoundRows(db: Db, k: nat)
    requires Inv(db)
    ensures UniqueKeys(db.txs) && (k < |db.txs| ==> RowOk(db.wallets, db.txs[k]))
  {
  }

  lemma OneRowOf(txs: seq<Tx>, c: Command, j: nat, k: nat)
    requires UniqueKeys(txs) && RowOf(txs, c, j) && RowOf(txs, c, k)
    ensures j == k
  {
    assert HasKey(txs[j], txs[k].provider, txs[k].key) && HasKey(txs[k], txs[j].provider, txs[j].key);
  }

  /**
   A call whose id, key or external id is already in sound tables is answered
   from the row of the same request, unless another row has its id, and
   conflicts if there is no such row. No table changes.
   */
  lemma SeenCall(db: Db, c: Command, now: int) returns (r: Result)
    requires Inv(db) && TypedMoney(c.amount) && WellFormed(c) && c.kind != Opening && c.hash == Digest(PayloadOf(c)) && !Unseen(db.txs, c)
    ensures forall k: nat :: RowOf(db.txs, c, k) ==> ReadsBack(db.txs[k], r)
    ensures Call(db, c, now) ==
            if exists k: nat :: RowOf(db.txs, c, k) && !IdTaken(db.txs, c.id, k) then Ok(Answer(db, r)) else Err(IdempotencyConflict)
  {
    hide FindExisting, Inv, RowOf, IdTaken, Unseen, RowOk, ReadsBack, Records, Digest;
    WellFormedIs(c);
    if k: nat :| RowOf(db.txs, c, k) {
      SoundRows(db, k);
      RowOfInside(db.txs, c, k);
      RequestHash(db.wallets, db.txs, c, k);
      RecordIsFound(db.txs, c, k);
      ReplayReads(db.wallets, db.txs[k]);
      r := ReplayResult(db.txs[k]).value;
      forall j: nat | RowOf(db.txs, c, j)
        ensures j == k
      {
        OneRowOf(db.txs, c, j, k);
      }
    } else {
      ForeignRows(db.txs, c);
      r := Result(0, Rejected, 0, c.amount, NoCode);
    }
  }

  lemma RowOfInside(txs: seq<Tx>, c: Command, k: nat)
    requires RowOf(txs, c, k)
    ensures k < |txs|
  {
  }

  // ---------------------------------------------------------------------
  // Messages
  // ---------------------------------------------------------------------

  /**
   A message is a call together with its inbox row: the same answer or error,
   the same tables, and the flag says that the inbox already had it.
   */
  lemma MessageIsCall(db: Db, m: InboxKey, hash: string, c: Command, now: int)
    requires InboxInv(db.inbox, db.txs) && TypedMoney(c.amount)
    ensures Message(db, m, hash, c, now) ==
            if !WellFormed(c) then Err(InvalidCommand)
            else if hash != c.hash || (m in db.inbox && db.inbox[m].hash != hash) then Err(InboxPayloadMismatch)
            else
              match Call(db, c, now)
              case Err(e) => Err(e)
              case Ok(answer) => Ok((Answer(answer.db.(inbox := db.inbox[m := InboxRow(hash, true)]), answer.result), m in db.inbox))
  {
    hide CallTx;
    WellFormedIs(c);
    if CallTx(db, c, now).Ok? {
      CallLeavesInbox(db, c, now);
    } else if IdentityViolation(CallTx(db, c, now).error) {
      CallRefusals(db, c, now);
    }
  }

  lemma CallLeavesInbox(db: Db, c: Command, now: int)
    requires TypedMoney(c.amount) && CallTx(db, c, now).Ok?
    ensures CallTx(db, c, now).value.db.inbox == db.inbox
  {
    hide Decide, FindExisting, ReplayResult, InsertRefusal;
  }
}
