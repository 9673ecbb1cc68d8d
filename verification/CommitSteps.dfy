/** A commit keeps the database invariant and touches only what its session has locked. */
module CommitSteps {
  import opened Prelude
  import opened Monetary
  import opened Tables
  import opened Domain
  import opened Engine
  import opened TxFacts
  import opened Invariants
  import opened Commits
  import opened CommitEvents
  import opened Openings
  import opened Statements
  import opened SessionInv

  // ---------------------------------------------------------------------
  // From held locks to the conditions of a commit
  // ---------------------------------------------------------------------

  /** The index entries a session made are not taken by any committed row. */
  lemma FreshFits(db: Db, x: Session, row: Tx)
    requires HeldOk(db, x) && Own(x).None? && Keys(x, row, 4)
    ensures Fits(db.txs, None, row)
  {
    assert Guarded(db, TxPk(row.id), Own(x));
    assert Guarded(db, TxExternal(row.provider, row.external), Own(x));
    assert Guarded(db, TxKey(row.provider, row.key), Own(x));
    if row.state.Processed? && row.ref != "" {
      assert Guarded(db, TxSlot(row.provider, row.ref), Own(x));
    }
  }

  lemma RewriteFits(db: Db, x: Session, at: nat, ch: Change)
    requires x.job.Worker? && HeldOk(db, x) && WorkerWrite(db, x, at, ch) && Keys(x, ch.row, 4)
    ensures Fits(db.txs, Some(at), ch.row)
  {
    var row := ch.row;
    if row.state.Processed? && row.ref != "" {
      assert Guarded(db, TxSlot(row.provider, row.ref), Own(x));
    }
  }

  lemma DrawnAll(db: Db, ch: Change, orderings: seq<nat>)
    requires Drawn(db.outbox, db.nextOrdering, ch, orderings) && |orderings| == EventCount(ch)
    ensures OrderingsOk(db.outbox, db.nextOrdering, ch, orderings)
  {
  }

  /** A waiting row is a reversal, and so is what it becomes. */
  lemma WorkerChangeOk(db: Db, x: Session, at: nat, ch: Change)
    requires x.job.Worker? && HeldOk(db, x) && WorkerWrite(db, x, at, ch) && Keys(x, ch.row, 4) && RowOk(db.wallets, db.txs[at])
    ensures ChangeOk(db, Some(at), ch) && !ch.row.kind.Opening?
  {
    RewriteFits(db, x, at, ch);
    assert Fixed(ch.row) == Fixed(db.txs[at]);
  }

  lemma CallChangeOk(db: Db, x: Session, ch: Change)
    requires x.job.Call? && HeldOk(db, x) && Own(x).None? && CallWrite(db, x, ch) && Keys(x, ch.row, 4)
    requires ch.row.currency == ch.wallet.currency
    ensures ChangeOk(db, None, ch) && !ch.row.kind.Opening?
  {
    FreshFits(db, x, ch.row);
  }

  // ---------------------------------------------------------------------
  // What a commit changes
  // ---------------------------------------------------------------------

  lemma PutEffects(txs: seq<Tx>, slot: Option<nat>, row: Tx, x: Session)
    requires UniqueKeys(txs) && Fits(txs, slot, row) && Keys(x, row, 4)
    requires slot.None? && ExternalKind(row.kind) ==> IdentityLock(row.provider, row.external) in x.held
    requires slot.Some? ==> PendingRow(slot.value) in x.held
    ensures TxEffects(txs, Put(txs, slot, row), x.held)
  {
    PutKeeps(txs, slot, row);
    PutOthers(txs, slot, row);
  }

  lemma MoveEffects(wallets: map<Id, Wallet>, id: Id, w: Wallet, held: set<Resource>)
    requires id in wallets && w.player == wallets[id].player && w.currency == wallets[id].currency && WalletRow(id) in held
    requires forall v :: WalletPk(v) in held ==> v !in wallets
    requires forall v :: WalletRow(v) in held ==> v in wallets
    ensures WalletEffects(wallets, wallets[id := w], held)
    ensures WalletEffects(wallets, wallets, held)
  {
  }

  lemma WalletLocks(db: Db, x: Session)
    requires HeldOk(db, x)
    ensures forall v :: WalletPk(v) in x.held ==> v !in db.wallets
    ensures forall v :: WalletRow(v) in x.held ==> v in db.wallets
  {
    forall v | WalletPk(v) in x.held
      ensures v !in db.wallets
    {
      assert Guarded(db, WalletPk(v), Own(x));
    }
    forall v | WalletRow(v) in x.held
      ensures v in db.wallets
    {
      assert Guarded(db, WalletRow(v), Own(x));
    }
  }

  lemma EventEffects(outbox: seq<Event>, ch: Change, orderings: seq<nat>, held: set<Resource>)
    requires |orderings| == EventCount(ch)
    requires ch.Settle? ==> TxPk(ch.row.id) in held && (WalletRow(ch.row.wallet) in held || WalletPk(ch.row.wallet) in held)
    ensures OutboxEffects(outbox, outbox + Events(ch, orderings), held)
  {
  }

  lemma SettleEffects(db: Db, x: Session, slot: Option<nat>, ch: Change, orderings: seq<nat>)
    requires HeldOk(db, x) && ch.Settle? && |orderings| == EventCount(ch) && Keys(x, ch.row, 4)
    requires ch.row.wallet in db.wallets && db.wallets[ch.row.wallet] == ch.wallet && WalletRow(ch.row.wallet) in x.held
    requires (slot.Some? ==> slot.value < |db.txs|) && TxEffects(db.txs, Put(db.txs, slot, ch.row), x.held)
    ensures Effects(db, Commit(db, slot, ch, orderings), x.held)
  {
    WalletLocks(db, x);
    EventEffects(db.outbox, ch, orderings, x.held);
    MoveEffects(db.wallets, ch.row.wallet, ch.wallet.(balance := ch.result.balance, version := ch.wallet.version + 1), x.held);
  }

  lemma PostponeEffects(db: Db, x: Session, slot: Option<nat>, ch: Change)
    requires HeldOk(db, x) && ch.Postpone? && slot.Some? && slot.value < |db.txs|
    requires TxEffects(db.txs, Put(db.txs, slot, ch.row), x.held)
    ensures Effects(db, Commit(db, slot, ch, []), x.held)
  {
    WalletLocks(db, x);
    PostponeShape(db, slot, ch);
  }

  // ---------------------------------------------------------------------
  // The inbox row
  // ---------------------------------------------------------------------

  /** The commit of a message session also commits its completed inbox row. */
  function Completed(db: Db, x: Session): Db {
    if x.job.Call? && x.job.message.Some?
    then db.(inbox := db.inbox[x.job.message.value := InboxRow(x.job.cmd.hash, true)])
    else db
  }

  lemma InboxGains(inbox: map<InboxKey, InboxRow>, txs: seq<Tx>, m: InboxKey, hash: string)
    requires InboxInv(inbox, txs) && HasHash(txs, hash)
    ensures InboxInv(inbox[m := InboxRow(hash, true)], txs)
  {
  }

  /** Nothing but the inbox part of the invariant looks at the inbox. */
  lemma OnlyInbox(db: Db, inbox: map<InboxKey, InboxRow>)
    requires Inv(db) && InboxInv(inbox, db.txs)
    ensures Inv(db.(inbox := inbox))
  {
    var db' := db.(inbox := inbox);
    assert CoreInv(db') by {
      assert CoreInv(db);
    }
  }

  lemma CompletedKeeps(db: Db, x: Session)
    requires Inv(db) && (x.job.Call? && x.job.message.Some? ==> HasHash(db.txs, x.job.cmd.hash))
    ensures Inv(Completed(db, x))
  {
    if x.job.Call? && x.job.message.Some? {
      InboxGains(db.inbox, db.txs, x.job.message.value, x.job.cmd.hash);
      OnlyInbox(db, db.inbox[x.job.message.value := InboxRow(x.job.cmd.hash, true)]);
    }
  }

  lemma RepliedHash(db: Db, c: Command, r: Result)
    requires Replied(db, c, r)
    ensures HasHash(db.txs, c.hash)
  {
    var k: nat :| Answers(db, c, r, k);
    assert !db.txs[k].kind.Opening? && db.txs[k].hash == c.hash;
  }

  lemma CompletedEffects(db: Db, after: Db, x: Session)
    requires Effects(db, after, x.held) && after.inbox == db.inbox && HeldOk(db, x) && (x.job.Call? ==> InboxPart(db, x))
    ensures Effects(db, Completed(after, x), x.held)
  {
    if x.job.Call? && x.job.message.Some? && x.inserted {
      assert Guarded(db, InboxInsert(x.job.message.value), Own(x));
    }
    assert InboxEffects(db.inbox, Completed(after, x).inbox, x.held);
  }

  /** A call that wrote its row has its answer. */
  lemma WriteReplies(db: Db, x: Session, ch: Change, orderings: seq<nat>)
    requires x.job.Call? && CallWrite(db, x, ch) && ch.row.currency == ch.wallet.currency && |orderings| == EventCount(ch)
    ensures Replied(Commit(db, None, ch, orderings), x.job.cmd, ch.result)
  {
    var after := Commit(db, None, ch, orderings);
    SoundReplays(db.txs, ch);
    var e := Events(ch, orderings)[0];
    assert e == after.outbox[|db.outbox|];
    assert ch.row.state.PendingReference? ==> CarriesWait(e, ch.row.id, ch.result);
    assert Answers(after, x.job.cmd, ch.result, |db.txs|);
  }

  // ---------------------------------------------------------------------
  // The three kinds of commit
  // ---------------------------------------------------------------------

  lemma CallWriteCommit(db: Db, x: Session, ch: Change, orderings: seq<nat>)
    requires Inv(db) && x.job.Call? && HeldOk(db, x) && x.pc == AtCommit(Write(None, ch), orderings) && CallOk(db, x)
    ensures var after := Commit(db, None, ch, orderings);
            Inv(after) && Effects(db, after, x.held) && Replied(after, x.job.cmd, ch.result)
  {
    CallChangeOk(db, x, ch);
    DrawnAll(db, ch, orderings);
    CommitKeeps(db, None, ch, orderings);
    FreshFits(db, x, ch.row);
    PutEffects(db.txs, None, ch.row, x);
    SettleEffects(db, x, None, ch, orderings);
    WriteReplies(db, x, ch, orderings);
  }

  lemma WorkerCommit(db: Db, x: Session, at: nat, ch: Change, orderings: seq<nat>)
    requires Inv(db) && x.job.Worker? && HeldOk(db, x) && x.pc == AtCommit(Write(Some(at), ch), orderings) && WorkerOk(db, x)
    ensures Inv(Commit(db, Some(at), ch, orderings)) && Effects(db, Commit(db, Some(at), ch, orderings), x.held)
  {
    assert RowOk(db.wallets, db.txs[at]);
    WorkerChangeOk(db, x, at, ch);
    DrawnAll(db, ch, orderings);
    CommitKeeps(db, Some(at), ch, orderings);
    RewriteFits(db, x, at, ch);
    PutEffects(db.txs, Some(at), ch.row, x);
    if ch.Settle? {
      SettleEffects(db, x, Some(at), ch, orderings);
    } else {
      assert orderings == [];
      PostponeEffects(db, x, Some(at), ch);
    }
  }

  lemma NewWalletEffects(wallets: map<Id, Wallet>, id: Id, w: Wallet, held: set<Resource>)
    requires id !in wallets && WalletPk(id) in held && WalletOwner(w.player, w.currency) in held
    requires forall v :: WalletPk(v) in held ==> v !in wallets
    requires forall v :: WalletRow(v) in held ==> v in wallets
    ensures WalletEffects(wallets, wallets[id := w], held)
  {
  }

  lemma SameRows(txs: seq<Tx>, held: set<Resource>)
    requires UniqueKeys(txs)
    ensures TxEffects(txs, txs, held)
  {
  }

  lemma OpenLocks(db: Db, x: Session)
    requires x.job.Open? && HeldOk(db, x) && WalletPk(x.job.id) in x.held && WalletOwner(x.job.player, x.job.opening.currency) in x.held
    ensures x.job.id !in db.wallets && OwnerFree(db.wallets, x.job.player, x.job.opening.currency)
  {
    assert Guarded(db, WalletPk(x.job.id), Own(x));
    assert Guarded(db, WalletOwner(x.job.player, x.job.opening.currency), Own(x));
  }

  lemma BareCommit(db: Db, x: Session)
    requires Inv(db) && x.job.Open? && HeldOk(db, x) && ValidOpening(x.job.player, x.job.opening)
    requires x.pc == AtCommit(Bare, []) && OpenOk(db, x)
    ensures var after := CommitOpening(db, x.job.id, x.job.txId, x.job.player, x.job.opening, []);
            Inv(after) && Effects(db, after, x.held)
  {
    OpenLocks(db, x);
    WalletLocks(db, x);
    EmptyOpeningKeeps(db, x.job.id, x.job.player, x.job.opening);
    SameRows(db.txs, x.held);
    NewWalletEffects(db.wallets, x.job.id, Wallet(x.job.player, x.job.opening.currency, 0, 1), x.held);
  }

  lemma FundedConditions(db: Db, x: Session, ch: Change)
    requires x.job.Open? && HeldOk(db, x) && Own(x).None? && ValidOpening(x.job.player, x.job.opening) && OpenWrite(x, ch) && Keys(x, ch.row, 4)
    ensures OpeningOk(db, x.job.id, x.job.txId, x.job.player, x.job.opening) && Fits(db.txs, None, ch.row)
  {
    OpenLocks(db, x);
    FreshFits(db, x, ch.row);
  }

  lemma FundedCommit(db: Db, x: Session, ch: Change, orderings: seq<nat>)
    requires Inv(db) && x.job.Open? && HeldOk(db, x) && ValidOpening(x.job.player, x.job.opening)
    requires x.pc == AtCommit(Write(None, ch), orderings) && OpenOk(db, x)
    ensures var after := CommitOpening(db, x.job.id, x.job.txId, x.job.player, x.job.opening, orderings);
            Inv(after) && Effects(db, after, x.held)
  {
    FundedConditions(db, x, ch);
    DrawnAll(db, ch, orderings);
    OpeningKeeps(db, x.job.id, x.job.txId, x.job.player, x.job.opening, orderings);
    OpeningShape(db, x.job.id, x.job.txId, x.job.player, x.job.opening, orderings);
    PutEffects(db.txs, None, ch.row, x);
    WalletLocks(db, x);
    NewWalletEffects(db.wallets, x.job.id, Wallet(x.job.player, x.job.opening.currency, x.job.opening.minor, 1), x.held);
    EventEffects(db.outbox, ch, orderings, x.held);
  }

  lemma ReplyCommit(db: Db, x: Session)
    requires Inv(db) && HeldOk(db, x)
    ensures Effects(db, db, x.held)
  {
    SameRows(db.txs, x.held);
    WalletLocks(db, x);
  }
}
