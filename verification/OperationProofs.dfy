/** Whole operations keep the invariant, and repeating one changes nothing. */
module OperationProofs {
  import opened Prelude
  import opened Monetary
  import opened Tables
  import opened Domain
  import opened Engine
  import opened TxFacts
  import opened Invariants
  import opened Commits
  import opened CommitEvents
  import opened Openings
  import opened Decisions
  import opened Operations
  import Backoff

  // ---------------------------------------------------------------------
  // Writing
  // ---------------------------------------------------------------------

  /** Numbers drawn now are behind everything already visible. */
  lemma NextOrderingsOk(db: Db, ch: Change)
    requires OrderingInv(db.outbox, db.nextOrdering)
    ensures OrderingsOk(db.outbox, db.nextOrdering + EventCount(ch), ch, NextOrderings(db, ch))
  {
    forall e | e in db.outbox
      ensures e.ordering < db.nextOrdering
    {
      var i :| 0 <= i < |db.outbox| && db.outbox[i] == e;
    }
  }

  lemma LaterOrdering(db: Db, next: nat)
    requires Inv(db) && db.nextOrdering <= next
    ensures Inv(db.(nextOrdering := next))
  {
    var db' := db.(nextOrdering := next);
    assert CoreInv(db') by {
      assert CoreInv(db);
    }
  }

  lemma CommitNextKeeps(db: Db, slot: Option<nat>, ch: Change)
    requires Inv(db) && ChangeOk(db, slot, ch) && !ch.row.kind.Opening? && (slot.Some? ==> slot.value < |db.txs|)
    ensures Inv(CommitNext(db, slot, ch)) && Extends(db.txs, CommitNext(db, slot, ch).txs)
  {
    hide CoreInv, TxEventsOk, WalletEventsOk, InboxInv, OwnersInv, Sound, Fits, Extends;
    var later := db.(nextOrdering := db.nextOrdering + EventCount(ch));
    LaterOrdering(db, later.nextOrdering);
    NextOrderingsOk(db, ch);
    CommitKeeps(later, slot, ch, NextOrderings(db, ch));
    assert CommitNext(db, slot, ch) == Commit(later, slot, ch, NextOrderings(db, ch));
  }

  /** A row no constraint refuses fits the table. */
  lemma NotRefused(wallets: map<Id, Wallet>, txs: seq<Tx>, row: Tx)
    requires InsertRefusal(wallets, txs, row).None?
    ensures Fits(txs, None, row) && row.wallet in wallets && wallets[row.wallet].currency == row.currency
  {
  }

  // ---------------------------------------------------------------------
  // The operations keep the invariant
  // ---------------------------------------------------------------------

  lemma WalletReads(db: Db, id: Id)
    requires Inv(db) && id in db.wallets
    ensures Readable(db.wallets[id]) && db.wallets[id].player != ""
  {
    assert WalletOk(db.txs, db.ledger, id, db.wallets[id]);
  }

  lemma CallTxKeeps(db: Db, c: Command, now: int)
    requires Inv(db) && Prepared(c) && CallTx(db, c, now).Ok?
    ensures Inv(CallTx(db, c, now).value.db) && Extends(db.txs, CallTx(db, c, now).value.db.txs)
  {
    hide Inv, Sound;
    var answer := CallTx(db, c, now).value;
    if FindExisting(db.txs, c).Missing? {
      var w := db.wallets[c.wallet];
      var plan := Decide(c, w, LookupExternal(db.txs, c.provider, c.ref));
      var ch := Settle(NewRow(c, plan.result, now), plan.result, w, plan.move);
      NotRefused(db.wallets, db.txs, ch.row);
      WalletReads(db, c.wallet);
      DecideSound(db.txs, c, w, now);
      CommitNextKeeps(db, None, ch);
    }
  }

  /** Once the lookup found nothing, only a taken reversal slot or a foreign currency can refuse the row. */
  lemma FreshRowRefusals(wallets: map<Id, Wallet>, txs: seq<Tx>, c: Command, row: Tx)
    requires FindExisting(txs, c).Missing? && row.id == c.id && row.provider == c.provider && row.external == c.external && row.key == c.key
    ensures var e := InsertRefusal(wallets, txs, row); e.None? || e == Some(Violation(ReversalIndex)) || e == Some(ForeignKeyViolation)
  {
  }

  lemma LookupErrors(txs: seq<Tx>, c: Command)
    ensures FindExisting(txs, c).Clash? ==> !IdentityViolation(FindExisting(txs, c).error)
  {
  }

  lemma ReplayErrors(t: Tx)
    ensures ReplayResult(t).Err? ==> !IdentityViolation(ReplayResult(t).error)
  {
  }

  lemma CallRefusals(db: Db, c: Command, now: int)
    requires TypedMoney(c.amount) && CallTx(db, c, now).Err? && IdentityViolation(CallTx(db, c, now).error)
    ensures CallTx(db, c, now).error == Violation(ReversalIndex)
  {
    LookupErrors(db.txs, c);
    match FindExisting(db.txs, c)
    case Clash(_) =>
    case Hit(at) => ReplayErrors(db.txs[at]);
    case Missing =>
      if c.wallet in db.wallets {
        var w, reference := db.wallets[c.wallet], LookupExternal(db.txs, c.provider, c.ref);
        var plan := Decide(c, w, reference);
        if plan.Refuse? {
          DecideErrors(c, w, reference);
        } else {
          FreshRowRefusals(db.wallets, db.txs, c, NewRow(c, plan.result, now));
        }
      }
  }

  lemma CallKeeps(db: Db, c: Command, now: int)
    requires Inv(db) && TypedMoney(c.amount) && (ValidCommand(c) ==> c.hash == Digest(PayloadOf(c))) && Call(db, c, now).Ok?
    ensures Inv(Call(db, c, now).value.db) && Extends(db.txs, Call(db, c, now).value.db.txs)
  {
    if CallTx(db, c, now).Ok? {
      CallTxKeeps(db, c, now);
    } else {
      CallRefusals(db, c, now);
    }
  }

  lemma CompleteKeeps(db: Db, m: InboxKey, hash: string)
    requires Inv(db) && HasHash(db.txs, hash)
    ensures Inv(Complete(db, m, hash))
  {
    var db' := Complete(db, m, hash);
    assert InboxInv(db'.inbox, db'.txs);
    assert CoreInv(db') by {
      assert CoreInv(db);
    }
  }

  /** The row an answered call leaves behind. */
  lemma CallTxRow(db: Db, c: Command, now: int) returns (k: nat)
    requires Inv(db) && Prepared(c) && ExternalKind(c.kind) && CallTx(db, c, now).Ok?
    ensures var answer := CallTx(db, c, now).value;
            && k < |answer.db.txs| && answer.db.txs[k].key == c.key && SameBusiness(answer.db.txs[k], c) && answer.db.txs[k].hash == c.hash
            && ReplayResult(answer.db.txs[k]) == Ok(answer.result)
  {
    match FindExisting(db.txs, c)
    case Hit(at) => k := at;
    case Missing =>
      var w := db.wallets[c.wallet];
      var plan := Decide(c, w, LookupExternal(db.txs, c.provider, c.ref));
      var ch := Settle(NewRow(c, plan.result, now), plan.result, w, plan.move);
      NotRefused(db.wallets, db.txs, ch.row);
      WalletReads(db, c.wallet);
      DecideSound(db.txs, c, w, now);
      SoundReplays(db.txs, ch);
      k := |db.txs|;
  }

  lemma MessageKeeps(db: Db, m: InboxKey, hash: string, c: Command, now: int)
    requires Inv(db) && TypedMoney(c.amount) && ExternalKind(c.kind) && (ValidCommand(c) ==> c.hash == Digest(PayloadOf(c)))
    requires Message(db, m, hash, c, now).Ok?
    ensures var db' := Message(db, m, hash, c, now).value.0.db;
            Inv(db') && Extends(db.txs, db'.txs) && m in db'.inbox && db'.inbox[m] == InboxRow(c.hash, true)
  {
    CallTxKeeps(db, c, now);
    var k := CallTxRow(db, c, now);
    var after := CallTx(db, c, now).value.db;
    assert !after.txs[k].kind.Opening?;
    CompleteKeeps(after, m, hash);
  }

  function Concluded(db: Db, at: nat, resolution: Resolution, result: Result, move: Option<Direction>): Change
    requires at < |db.txs| && db.txs[at].wallet in db.wallets
  {
    Settle(SettledRow(CountedRow(db.txs[at], resolution), result), result, db.wallets[db.txs[at].wallet], move)
  }

  lemma ConcludeTxIs(db: Db, at: nat, resolution: Resolution, result: Result, move: Option<Direction>)
    requires at < |db.txs| && db.txs[at].wallet in db.wallets
    requires Conclude(db.txs[at], db.wallets[db.txs[at].wallet], resolution) == Persist(result, move)
    ensures var ch := Concluded(db, at, resolution, result, move);
            && ConcludeTx(db, at, resolution) == (if SlotTaken(db.txs, ch.row) then Err(Violation(ReversalIndex)) else Ok(Advance(CommitNext(db, Some(at), ch), false)))
            && CommitNext(db, Some(at), ch).txs == db.txs[at := ch.row]
  {
  }

  lemma ConcludedSound(db: Db, at: nat, resolution: Resolution) returns (ch: Change)
    requires at < |db.txs| && db.txs[at].state.PendingReference? && Promised(db.txs, db.txs[at], resolution)
    requires RowOk(db.wallets, db.txs[at]) && Readable(db.wallets[db.txs[at].wallet])
    ensures ch.Settle? && Conclude(db.txs[at], db.wallets[db.txs[at].wallet], resolution) == Persist(ch.result, ch.move)
    ensures ch == Concluded(db, at, resolution, ch.result, ch.move)
    ensures Sound(db.txs, ch) && Terminal(ch.row.state) && Identity(ch.row, db.txs[at])
  {
    var t, w := db.txs[at], db.wallets[db.txs[at].wallet];
    ConcludeSound(db.wallets, db.txs, t, resolution, w);
    var plan := Conclude(t, w, resolution);
    ch := Concluded(db, at, resolution, plan.result, plan.move);
    assert Fixed(ch.row) == Fixed(t);
  }

  lemma ConcludedFits(db: Db, at: nat, ch: Change)
    requires at < |db.txs| && db.txs[at].state.PendingReference? && IsReversal(db.txs[at].kind) && ch.Settle? && Sound(db.txs, ch)
    requires Terminal(ch.row.state) && Identity(ch.row, db.txs[at])
    requires ch.row.wallet in db.wallets && db.wallets[ch.row.wallet] == ch.wallet
    ensures !ch.row.kind.Opening? && (SlotTaken(db.txs, ch.row) || ChangeOk(db, Some(at), ch))
  {
    assert Fixed(ch.row).kind == Fixed(db.txs[at]).kind;
  }

  /** The change the worker concludes meets the conditions of a commit, unless the slot is taken. */
  lemma ConcludedOk(db: Db, at: nat, resolution: Resolution) returns (ch: Change)
    requires Inv(db) && at < |db.txs| && db.txs[at].state.PendingReference? && Promised(db.txs, db.txs[at], resolution)
    ensures ch.Settle? && Terminal(ch.row.state) && !ch.row.kind.Opening? && db.txs[at].wallet in db.wallets
    ensures Conclude(db.txs[at], db.wallets[db.txs[at].wallet], resolution) == Persist(ch.result, ch.move)
    ensures ch == Concluded(db, at, resolution, ch.result, ch.move)
    ensures SlotTaken(db.txs, ch.row) || ChangeOk(db, Some(at), ch)
  {
    assert RowOk(db.wallets, db.txs[at]);
    WalletReads(db, db.txs[at].wallet);
    ch := ConcludedSound(db, at, resolution);
    ConcludedFits(db, at, ch);
  }

  /** What a committed worker step makes of its row: terminal, or one attempt more and still below the maximum. */
  predicate Stepped(t: Tx, t': Tx, retry: bool, max: nat) {
    if retry then t' == t.(attempts := t.attempts + 1, nextAttempt := t'.nextAttempt) && t'.attempts < max else Terminal(t'.state)
  }

  ghost predicate GoodStep(db: Db, at: nat, step: Advance, max: nat)
    requires at < |db.txs|
  {
    match step
    case Advance(db', retry) =>
      Inv(db') && Extends(db.txs, db'.txs) && |db'.txs| == |db.txs| && Stepped(db.txs[at], db'.txs[at], retry, max)
  }

  lemma ConcludeTxKeeps(db: Db, at: nat, resolution: Resolution, max: nat)
    requires Inv(db) && at < |db.txs| && db.txs[at].state.PendingReference? && Promised(db.txs, db.txs[at], resolution)
    requires ConcludeTx(db, at, resolution).Ok?
    ensures GoodStep(db, at, ConcludeTx(db, at, resolution).value, max)
  {
    var ch := ConcludedOk(db, at, resolution);
    ConcludeTxIs(db, at, resolution, ch.result, ch.move);
    CommitNextKeeps(db, Some(at), ch);
  }

  lemma PostponeTxKeeps(db: Db, at: nat, next: int, max: nat)
    requires Inv(db) && at < |db.txs| && db.txs[at].state.PendingReference? && db.txs[at].attempts + 1 < max
    ensures GoodStep(db, at, Advance(Commit(db, Some(at), Postpone(PostponedRow(db.txs[at], next)), []), true), max)
  {
    assert RowOk(db.wallets, db.txs[at]);
    CommitKeeps(db, Some(at), Postpone(PostponedRow(db.txs[at], next)), []);
  }

  predicate Waits(db: Db, at: nat, max: nat)
    requires at < |db.txs|
  {
    var t := db.txs[at];
    Resolve(t, LookupExternal(db.txs, t.provider, t.ref)).Wait? && t.attempts + 1 < max
  }

  lemma WaitingStep(db: Db, at: nat, now: int, max: nat, backoff: int)
    requires at < |db.txs| && FromMinor(db.txs[at].amount, db.txs[at].currency).Some? && Waits(db, at, max)
    ensures exists next :: WorkerTx(db, at, now, max, backoff) == Ok(Advance(Commit(db, Some(at), Postpone(PostponedRow(db.txs[at], next)), []), true))
  {
    var next := now + Backoff.WorkerDelay(backoff, db.txs[at].attempts + 1);
    assert WorkerTx(db, at, now, max, backoff) == Ok(Advance(Commit(db, Some(at), Postpone(PostponedRow(db.txs[at], next)), []), true));
  }

  lemma ConcludingStep(db: Db, at: nat, now: int, max: nat, backoff: int)
    requires at < |db.txs| && FromMinor(db.txs[at].amount, db.txs[at].currency).Some? && !Waits(db, at, max)
    ensures WorkerTx(db, at, now, max, backoff) == ConcludeTx(db, at, Resolve(db.txs[at], LookupExternal(db.txs, db.txs[at].provider, db.txs[at].ref)))
  {
  }

  lemma WaitingKeeps(db: Db, at: nat, now: int, max: nat, backoff: int)
    requires Inv(db) && at < |db.txs| && db.txs[at].state.PendingReference? && Waits(db, at, max)
    requires WorkerTx(db, at, now, max, backoff).Ok?
    ensures GoodStep(db, at, WorkerTx(db, at, now, max, backoff).value, max)
  {
    PendingRowFacts(db, at);
    WaitingStep(db, at, now, max, backoff);
    var next :| WorkerTx(db, at, now, max, backoff) == Ok(Advance(Commit(db, Some(at), Postpone(PostponedRow(db.txs[at], next)), []), true));
    PostponeTxKeeps(db, at, next, max);
  }

  lemma ConcludingKeeps(db: Db, at: nat, now: int, max: nat, backoff: int)
    requires Inv(db) && at < |db.txs| && db.txs[at].state.PendingReference? && !Waits(db, at, max)
    requires WorkerTx(db, at, now, max, backoff).Ok?
    ensures GoodStep(db, at, WorkerTx(db, at, now, max, backoff).value, max)
  {
    PendingRowFacts(db, at);
    ConcludingStep(db, at, now, max, backoff);
    ResolvePromises(db.txs, db.txs[at]);
    ConcludeTxKeeps(db, at, Resolve(db.txs[at], LookupExternal(db.txs, db.txs[at].provider, db.txs[at].ref)), max);
  }

  /** Every committed worker step keeps the invariant and takes its row one step further. */
  lemma WorkerKeeps(db: Db, at: nat, now: int, max: nat, backoff: int)
    requires Inv(db) && at < |db.txs| && db.txs[at].state.PendingReference? && WorkerTx(db, at, now, max, backoff).Ok?
    ensures GoodStep(db, at, WorkerTx(db, at, now, max, backoff).value, max)
  {
    if Waits(db, at, max) {
      WaitingKeeps(db, at, now, max, backoff);
    } else {
      ConcludingKeeps(db, at, now, max, backoff);
    }
  }

  /** The worker found a processed, valid reference, and the operation on the wallet would be processed. */
  predicate WouldSucceed(db: Db, t: Tx) {
    && t.wallet in db.wallets && IsInt64(t.amount)
    && match Resolve(t, LookupExternal(db.txs, t.provider, t.ref))
       case Carry(kind) =>
         var plan := Operate(CommandOf(t), db.wallets[t.wallet], Some(kind));
         plan.Persist? && plan.result.state.Processed?
       case _ => false
  }

  lemma ConcludeFailsExactly(db: Db, at: nat)
    requires Inv(db) && at < |db.txs| && db.txs[at].state.PendingReference?
    ensures var t := db.txs[at]; var r := ConcludeTx(db, at, Resolve(t, LookupExternal(db.txs, t.provider, t.ref)));
            && (r.Err? <==> WouldSucceed(db, t) && IndexBySlot(db.txs, t.provider, t.ref).Some?)
            && (r.Err? ==> r.error == Violation(ReversalIndex))
  {
    hide Inv, ChangeOk;
    var t := db.txs[at];
    var resolution := Resolve(t, LookupExternal(db.txs, t.provider, t.ref));
    ResolvePromises(db.txs, t);
    var ch := ConcludedOk(db, at, resolution);
    ConcludeTxIs(db, at, resolution, ch.result, ch.move);
    PendingRowFacts(db, at);
    assert ch.row.state.Processed? <==> WouldSucceed(db, t);
  }

  lemma PendingRowFacts(db: Db, at: nat)
    requires Inv(db) && at < |db.txs| && db.txs[at].state.PendingReference?
    ensures var t := db.txs[at];
            t.ref != "" && FromMinor(t.amount, t.currency).Some? && ExternalKind(t.kind) && ValidAmount(t.kind, Money(t.amount, t.currency))
  {
    assert RowOk(db.wallets, db.txs[at]);
  }

  /** A worker step fails exactly when the operation would succeed but the reference slot is already taken. */
  lemma WorkerFailsExactly(db: Db, at: nat, now: int, max: nat, backoff: int)
    requires Inv(db) && at < |db.txs| && db.txs[at].state.PendingReference?
    ensures var r := WorkerTx(db, at, now, max, backoff);
            && (r.Err? <==> WouldSucceed(db, db.txs[at]) && IndexBySlot(db.txs, db.txs[at].provider, db.txs[at].ref).Some?)
            && (r.Err? ==> r.error == Violation(ReversalIndex))
  {
    hide Inv, ConcludeTx, Operate;
    PendingRowFacts(db, at);
    if Waits(db, at, max) {
      WaitingStep(db, at, now, max, backoff);
    } else {
      ConcludingStep(db, at, now, max, backoff);
      ConcludeFailsExactly(db, at);
    }
  }

  lemma FundedOpenIs(db: Db, id: Id, txId: Id, player: string, opening: Money)
    requires Open(db, id, txId, player, opening).Ok? && opening.minor != 0
    ensures OpeningOk(db, id, txId, player, opening)
    ensures Open(db, id, txId, player, opening).value ==
            CommitOpening(db.(nextOrdering := db.nextOrdering + 2), id, txId, player, opening, [db.nextOrdering, db.nextOrdering + 1])
  {
    NotRefused(db.wallets[id := Wallet(player, opening.currency, opening.minor, 1)], db.txs, OpeningRow(id, txId, player, opening));
  }

  lemma FundedOpenKeeps(db: Db, id: Id, txId: Id, player: string, opening: Money)
    requires Inv(db) && OpeningOk(db, id, txId, player, opening)
    ensures var later := db.(nextOrdering := db.nextOrdering + 2);
            var db' := CommitOpening(later, id, txId, player, opening, [db.nextOrdering, db.nextOrdering + 1]);
            Inv(db') && Extends(db.txs, db'.txs)
  {
    var ch := OpeningChange(id, txId, player, opening);
    var later := db.(nextOrdering := db.nextOrdering + 2);
    LaterOrdering(db, later.nextOrdering);
    NextOrderingsOk(db, ch);
    assert NextOrderings(db, ch) == [db.nextOrdering, db.nextOrdering + 1];
    OpeningKeeps(later, id, txId, player, opening, [db.nextOrdering, db.nextOrdering + 1]);
  }

  lemma OpenKeeps(db: Db, id: Id, txId: Id, player: string, opening: Money)
    requires Inv(db) && Open(db, id, txId, player, opening).Ok?
    ensures Inv(Open(db, id, txId, player, opening).value) && Extends(db.txs, Open(db, id, txId, player, opening).value.txs)
  {
    if opening.minor == 0 {
      EmptyOpeningKeeps(db, id, player, opening);
    } else {
      FundedOpenIs(db, id, txId, player, opening);
      FundedOpenKeeps(db, id, txId, player, opening);
    }
  }
}
