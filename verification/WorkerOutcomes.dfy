/**
 The step of the pending-reference worker and the opening of a wallet, in the
 columns of the tables alone.
 */
module WorkerOutcomes {
  import opened Prelude
  import opened Monetary
  import opened Tables
  import opened Domain
  import opened Engine
  import opened Backoff
  import opened Invariants
  import opened Decisions
  import opened Operations
  import opened OperationProofs
  import opened Outcomes

  // ---------------------------------------------------------------------
  // The worker
  // ---------------------------------------------------------------------

  /** What a step makes of the row it claimed: another attempt later, or the end with so many attempts counted. */
  datatype Fate = Later | Ends(ruling: Ruling, attempts: nat)

  /** A row that has to wait does so while attempts remain. */
  function Waiting(t: Tx, max: nat, code: Code): Fate {
    if t.attempts + 1 < max then Later else Ends(Ruling(Rejected, 0, code), t.attempts + 1)
  }

  /** The fate of waiting row t when the row it names is r. */
  function FateBy(t: Tx, balance: int, max: nat, r: Tx): Fate {
    match r.state
    case Pending => Waiting(t, max, ReferenceNotResolved)
    case PendingReference => Waiting(t, max, ReferenceNotResolved)
    case Rejected => Ends(Ruling(Rejected, 0, ReferenceNotSuccessful), t.attempts)
    case Failed => Ends(Ruling(Rejected, 0, ReferenceNotSuccessful), t.attempts)
    case Processed =>
      if MayReverse(t.kind, t.wallet, t.player, t.game, t.round, Money(t.amount, t.currency), r)
      then Ends(Carried(t.kind, balance, Effect(t.kind, t.amount, r.kind)), t.attempts)
      else Ends(Ruling(Rejected, 0, ReferenceInvalid), t.attempts)
  }

  ghost predicate Fated(txs: seq<Tx>, t: Tx, balance: int, max: nat, f: Fate) {
    && (forall k: nat :: Names(txs, t.provider, t.ref, k) ==> f == FateBy(t, balance, max, txs[k]))
    && ((forall k: nat :: !Names(txs, t.provider, t.ref, k)) ==> f == Waiting(t, max, ReferenceNotFound))
  }

  /** The claimed row once it has ended. */
  function Ended(t: Tx, v: Ruling, attempts: nat, balance: int): Tx {
    Stamped(t.(state := v.state, code := v.code, attempts := attempts, nextAttempt := None), balance)
  }

  /** A claimed row the worker can read, whatever the row it names looks like. */
  ghost predicate ClaimedRow(db: Db, at: nat) {
    && Legible(db) && at < |db.txs| && db.txs[at].state == PendingReference && RowOk(db.wallets, db.txs[at])
  }

  lemma SoundIsClaimed(db: Db, at: nat)
    requires Inv(db) && at < |db.txs| && db.txs[at].state == PendingReference
    ensures ClaimedRow(db, at)
  {
    SoundIsLegible(db);
    SoundRows(db, at);
  }

  /** The ruling the model's resolution stands for. */
  function RulingOf(t: Tx, balance: int, resolution: Resolution): Ruling {
    match resolution
    case Carry(kind) => Carried(t.kind, balance, Effect(t.kind, t.amount, kind))
    case Turn(code) => Ruling(Rejected, 0, code)
    case Wait(code) => Ruling(Rejected, 0, code)
  }

  lemma ResolveIs(t: Tx, balance: int, max: nat, r: Tx)
    requires t.kind == Refund || t.kind == Rollback
    ensures var resolution := Resolve(t, Some(r)); var f := FateBy(t, balance, max, r);
            if resolution.Wait? && t.attempts + 1 < max then f == Later
            else f == Ends(RulingOf(t, balance, resolution), if resolution.Wait? then t.attempts + 1 else t.attempts)
  {
    hide ValidReference, MayReverse;
    ReferenceRules(CommandOf(t), r);
  }

  lemma FateIs(txs: seq<Tx>, t: Tx, balance: int, max: nat) returns (f: Fate)
    requires UniqueKeys(txs) && (t.kind == Refund || t.kind == Rollback)
    ensures Fated(txs, t, balance, max, f)
    ensures var resolution := Resolve(t, LookupExternal(txs, t.provider, t.ref));
            if resolution.Wait? && t.attempts + 1 < max then f == Later
            else f == Ends(RulingOf(t, balance, resolution), if resolution.Wait? then t.attempts + 1 else t.attempts)
  {
    hide FateBy;
    LookupNames(txs, t.provider, t.ref);
    var reference := LookupExternal(txs, t.provider, t.ref);
    if reference.None? {
      f := Waiting(t, max, ReferenceNotFound);
    } else {
      f := FateBy(t, balance, max, reference.value);
      ResolveIs(t, balance, max, reference.value);
    }
  }

  lemma ConcludeRules(wallets: map<Id, Wallet>, t: Tx, w: Wallet, resolution: Resolution)
    requires RowOk(wallets, t) && t.state == PendingReference && Readable(w) && t.currency == w.currency
    ensures Enacts(Conclude(t, w, resolution), t.id, Money(t.amount, t.currency), w.balance, RulingOf(t, w.balance, resolution))
  {
    hide Operate;
    if resolution.Carry? {
      OperateRules(CommandOf(t), w, Some(resolution.kind));
    }
  }

  lemma ConcludeGains(db: Db, at: nat, resolution: Resolution)
    requires ClaimedRow(db, at)
    ensures var t := db.txs[at]; var balance := db.wallets[t.wallet].balance; var v := RulingOf(t, balance, resolution);
            var row := Ended(t, v, if resolution.Wait? then t.attempts + 1 else t.attempts, balance + v.delta);
            ConcludeTx(db, at, resolution) ==
            if v.state == Processed && Taken(db.txs, t.provider, t.ref) then Err(Violation(ReversalIndex))
            else Ok(Advance(Gains(db, db.txs[at := row], row, v.delta), false))
  {
    hide Conclude, RowOk, SlotTaken, CommitNext, Taken, Gains, Carried, Effect, UniqueKeys;
    var t := db.txs[at];
    ClaimedWallet(db, at);
    var w := db.wallets[t.wallet];
    ConcludeRules(db.wallets, t, w, resolution);
    var plan := Conclude(t, w, resolution);
    ConcludeTxIs(db, at, resolution, plan.result, plan.move);
    var v := RulingOf(t, w.balance, resolution);
    var row := SettledRow(CountedRow(t, resolution), plan.result);
    RulingEnds(t, w.balance, resolution);
    SlotIs(db.txs, row);
    CommitGains(db, Some(at), row, plan.result, plan.move, v.delta);
  }

  lemma RulingEnds(t: Tx, balance: int, resolution: Resolution)
    ensures var v := RulingOf(t, balance, resolution);
            (v.state == Processed || v.state == Rejected) && (v.delta != 0 ==> v.state == Processed)
  {
  }

  lemma ClaimedWallet(db: Db, at: nat)
    requires ClaimedRow(db, at)
    ensures var t := db.txs[at];
            && t.wallet in db.wallets && Readable(db.wallets[t.wallet]) && db.wallets[t.wallet].currency == t.currency
            && (t.kind == Refund || t.kind == Rollback) && FromMinor(t.amount, t.currency).Some?
  {
  }

  /**
   The whole step on a claimed row: which attempt it schedules, or which end
   the row comes to and every column, entry and event that goes with it, or
   that the reversal's slot is taken.
   */
  lemma StepExactly(db: Db, at: nat, now: int, max: nat, backoff: int) returns (f: Fate)
    requires ClaimedRow(db, at)
    ensures db.txs[at].wallet in db.wallets && Fated(db.txs, db.txs[at], db.wallets[db.txs[at].wallet].balance, max, f)
    ensures var t := db.txs[at];
            WorkerTx(db, at, now, max, backoff) ==
            match f
            case Later =>
              Ok(Advance(db.(txs := db.txs[at := t.(attempts := t.attempts + 1, nextAttempt := Some(now + WorkerDelay(backoff, t.attempts + 1)))]), true))
            case Ends(v, attempts) =>
              if v.state == Processed && Taken(db.txs, t.provider, t.ref) then Err(Violation(ReversalIndex))
              else
                var row := Ended(t, v, attempts, db.wallets[t.wallet].balance + v.delta);
                Ok(Advance(Gains(db, db.txs[at := row], row, v.delta), false))
    ensures f == Later && 0 <= backoff <= 0x1_ffff_ffff ==>
              var t := db.txs[at];
              WorkerTx(db, at, now, max, backoff).value.db.txs[at].nextAttempt == Some(now + backoff * Pow2(if t.attempts < 30 then t.attempts else 30))
  {
    hide RowOk, Fated, ConcludeTx, Resolve, WorkerDelay, Gains, Taken;
    var t := db.txs[at];
    ClaimedWallet(db, at);
    f := FateIs(db.txs, t, db.wallets[t.wallet].balance, max);
    var resolution := Resolve(t, LookupExternal(db.txs, t.provider, t.ref));
    if resolution.Wait? && t.attempts + 1 < max {
      assert db.outbox + [] == db.outbox;
      if 0 <= backoff <= 0x1_ffff_ffff {
        Pow2Of30();
        WorkerDelayExact(backoff, t.attempts + 1);
      }
    } else {
      ConcludeGains(db, at, resolution);
    }
  }

  // ---------------------------------------------------------------------
  // Opening a wallet
  // ---------------------------------------------------------------------

  /** The OPENING row of a wallet. */
  function OpeningFor(id: Id, txId: Id, player: string, opening: Money): Tx {
    var name := "opening-" + Decimal(id);
    Stamped(Tx(id := txId, external := name, provider := "internal", wallet := id, player := player, game := "internal", round := "opening",
               kind := Opening, amount := opening.minor, currency := opening.currency, state := Processed, key := name, hash := name, ref := "",
               attempts := 0, nextAttempt := None, code := NoCode, result := None), opening.minor)
  }

  /** A row of the internal provider already uses the name of the opening. */
  ghost predicate NameUsed(txs: seq<Tx>, id: Id) {
    exists k :: 0 <= k < |txs| && txs[k].provider == "internal" && (txs[k].external == "opening-" + Decimal(id) || txs[k].key == "opening-" + Decimal(id))
  }

  ghost predicate IdUsed(txs: seq<Tx>, id: Id) {
    exists k :: 0 <= k < |txs| && txs[k].id == id
  }

  /** The tables with the new wallet, still without its opening movement. */
  function WithWallet(db: Db, id: Id, w: Wallet): Db {
    db.(wallets := db.wallets[id := w])
  }

  predicate Openable(player: string, opening: Money) {
    && player != "" && 0 <= opening.minor <= 0x7fff_ffff_ffff_ffff
    && |opening.currency| == 3 && forall i :: 0 <= i < 3 ==> 'A' <= opening.currency[i] <= 'Z'
  }

  /** The player already has a wallet in this currency. */
  ghost predicate HasWallet(wallets: map<Id, Wallet>, player: string, currency: string) {
    exists v :: v in wallets && wallets[v].player == player && wallets[v].currency == currency
  }

  /**
   The whole answer of OpenWallet in any state: a player may hold one wallet per
   currency, and a funded wallet starts at version one with its opening row,
   entry and events.
   */
  lemma OpenExactly(db: Db, id: Id, txId: Id, player: string, opening: Money)
    ensures var r := Open(db, id, txId, player, opening); var funded := opening.minor != 0;
            && (r.Ok? <==> Openable(player, opening) && id !in db.wallets && !HasWallet(db.wallets, player, opening.currency)
                           && (funded ==> !IdUsed(db.txs, txId) && !NameUsed(db.txs, id)))
            && (r == Err(InvalidOpening) <==> !Openable(player, opening))
            && (r == Err(Violation(WalletPkey)) <==> Openable(player, opening) && id in db.wallets)
            && (r == Err(Violation(WalletOwnerIndex)) <==> Openable(player, opening) && id !in db.wallets && HasWallet(db.wallets, player, opening.currency))
            && (r.Ok? && !funded ==> r.value == WithWallet(db, id, Wallet(player, opening.currency, 0, 1)))
            && (r.Ok? && funded ==>
                var row := OpeningFor(id, txId, player, opening);
                r.value == Gains(WithWallet(db, id, Wallet(player, opening.currency, 0, 0)), db.txs + [row], row, opening.minor))
  {
    hide Gains, CommitOpening;
    if opening.minor != 0 && Openable(player, opening) && id !in db.wallets && !HasWallet(db.wallets, player, opening.currency) {
      FundedRefusal(db, id, txId, player, opening);
      FundedGains(db, id, txId, player, opening);
    } else if opening.minor == 0 {
      UnfundedGains(db, id, txId, player, opening);
    }
  }

  lemma UnfundedGains(db: Db, id: Id, txId: Id, player: string, opening: Money)
    requires opening.minor == 0
    ensures CommitOpening(db, id, txId, player, opening, []) == WithWallet(db, id, Wallet(player, opening.currency, 0, 1))
  {
  }

  lemma FundedRefusal(db: Db, id: Id, txId: Id, player: string, opening: Money)
    ensures var wallets := db.wallets[id := Wallet(player, opening.currency, opening.minor, 1)];
            var e := InsertRefusal(wallets, db.txs, OpeningRow(id, txId, player, opening));
            && (e.None? <==> !IdUsed(db.txs, txId) && !NameUsed(db.txs, id))
            && e != Some(InvalidOpening) && e != Some(Violation(WalletPkey)) && e != Some(Violation(WalletOwnerIndex))
  {
    if k :| 0 <= k < |db.txs| && db.txs[k].provider == "internal" && db.txs[k].external == "opening-" + Decimal(id) {
      assert HasExternal(db.txs[k], "internal", "opening-" + Decimal(id));
    }
    if k :| 0 <= k < |db.txs| && db.txs[k].provider == "internal" && db.txs[k].key == "opening-" + Decimal(id) {
      assert HasKey(db.txs[k], "internal", "opening-" + Decimal(id));
    }
  }

  lemma FundedGains(db: Db, id: Id, txId: Id, player: string, opening: Money)
    requires opening.minor > 0
    ensures var row := OpeningFor(id, txId, player, opening);
            CommitOpening(db, id, txId, player, opening, [db.nextOrdering, db.nextOrdering + 1]).(nextOrdering := db.nextOrdering + 2) ==
            Gains(WithWallet(db, id, Wallet(player, opening.currency, 0, 0)), db.txs + [row], row, opening.minor)
  {
    var row, result := OpeningRow(id, txId, player, opening), OpeningResult(txId, opening);
    var db0 := WithWallet(db, id, Unopened(player, opening));
    var ch := OpeningChange(id, txId, player, opening);
    assert row == OpeningFor(id, txId, player, opening);
    CommitGains(db0, None, row, result, Some(Credit), opening.minor);
    assert NextOrderings(db0, ch) == [db.nextOrdering, db.nextOrdering + 1];
  }
}
