/** Each statement leaves its own session with the facts its next statement relies on. */
module OwnSteps {
  import opened Prelude
  import opened Monetary
  import opened Tables
  import opened Domain
  import opened Engine
  import opened Backoff
  import opened TxFacts
  import opened Invariants
  import opened Decisions
  import opened Openings
  import opened Statements
  import opened SessionInv
  import opened Stability

  /** Taking locks whose guarantee already holds. */
  lemma HeldGrows(db: Db, x: Session, x': Session, extra: set<Resource>)
    requires HeldOk(db, x) && x'.held == x.held + extra && Own(x') == Own(x)
    requires forall r :: r in extra ==> Guarded(db, r, Own(x))
    ensures HeldOk(db, x')
  {
  }

  lemma EndedOk(db: Db, x: Session, e: Error)
    requires Admissible(x.job)
    ensures SessionOk(db, Ended(x, Err(e)))
  {
  }

  lemma ViolatedOk(db: Db, x: Session, index: UniqueIndex)
    requires Admissible(x.job)
    requires x.job.Call? && x.job.message.None? && !index.ReversalIndex? ==> Contested(db.txs, x.job.cmd)
    ensures SessionOk(db, Violated(x, index))
  {
  }

  /** While nobody created the identity of a call, whatever row it collides with is another request's. */
  lemma Collides(txs: seq<Tx>, c: Command, k: nat)
    requires ExternalKind(c.kind) && NoneCreated(txs, c.provider, c.external) && k < |txs|
    requires txs[k].id == c.id || HasKey(txs[k], c.provider, c.key) || HasExternal(txs[k], c.provider, c.external)
    ensures Contested(txs, c)
  {
    assert SameBusiness(txs[k], c) ==> HasExternal(txs[k], c.provider, c.external);
    assert Contests(txs[k], c);
  }

  /** A row of the call's own that meets a unique index. */
  lemma InsertCollides(db: Db, x: Session, ch: Change, k: nat)
    requires Admissible(x.job) && (x.job.Call? ==> CallWrite(db, x, ch)) && k < |db.txs|
    requires || db.txs[k].id == ch.row.id || HasKey(db.txs[k], ch.row.provider, ch.row.key)
             || HasExternal(db.txs[k], ch.row.provider, ch.row.external)
    ensures x.job.Call? ==> Contested(db.txs, x.job.cmd)
  {
    if x.job.Call? {
      Collides(db.txs, x.job.cmd, k);
    }
  }

  // ---------------------------------------------------------------------
  // Calls
  // ---------------------------------------------------------------------

  lemma WalletReadable(db: Db, id: Id)
    requires Inv(db) && id in db.wallets
    ensures Readable(db.wallets[id])
  {
    assert WalletOk(db.txs, db.ledger, id, db.wallets[id]);
  }

  /** One row of a sound state, with its events. */
  lemma RowFacts(db: Db, k: nat)
    requires Inv(db) && k < |db.txs|
    ensures RowOk(db.wallets, db.txs[k]) && HistoryOk(db.txs[k], EventsFor(db.outbox, TxAggregate(db.txs[k].id)))
  {
  }

  /** A found row answers the call. */
  lemma HitReplies(db: Db, c: Command, at: nat, r: Result)
    requires Inv(db) && ExternalKind(c.kind) && FindExisting(db.txs, c) == Hit(at) && ReplayResult(db.txs[at]) == Ok(r)
    ensures Replied(db, c, r)
  {
    RowFacts(db, at);
    if !Terminal(r.state) {
      var e := EventsFor(db.outbox, TxAggregate(r.tx))[0];
      EventsForMember(db.outbox, TxAggregate(r.tx), e);
      assert CarriesWait(e, r.tx, r);
    }
    assert Answers(db, c, r, at);
  }

  lemma FoundOk(db: Db, x: Session, missing: Session)
    requires Inv(db) && SessionOk(db, x) && x.job.Call? && InboxPart(db, x) && Located(x) && Own(x).None?
    requires FindExisting(db.txs, x.job.cmd).Missing? ==> SessionOk(db, missing)
    ensures SessionOk(db, Found(x, db, FindExisting(db.txs, x.job.cmd), missing))
  {
    hide Inv;
    var c := x.job.cmd;
    match FindExisting(db.txs, c)
    case Clash(e) => EndedOk(db, x, e);
    case Missing =>
    case Hit(at) =>
      match ReplayResult(db.txs[at])
      case Err(e) => EndedOk(db, x, e);
      case Ok(r) =>
        HitReplies(db, c, at, r);
        HeldGrows(db, x, x.(pc := AtComplete(Reply(r), [])), {});
  }

  lemma InboxStep(db: Db, x: Session)
    requires SessionOk(db, x) && x.job.Call? && x.pc.AtInbox?
    ensures SessionOk(db, CallStatement(db, x))
  {
    var m := x.job.message.value;
    if m !in db.inbox {
      HeldGrows(db, x, CallStatement(db, x), {InboxInsert(m)});
    } else if db.inbox[m].hash != x.job.cmd.hash {
      EndedOk(db, x, InboxPayloadMismatch);
    } else {
      HeldGrows(db, x, CallStatement(db, x), {});
    }
  }

  lemma LockStep(db: Db, x: Session)
    requires SessionOk(db, x) && x.job.Call? && (x.pc.AtIdentity? || x.pc.AtWallet?)
    ensures SessionOk(db, CallStatement(db, x))
  {
    var c := x.job.cmd;
    if x.pc.AtIdentity? {
      HeldGrows(db, x, CallStatement(db, x), {IdentityLock(c.provider, c.external)});
    } else if c.wallet in db.wallets {
      HeldGrows(db, x, CallStatement(db, x), {WalletRow(c.wallet)});
    } else {
      EndedOk(db, x, WalletNotFound);
    }
  }

  lemma LookupStep(db: Db, x: Session)
    requires Inv(db) && SessionOk(db, x) && x.job.Call? && (x.pc.AtLookup? || x.pc.AtRecheck?)
    ensures SessionOk(db, CallStatement(db, x))
  {
    hide Inv;
    var missing := if x.pc.AtLookup? then x.(pc := AtWallet) else x.(pc := AtDecide(x.pc.w));
    if FindExisting(db.txs, x.job.cmd).Missing? {
      HeldGrows(db, x, missing, {});
    }
    FoundOk(db, x, missing);
  }

  /** The row decided under the wallet lock. */
  lemma DecidedWrite(db: Db, x: Session, result: Result, move: Option<Direction>)
    requires x.job.Call? && Prepared(x.job.cmd) && ExternalKind(x.job.cmd.kind) && x.pc.AtDecide? && CallOk(db, x) && Readable(x.pc.w)
    requires Decide(x.job.cmd, x.pc.w, LookupExternal(db.txs, x.job.cmd.provider, x.job.cmd.ref)) == Persist(result, move)
    ensures CallWrite(db, x, Settle(NewRow(x.job.cmd, result, x.job.now), result, x.pc.w, move))
  {
    if x.job.cmd.amount.currency == x.pc.w.currency {
      DecideSound(db.txs, x.job.cmd, x.pc.w, x.job.now);
    }
  }

  lemma CallMoves(db: Db, x: Session, x': Session)
    requires SessionOk(db, x) && x.job.Call? && Own(x).None? && Own(x').None? && x' == x.(pc := x'.pc) && CallOk(db, x')
    ensures SessionOk(db, x')
  {
    HeldGrows(db, x, x', {});
  }

  lemma DecidePersists(db: Db, x: Session, result: Result, move: Option<Direction>)
    requires x.job.Call? && Prepared(x.job.cmd) && x.pc.AtDecide?
    requires Decide(x.job.cmd, x.pc.w, LookupExternal(db.txs, x.job.cmd.provider, x.job.cmd.ref)) == Persist(result, move)
    ensures CallStatement(db, x) == x.(pc := AtPk(Settle(NewRow(x.job.cmd, result, x.job.now), result, x.pc.w, move)))
  {
    hide Decide, FindExisting;
  }

  lemma DecideWrites(db: Db, x: Session, result: Result, move: Option<Direction>)
    requires SessionOk(db, x) && x.job.Call? && x.pc.AtDecide? && Readable(x.pc.w)
    requires Decide(x.job.cmd, x.pc.w, LookupExternal(db.txs, x.job.cmd.provider, x.job.cmd.ref)) == Persist(result, move)
    ensures SessionOk(db, x.(pc := AtPk(Settle(NewRow(x.job.cmd, result, x.job.now), result, x.pc.w, move))))
  {
    hide Guarded, Sound, Decide;
    var ch := Settle(NewRow(x.job.cmd, result, x.job.now), result, x.pc.w, move);
    DecidedWrite(db, x, result, move);
    InsertKeepsFacts(db, x, x.(pc := AtPk(ch)), ch);
    CallMoves(db, x, x.(pc := AtPk(ch)));
  }

  lemma DecideStep(db: Db, x: Session)
    requires SessionOk(db, x) && x.job.Call? && x.pc.AtDecide? && Readable(x.pc.w)
    ensures SessionOk(db, CallStatement(db, x))
  {
    var plan := Decide(x.job.cmd, x.pc.w, LookupExternal(db.txs, x.job.cmd.provider, x.job.cmd.ref));
    if plan.Refuse? {
      EndedOk(db, x, plan.error);
      assert CallStatement(db, x) == Ended(x, Err(plan.error));
    } else {
      DecidePersists(db, x, plan.result, plan.move);
      DecideWrites(db, x, plan.result, plan.move);
    }
  }

  lemma ResolvedOk(db: Db, x: Session, r: Result)
    requires Admissible(x.job) && x.job.Call? && x.job.message.None? && Replied(db, x.job.cmd, r)
    ensures SessionOk(db, Ended(x, Ok(Some(r))))
  {
  }

  lemma ConflictStep(db: Db, x: Session)
    requires Inv(db) && SessionOk(db, x) && x.job.Call? && x.pc.AtConflict?
    ensures SessionOk(db, CallStatement(db, x))
  {
    hide Inv, HeldOk, Replied;
    match FindExisting(db.txs, x.job.cmd)
    case Clash(e) => EndedOk(db, x, e);
    case Missing => EndedOk(db, x, IdempotencyConflict);
    case Hit(at) =>
      match ReplayResult(db.txs[at])
      case Err(e) => EndedOk(db, x, e);
      case Ok(r) =>
        HitReplies(db, x.job.cmd, at, r);
        ResolvedOk(db, x, r);
  }

  lemma CallStep(db: Db, x: Session)
    requires Inv(db) && SessionOk(db, x) && x.job.Call? && !Inserting(x.pc) && !Finishing(x.pc) && !x.pc.AtCommit? && !x.pc.Done?
    ensures SessionOk(db, CallStatement(db, x))
  {
    if x.pc.AtInbox? {
      InboxStep(db, x);
    } else if x.pc.AtIdentity? || x.pc.AtWallet? {
      LockStep(db, x);
    } else if x.pc.AtLookup? || x.pc.AtRecheck? {
      LookupStep(db, x);
    } else if x.pc.AtDecide? {
      WalletReadable(db, x.job.cmd.wallet);
      DecideStep(db, x);
    } else {
      ConflictStep(db, x);
    }
  }

  // ---------------------------------------------------------------------
  // The worker
  // ---------------------------------------------------------------------

  lemma ResolveStep(db: Db, x: Session)
    requires SessionOk(db, x) && x.job.Worker? && x.pc.AtResolve?
    ensures SessionOk(db, WorkerStatement(db, x))
  {
    var at, t := x.pc.at, x.pc.t;
    ResolvePromises(db.txs, t);
    HeldGrows(db, x, WorkerStatement(db, x), {});
  }

  lemma SettleStep(db: Db, x: Session)
    requires SessionOk(db, x) && x.job.Worker? && x.pc.AtSettle?
    requires RowOk(db.wallets, x.pc.t) && Readable(db.wallets[x.pc.t.wallet])
    ensures SessionOk(db, WorkerStatement(db, x))
  {
    var t, resolution := x.pc.t, x.pc.resolution;
    var x' := WorkerStatement(db, x);
    SettledWrite(db, x);
    HeldGrows(db, x, x', {WalletRow(t.wallet)});
  }

  /** The row concluded under the wallet lock. */
  lemma SettledWrite(db: Db, x: Session)
    requires x.job.Worker? && x.pc.AtSettle? && WorkerOk(db, x)
    requires RowOk(db.wallets, x.pc.t) && Readable(db.wallets[x.pc.t.wallet])
    ensures var t := x.pc.t; var w := db.wallets[t.wallet]; var plan := Conclude(t, w, x.pc.resolution);
            && plan.Persist?
            && var ch := Settle(SettledRow(CountedRow(t, x.pc.resolution), plan.result), plan.result, w, plan.move);
               var x' := x.(pc := AtTouch(x.pc.at, t, ch), held := x.held + {WalletRow(t.wallet)});
               WorkerStatement(db, x) == x' && WorkerOk(db, x')
  {
    hide Sound, Promised, NoneCreated, Operate;
    var t, resolution := x.pc.t, x.pc.resolution;
    var w := db.wallets[t.wallet];
    ConcludeSound(db.wallets, db.txs, t, resolution, w);
    var plan := Conclude(t, w, resolution);
    if plan.result.code == ReferenceNotFound {
      SettleCode(t, w, resolution);
    }
  }

  /** Only an exhausted wait for a missing reference ends as REFERENCE_NOT_FOUND. */
  lemma SettleCode(t: Tx, w: Wallet, resolution: Resolution)
    requires Conclude(t, w, resolution).Persist? && Conclude(t, w, resolution).result.code == ReferenceNotFound
    requires resolution.Turn? ==> resolution.code != ReferenceNotFound
    ensures resolution == Wait(ReferenceNotFound)
  {
  }

  lemma TouchStep(db: Db, x: Session)
    requires UniqueKeys(db.txs) && SessionOk(db, x) && x.job.Worker? && x.pc.AtTouch?
    ensures SessionOk(db, WorkerStatement(db, x))
  {
    var at, t := x.pc.at, x.pc.t;
    var extra := {TxPk(t.id), TxExternal(t.provider, t.external), TxKey(t.provider, t.key)};
    RowGuards(db.txs, at);
    HeldGrows(db, x, WorkerStatement(db, x), extra);
    InsertKeepsFacts(db, x, WorkerStatement(db, x), x.pc.change);
    assert Fixed(x.pc.change.row) == Fixed(t);
  }

  /** Under the unique indexes a committed row is the only one with its keys. */
  lemma RowGuards(txs: seq<Tx>, at: nat)
    requires UniqueKeys(txs) && at < |txs|
    ensures forall k :: 0 <= k < |txs| && txs[k].id == txs[at].id ==> k == at
    ensures forall k :: 0 <= k < |txs| && HasExternal(txs[k], txs[at].provider, txs[at].external) ==> k == at
    ensures forall k :: 0 <= k < |txs| && HasKey(txs[k], txs[at].provider, txs[at].key) ==> k == at
  {
    forall k | 0 <= k < |txs| && k != at
      ensures txs[k].id != txs[at].id && !HasExternal(txs[k], txs[at].provider, txs[at].external)
      ensures !HasKey(txs[k], txs[at].provider, txs[at].key)
    {
    }
  }

  lemma ReferenceStep(db: Db, x: Session)
    requires SessionOk(db, x) && x.job.Worker? && x.pc.AtReference?
    ensures SessionOk(db, WorkerStatement(db, x))
  {
    var t := x.pc.t;
    if FromMinor(t.amount, t.currency).None? {
      EndedOk(db, x, InvalidStoredMoney);
    } else {
      HeldGrows(db, x, WorkerStatement(db, x), {IdentityLock(t.provider, t.ref)});
    }
  }

  lemma ClaimedRowOk(db: Db, x: Session)
    requires Inv(db) && x.job.Worker? && x.pc.AtSettle? && WorkerOk(db, x)
    ensures RowOk(db.wallets, x.pc.t) && Readable(db.wallets[x.pc.t.wallet])
  {
    assert RowOk(db.wallets, db.txs[x.pc.at]);
    WalletReadable(db, x.pc.t.wallet);
  }

  lemma WorkerStep(db: Db, x: Session)
    requires Inv(db) && SessionOk(db, x) && x.job.Worker? && !Inserting(x.pc) && !Finishing(x.pc) && !x.pc.AtCommit? && !x.pc.Done?
    ensures SessionOk(db, WorkerStatement(db, x))
  {
    if x.pc.AtReference? {
      ReferenceStep(db, x);
    } else if x.pc.AtResolve? {
      ResolveStep(db, x);
    } else if x.pc.AtSettle? {
      ClaimedRowOk(db, x);
      SettleStep(db, x);
    } else if x.pc.AtTouch? {
      TouchStep(db, x);
    }
  }

  // ---------------------------------------------------------------------
  // Openings and the shared statements
  // ---------------------------------------------------------------------

  lemma OpenStep(db: Db, x: Session)
    requires SessionOk(db, x) && x.job.Open? && !Inserting(x.pc) && !Finishing(x.pc) && !x.pc.AtCommit? && !x.pc.Done?
    ensures SessionOk(db, OpenStatement(db, x))
  {
    if x.pc.AtNewWallet? {
      if x.job.id in db.wallets {
        ViolatedOk(db, x, WalletPkey);
      } else {
        HeldGrows(db, x, OpenStatement(db, x), {WalletPk(x.job.id)});
      }
    } else {
      if OwnerTaken(db.wallets, x.job.player, x.job.opening.currency) {
        ViolatedOk(db, x, WalletOwnerIndex);
      } else {
        HeldGrows(db, x, OpenStatement(db, x), {WalletOwner(x.job.player, x.job.opening.currency)});
      }
    }
  }

  /** What moving from one index to the next keeps of a session's facts. */
  lemma InsertKeepsFacts(db: Db, x: Session, x': Session, ch: Change)
    requires x'.job == x.job && x'.inserted == x.inserted && x.held <= x'.held
    ensures x.job.Call? && CallWrite(db, x, ch) ==> CallWrite(db, x', ch)
    ensures x.job.Open? && OpenWrite(x, ch) ==> OpenWrite(x', ch)
    ensures x.job.Worker? && x.pc.AtTouch? && WorkerWrite(db, x, x.pc.at, ch) ==> WorkerWrite(db, x', x.pc.at, ch)
  {
  }

  /** From one index of the row to the next. */
  ghost predicate NextIndexPc(pc: Pc, pc': Pc, ch: Change, r: Resource) {
    || (pc == AtPk(ch) && pc' == AtExternal(ch) && r == TxPk(ch.row.id))
    || (pc == AtExternal(ch) && pc' == AtKey(ch) && r == TxExternal(ch.row.provider, ch.row.external))
    || (pc == AtKey(ch) && pc' == AtSlot(None, ch) && r == TxKey(ch.row.provider, ch.row.key))
  }

  lemma CallNextIndex(db: Db, x: Session, x': Session, ch: Change, r: Resource)
    requires x.job.Call? && CallOk(db, x) && x' == x.(pc := x'.pc, held := x.held + {r}) && NextIndexPc(x.pc, x'.pc, ch, r)
    ensures CallOk(db, x')
  {
    InsertKeepsFacts(db, x, x', ch);
  }

  lemma OpenNextIndex(db: Db, x: Session, x': Session, ch: Change, r: Resource)
    requires x.job.Open? && OpenOk(db, x) && x' == x.(pc := x'.pc, held := x.held + {r}) && NextIndexPc(x.pc, x'.pc, ch, r)
    ensures OpenOk(db, x')
  {
  }

  lemma NextIndex(db: Db, x: Session, x': Session, ch: Change, r: Resource)
    requires SessionOk(db, x) && x' == x.(pc := x'.pc, held := x.held + {r}) && Guarded(db, r, None) && NextIndexPc(x.pc, x'.pc, ch, r)
    ensures SessionOk(db, x')
  {
    HeldGrows(db, x, x', {r});
    if x.job.Call? {
      CallNextIndex(db, x, x', ch, r);
    } else if x.job.Open? {
      OpenNextIndex(db, x, x', ch, r);
    }
  }

  lemma PkStep(db: Db, x: Session)
    requires SessionOk(db, x) && x.pc.AtPk?
    ensures SessionOk(db, InsertStatement(db, x))
  {
    var ch := x.pc.change;
    if IndexById(db.txs, ch.row.id).Some? {
      InsertCollides(db, x, ch, IndexById(db.txs, ch.row.id).value);
      ViolatedOk(db, x, TxPkey);
    } else {
      NextIndex(db, x, x.(pc := AtExternal(ch), held := x.held + {TxPk(ch.row.id)}), ch, TxPk(ch.row.id));
    }
  }

  lemma ExternalStep(db: Db, x: Session)
    requires SessionOk(db, x) && x.pc.AtExternal?
    ensures SessionOk(db, InsertStatement(db, x))
  {
    var ch := x.pc.change;
    if IndexByExternal(db.txs, ch.row.provider, ch.row.external).Some? {
      InsertCollides(db, x, ch, IndexByExternal(db.txs, ch.row.provider, ch.row.external).value);
      ViolatedOk(db, x, ExternalIndex);
    } else {
      var r := TxExternal(ch.row.provider, ch.row.external);
      NextIndex(db, x, x.(pc := AtKey(ch), held := x.held + {r}), ch, r);
    }
  }

  lemma KeyStep(db: Db, x: Session)
    requires SessionOk(db, x) && x.pc.AtKey?
    ensures SessionOk(db, InsertStatement(db, x))
  {
    var ch := x.pc.change;
    if IndexByKey(db.txs, ch.row.provider, ch.row.key).Some? {
      InsertCollides(db, x, ch, IndexByKey(db.txs, ch.row.provider, ch.row.key).value);
      ViolatedOk(db, x, KeyIndex);
    } else {
      var r := TxKey(ch.row.provider, ch.row.key);
      NextIndex(db, x, x.(pc := AtSlot(None, ch), held := x.held + {r}), ch, r);
    }
  }

  // The reversal slot and the foreign keys

  lemma SlotCall(db: Db, x: Session, x': Session)
    requires x.job.Call? && CallOk(db, x) && x.pc.AtSlot? && x'.pc == AtForeign(x.pc.change)
    requires x' == x.(pc := x'.pc, held := x'.held) && x.held <= x'.held
    requires NeedsSlot(x.pc.change) ==> TxSlot(x.pc.change.row.provider, x.pc.change.row.ref) in x'.held
    ensures CallOk(db, x')
  {
    InsertKeepsFacts(db, x, x', x.pc.change);
  }

  lemma SlotWorker(db: Db, x: Session, x': Session)
    requires x.job.Worker? && WorkerOk(db, x) && x.pc.AtSlot? && x'.pc == AtDraw(Write(x.pc.slot, x.pc.change), [])
    requires x' == x.(pc := x'.pc, held := x'.held) && x.held <= x'.held
    requires NeedsSlot(x.pc.change) ==> TxSlot(x.pc.change.row.provider, x.pc.change.row.ref) in x'.held
    ensures WorkerOk(db, x')
  {
  }

  lemma SlotOpen(db: Db, x: Session, x': Session)
    requires x.job.Open? && OpenOk(db, x) && x.pc.AtSlot? && x'.pc == AtForeign(x.pc.change)
    requires x' == x.(pc := x'.pc, held := x'.held) && x.held <= x'.held
    requires NeedsSlot(x.pc.change) ==> TxSlot(x.pc.change.row.provider, x.pc.change.row.ref) in x'.held
    ensures OpenOk(db, x')
  {
  }

  lemma SlotJob(db: Db, x: Session, x': Session)
    requires JobOk(db, x) && x.pc.AtSlot? && x.held <= x'.held
    requires x' == x.(pc := if x.pc.slot.None? then AtForeign(x.pc.change) else AtDraw(Write(x.pc.slot, x.pc.change), []), held := x'.held)
    requires NeedsSlot(x.pc.change) ==> TxSlot(x.pc.change.row.provider, x.pc.change.row.ref) in x'.held
    ensures JobOk(db, x')
  {
    if x.job.Call? {
      SlotCall(db, x, x');
    } else if x.job.Worker? {
      SlotWorker(db, x, x');
    } else {
      SlotOpen(db, x, x');
    }
  }

  lemma SlotTaken(db: Db, x: Session, x': Session, extra: set<Resource>)
    requires SessionOk(db, x) && x.pc.AtSlot?
    requires x' == x.(pc := if x.pc.slot.None? then AtForeign(x.pc.change) else AtDraw(Write(x.pc.slot, x.pc.change), []), held := x.held + extra)
    requires extra == if NeedsSlot(x.pc.change) then {TxSlot(x.pc.change.row.provider, x.pc.change.row.ref)} else {}
    requires forall r :: r in extra ==> Guarded(db, r, Own(x))
    ensures SessionOk(db, x')
  {
    hide JobOk, Guarded;
    HeldGrows(db, x, x', extra);
    SlotJob(db, x, x');
  }

  lemma SlotStep(db: Db, x: Session)
    requires SessionOk(db, x) && x.pc.AtSlot?
    ensures SessionOk(db, InsertStatement(db, x))
  {
    var ch := x.pc.change;
    if !NeedsSlot(ch) {
      assert x.held + {} == x.held;
      SlotTaken(db, x, InsertStatement(db, x), {});
    } else if IndexBySlot(db.txs, ch.row.provider, ch.row.ref).Some? {
      ViolatedOk(db, x, ReversalIndex);
    } else {
      SlotTaken(db, x, InsertStatement(db, x), {TxSlot(ch.row.provider, ch.row.ref)});
    }
  }

  lemma ForeignJob(db: Db, x: Session)
    requires JobOk(db, x) && x.pc.AtForeign? && x.pc.change.Settle? && x.pc.change.row.currency == x.pc.change.wallet.currency
    ensures JobOk(db, x.(pc := AtDraw(Write(None, x.pc.change), [])))
  {
    hide Sound, NoneCreated;
    var x' := x.(pc := AtDraw(Write(None, x.pc.change), []));
    if x.job.Call? {
      InsertKeepsFacts(db, x, x', x.pc.change);
    }
  }

  lemma ForeignStep(db: Db, x: Session)
    requires SessionOk(db, x) && x.pc.AtForeign?
    ensures SessionOk(db, InsertStatement(db, x))
  {
    var ch := x.pc.change;
    if !ch.Settle? || ch.row.currency != ch.wallet.currency {
      EndedOk(db, x, ForeignKeyViolation);
    } else {
      HeldGrows(db, x, x.(pc := AtDraw(Write(None, ch), [])), {});
      ForeignJob(db, x);
    }
  }

  // Drawing sequence numbers and completing the inbox row

  /** A number drawn now is behind everything committed so far. */
  lemma DrawNext(db: Db, ch: Change, orderings: seq<nat>)
    requires OrderingInv(db.outbox, db.nextOrdering) && Drawn(db.outbox, db.nextOrdering, ch, orderings) && |orderings| < EventCount(ch)
    ensures Drawn(db.outbox, db.nextOrdering + 1, ch, orderings + [db.nextOrdering])
  {
    forall e | e in db.outbox
      ensures e.ordering < db.nextOrdering
    {
      var i :| 0 <= i < |db.outbox| && db.outbox[i] == e;
    }
  }

  ghost predicate WorkOk(db: Db, x: Session, work: Work, orderings: seq<nat>) {
    var facts := match x.job
      case Call(_, _, _) => CallWork(db, x, work, orderings)
      case Worker(_, _, _) => WorkerWork(db, x, work, orderings)
      case Open(_, _, _, _) => OpenWork(db, x, work, orderings);
    facts
  }

  /** A session's work survives drawing a number and taking further locks. */
  lemma WorkCarries(db: Db, db': Db, x: Session, x': Session, work: Work, orderings: seq<nat>, orderings': seq<nat>)
    requires WorkOk(db, x, work, orderings) && x'.job == x.job && x'.inserted == x.inserted && x.held <= x'.held
    requires db' == db.(nextOrdering := db'.nextOrdering)
    requires work.Write? ==> Drawn(db'.outbox, db'.nextOrdering, work.change, orderings')
    requires !work.Write? ==> orderings' == orderings
    ensures WorkOk(db', x', work, orderings')
  {
    if x.job.Call? && work.Reply? {
      RepliedStable(db, db', x.job.cmd, work.result);
    }
  }

  lemma HeldIgnoresOrdering(db: Db, db': Db, x: Session, x': Session, extra: set<Resource>)
    requires HeldOk(db, x) && db' == db.(nextOrdering := db'.nextOrdering) && Own(x') == Own(x) && x'.held == x.held + extra
    requires forall r :: r in extra ==> r.InboxUpdate?
    ensures HeldOk(db', x')
  {
    forall r | r in x'.held
      ensures Guarded(db', r, Own(x'))
    {
      assert r in x.held ==> Guarded(db, r, Own(x));
    }
  }

  predicate Ending(pc: Pc) {
    pc.AtDraw? || pc.AtComplete? || pc.AtCommit?
  }

  lemma WorkOfJob(db: Db, x: Session)
    requires JobOk(db, x) && Ending(x.pc)
    ensures WorkOk(db, x, x.pc.work, x.pc.orderings)
    ensures !x.pc.AtDraw? ==> |x.pc.orderings| == Wanted(x.pc.work)
    ensures x.job.Call? && x.pc.AtDraw? ==> x.pc.work.Write?
  {
    hide CallWork, WorkerWork, OpenWork, CallWrite, WorkerWrite, OpenWrite;
  }

  lemma JobOfWork(db: Db, x: Session)
    requires Ending(x.pc) && WorkOk(db, x, x.pc.work, x.pc.orderings)
    requires !x.pc.AtDraw? ==> |x.pc.orderings| == Wanted(x.pc.work)
    requires x.job.Call? && x.pc.AtDraw? ==> x.pc.work.Write?
    ensures JobOk(db, x)
  {
  }

  lemma WorkDrawn(db: Db, x: Session, work: Work, orderings: seq<nat>)
    requires WorkOk(db, x, work, orderings)
    ensures work.Write? ==> Drawn(db.outbox, db.nextOrdering, work.change, orderings)
    ensures |orderings| <= Wanted(work)
  {
  }

  lemma DrawJob(db: Db, db': Db, x: Session)
    requires OrderingInv(db.outbox, db.nextOrdering) && JobOk(db, x) && x.pc.AtDraw?
    requires db' == db.(nextOrdering := db.nextOrdering + Draws(x))
    ensures JobOk(db', FinalStatement(x, db.nextOrdering))
  {
    var x' := FinalStatement(x, db.nextOrdering);
    var work, orderings := x.pc.work, x.pc.orderings;
    WorkOfJob(db, x);
    WorkDrawn(db, x, work, orderings);
    if |orderings| < Wanted(work) {
      DrawNext(db, work.change, orderings);
    }
    WorkCarries(db, db', x, x', work, orderings, x'.pc.orderings);
    JobOfWork(db', x');
  }

  lemma DrawStep(db: Db, db': Db, x: Session)
    requires OrderingInv(db.outbox, db.nextOrdering) && SessionOk(db, x) && x.pc.AtDraw?
    requires db' == db.(nextOrdering := db.nextOrdering + Draws(x))
    ensures SessionOk(db', FinalStatement(x, db.nextOrdering))
  {
    hide JobOk, Guarded;
    HeldIgnoresOrdering(db, db', x, FinalStatement(x, db.nextOrdering), {});
    DrawJob(db, db', x);
  }

  lemma CompleteStep(db: Db, x: Session)
    requires SessionOk(db, x) && x.pc.AtComplete?
    ensures SessionOk(db, FinalStatement(x, db.nextOrdering))
  {
    hide JobOk, Guarded, WorkOk;
    var x' := FinalStatement(x, db.nextOrdering);
    HeldIgnoresOrdering(db, db, x, x', x'.held - x.held);
    WorkOfJob(db, x);
    WorkDrawn(db, x, x.pc.work, x.pc.orderings);
    WorkCarries(db, db, x, x', x.pc.work, x.pc.orderings, x.pc.orderings);
    JobOfWork(db, x');
  }

  /** Any statement: its own session keeps its facts. */
  lemma OwnStep(db: Db, db': Db, x: Session)
    requires Inv(db) && SessionOk(db, x) && !x.pc.AtCommit? && !x.pc.Done?
    requires db' == db.(nextOrdering := db.nextOrdering + Draws(x))
    ensures SessionOk(db', Statement(db, x))
  {
    if x.pc.AtDraw? {
      DrawStep(db, db', x);
    } else {
      assert db' == db;
      if Inserting(x.pc) {
        InsertStep(db, x);
      } else if x.pc.AtComplete? {
        CompleteStep(db, x);
      } else {
        JobStep(db, x);
      }
    }
  }

  lemma InsertStep(db: Db, x: Session)
    requires SessionOk(db, x) && Inserting(x.pc)
    ensures SessionOk(db, InsertStatement(db, x))
  {
    if x.pc.AtPk? {
      PkStep(db, x);
    } else if x.pc.AtExternal? {
      ExternalStep(db, x);
    } else if x.pc.AtKey? {
      KeyStep(db, x);
    } else if x.pc.AtSlot? {
      SlotStep(db, x);
    } else {
      ForeignStep(db, x);
    }
  }

  lemma JobStep(db: Db, x: Session)
    requires Inv(db) && SessionOk(db, x) && !Inserting(x.pc) && !Finishing(x.pc) && !x.pc.AtCommit? && !x.pc.Done?
    ensures SessionOk(db, Statement(db, x))
  {
    if x.job.Call? {
      CallStep(db, x);
    } else if x.job.Worker? {
      WorkerStep(db, x);
    } else {
      OpenStep(db, x);
    }
  }
}
