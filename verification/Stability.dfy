/** A session's facts survive every step of every other session. */
module Stability {
  import opened Prelude
  import opened Monetary
  import opened Tables
  import opened Domain
  import opened Engine
  import opened TxFacts
  import opened Invariants
  import opened Decisions
  import opened Openings
  import opened Statements
  import opened SessionInv

  lemma GuardedStable(db: Db, db': Db, held: set<Resource>, r: Resource, own: Option<nat>)
    requires Effects(db, db', held) && r !in held && Guarded(db, r, own)
    ensures Guarded(db', r, own)
  {
    match r
    case TxPk(id) =>
      forall k | 0 <= k < |db'.txs| && db'.txs[k].id == id
        ensures own == Some(k)
      {
        assert k < |db.txs| ==> Identity(db'.txs[k], db.txs[k]);
      }
    case TxExternal(p, e) =>
      forall k | 0 <= k < |db'.txs| && HasExternal(db'.txs[k], p, e)
        ensures own == Some(k)
      {
        assert k < |db.txs| ==> Identity(db'.txs[k], db.txs[k]);
        assert k < |db.txs| ==> HasExternal(db.txs[k], p, e);
      }
    case TxKey(p, key) =>
      forall k | 0 <= k < |db'.txs| && HasKey(db'.txs[k], p, key)
        ensures own == Some(k)
      {
        assert k < |db.txs| ==> Identity(db'.txs[k], db.txs[k]);
        assert k < |db.txs| ==> HasKey(db.txs[k], p, key);
      }
    case TxSlot(p, ref) =>
      forall k | 0 <= k < |db'.txs|
        ensures !HoldsSlot(db'.txs[k], p, ref)
      {
        var row := db'.txs[k];
        assert HoldsSlot(row, p, ref) ==> HoldsSlot(row, row.provider, row.ref) && TxSlot(row.provider, row.ref) !in held;
      }
    case _ =>
  }

  lemma HeldStable(db: Db, db': Db, held: set<Resource>, y: Session)
    requires Effects(db, db', held) && y.held !! held && HeldOk(db, y)
    ensures HeldOk(db', y)
  {
    forall r | r in y.held
      ensures Guarded(db', r, Own(y))
    {
      GuardedStable(db, db', held, r, Own(y));
    }
  }

  lemma WalletHeldStable(db: Db, db': Db, held: set<Resource>, y: Session, id: Id, w: Wallet)
    requires Effects(db, db', held) && y.held !! held && WalletHeld(db, y, id, w)
    ensures WalletHeld(db', y, id, w)
  {
  }

  /** A claimed row stays exactly as it was claimed. */
  lemma RowStable(db: Db, db': Db, held: set<Resource>, y: Session, at: nat)
    requires Effects(db, db', held) && y.held !! held && PendingRow(at) in y.held && at < |db.txs|
    ensures at < |db'.txs| && db'.txs[at] == db.txs[at]
  {
  }

  /** While a session holds an identity lock, nobody creates a row under that identity. */
  lemma NoneCreatedStable(db: Db, db': Db, held: set<Resource>, y: Session, provider: string, external: string)
    requires Effects(db, db', held) && y.held !! held
    requires IdentityLock(provider, external) in y.held && NoneCreated(db.txs, provider, external)
    ensures NoneCreated(db'.txs, provider, external)
  {
    forall k | 0 <= k < |db'.txs| && HasExternal(db'.txs[k], provider, external)
      ensures db'.txs[k].kind.Opening?
    {
      if k < |db.txs| {
        assert Identity(db'.txs[k], db.txs[k]);
        assert HasExternal(db.txs[k], provider, external);
      } else {
        assert IdentityLock(provider, external) !in held;
      }
    }
  }

  /** An answer once given stays the answer of its row. */
  lemma RepliedStable(db: Db, db': Db, c: Command, r: Result)
    requires Extends(db.txs, db'.txs) && (forall e :: e in db.outbox ==> e in db'.outbox) && Replied(db, c, r)
    ensures Replied(db', c, r)
  {
    var k: nat :| Answers(db, c, r, k);
    assert Identity(db'.txs[k], db.txs[k]);
    if Terminal(r.state) {
      assert db'.txs[k] == db.txs[k];
    } else {
      var e :| e in db.outbox && CarriesWait(e, r.tx, r);
      assert e in db'.outbox;
    }
    assert Answers(db', c, r, k);
  }

  lemma ContestedStable(txs: seq<Tx>, txs': seq<Tx>, c: Command)
    requires Extends(txs, txs') && Contested(txs, c)
    ensures Contested(txs', c)
  {
    var k :| 0 <= k < |txs| && Contests(txs[k], c);
    assert Identity(txs'[k], txs[k]);
    assert Contests(txs'[k], c);
  }

  lemma InboxPartStable(db: Db, db': Db, held: set<Resource>, y: Session)
    requires Effects(db, db', held) && y.job.Call? && InboxPart(db, y)
    ensures InboxPart(db', y)
  {
  }

  /** Events that appear meanwhile belong to aggregates other sessions have locked. */
  lemma DrawnStable(db: Db, db': Db, held: set<Resource>, y: Session, ch: Change, orderings: seq<nat>)
    requires Effects(db, db', held) && y.held !! held && Drawn(db.outbox, db.nextOrdering, ch, orderings)
    requires ch.Settle? ==> TxPk(ch.row.id) in y.held
    requires ch.Settle? ==> || (WalletRow(ch.row.wallet) in y.held && ch.row.wallet in db.wallets)
                            || (WalletPk(ch.row.wallet) in y.held && ch.row.wallet !in db.wallets)
    ensures Drawn(db'.outbox, db'.nextOrdering, ch, orderings)
  {
    if ch.Settle? {
      forall e | e in db'.outbox
        ensures |orderings| > 0 && e.aggregate == TxAggregate(ch.row.id) ==> e.ordering < orderings[0]
        ensures |orderings| > 1 && e.aggregate == WalletAggregate(ch.row.wallet) ==> e.ordering < orderings[1]
      {
        if e !in db.outbox {
          assert e.aggregate != TxAggregate(ch.row.id);
          assert e.aggregate != WalletAggregate(ch.row.wallet);
        }
      }
    }
  }

  // ---------------------------------------------------------------------
  // Calls
  // ---------------------------------------------------------------------

  lemma CallWriteStable(db: Db, db': Db, held: set<Resource>, y: Session, ch: Change)
    requires Effects(db, db', held) && y.held !! held && y.job.Call? && CallWrite(db, y, ch)
    ensures CallWrite(db', y, ch)
  {
    InboxPartStable(db, db', held, y);
    WalletHeldStable(db, db', held, y, y.job.cmd.wallet, ch.wallet);
    NoneCreatedStable(db, db', held, y, y.job.cmd.provider, y.job.cmd.external);
    if ch.row.currency == ch.wallet.currency {
      SoundExtends(db.txs, db'.txs, ch);
    }
  }

  lemma CallWorkStable(db: Db, db': Db, held: set<Resource>, y: Session, work: Work, orderings: seq<nat>)
    requires Effects(db, db', held) && y.held !! held && y.job.Call? && CallWork(db, y, work, orderings)
    ensures CallWork(db', y, work, orderings)
  {
    match work
    case Reply(r) =>
      InboxPartStable(db, db', held, y);
      RepliedStable(db, db', y.job.cmd, r);
    case Write(slot, ch) =>
      CallWriteStable(db, db', held, y, ch);
      DrawnStable(db, db', held, y, ch, orderings);
    case Bare =>
  }

  lemma CallInsertStable(db: Db, db': Db, held: set<Resource>, y: Session)
    requires Effects(db, db', held) && y.held !! held && y.job.Call? && CallOk(db, y) && Inserting(y.pc)
    ensures CallOk(db', y)
  {
    CallWriteStable(db, db', held, y, y.pc.change);
  }

  lemma CallFinishStable(db: Db, db': Db, held: set<Resource>, y: Session)
    requires Effects(db, db', held) && y.held !! held && y.job.Call? && CallOk(db, y)
    requires Finishing(y.pc) || y.pc.AtCommit?
    ensures CallOk(db', y)
  {
    CallWorkStable(db, db', held, y, y.pc.work, y.pc.orderings);
  }

  lemma CallDoneStable(db: Db, db': Db, held: set<Resource>, y: Session)
    requires Effects(db, db', held) && y.job.Call? && CallOk(db, y) && y.pc.Done?
    ensures CallOk(db', y)
  {
    if y.pc.outcome.Ok? {
      RepliedStable(db, db', y.job.cmd, y.pc.outcome.value.value);
    }
  }

  lemma CallEarlyStable(db: Db, db': Db, held: set<Resource>, y: Session)
    requires Effects(db, db', held) && y.held !! held && y.job.Call? && CallOk(db, y)
    requires !Inserting(y.pc) && !Finishing(y.pc) && !y.pc.AtCommit? && !y.pc.Done?
    ensures CallOk(db', y)
  {
    if InboxPart(db, y) {
      InboxPartStable(db, db', held, y);
    }
    if y.pc.AtRecheck? || y.pc.AtDecide? {
      WalletHeldStable(db, db', held, y, y.job.cmd.wallet, y.pc.w);
    }
    if y.pc.AtDecide? {
      NoneCreatedStable(db, db', held, y, y.job.cmd.provider, y.job.cmd.external);
    }
    if y.pc.AtConflict? {
      ContestedStable(db.txs, db'.txs, y.job.cmd);
    }
  }

  lemma CallStable(db: Db, db': Db, held: set<Resource>, y: Session)
    requires Effects(db, db', held) && y.held !! held && y.job.Call? && CallOk(db, y)
    ensures CallOk(db', y)
  {
    if Inserting(y.pc) {
      CallInsertStable(db, db', held, y);
    } else if Finishing(y.pc) || y.pc.AtCommit? {
      CallFinishStable(db, db', held, y);
    } else if y.pc.Done? {
      CallDoneStable(db, db', held, y);
    } else {
      CallEarlyStable(db, db', held, y);
    }
  }

  // ---------------------------------------------------------------------
  // The worker and openings
  // ---------------------------------------------------------------------

  lemma WorkerWriteStable(db: Db, db': Db, held: set<Resource>, y: Session, at: nat, ch: Change)
    requires Effects(db, db', held) && y.held !! held && y.job.Worker? && WorkerWrite(db, y, at, ch)
    ensures WorkerWrite(db', y, at, ch)
  {
    RowStable(db, db', held, y, at);
    if ch.Settle? {
      WalletHeldStable(db, db', held, y, ch.row.wallet, ch.wallet);
      SoundExtends(db.txs, db'.txs, ch);
      if ch.row.code == ReferenceNotFound {
        NoneCreatedStable(db, db', held, y, ch.row.provider, ch.row.ref);
      }
    }
  }

  lemma WorkerWorkStable(db: Db, db': Db, held: set<Resource>, y: Session, work: Work, orderings: seq<nat>)
    requires Effects(db, db', held) && y.held !! held && y.job.Worker? && WorkerWork(db, y, work, orderings)
    ensures WorkerWork(db', y, work, orderings)
  {
    WorkerWriteStable(db, db', held, y, work.slot.value, work.change);
    DrawnStable(db, db', held, y, work.change, orderings);
  }

  lemma WorkerStable(db: Db, db': Db, held: set<Resource>, y: Session)
    requires Effects(db, db', held) && y.held !! held && y.job.Worker? && WorkerOk(db, y)
    ensures WorkerOk(db', y)
  {
    match y.pc
    case AtReference(at, _) => RowStable(db, db', held, y, at);
    case AtResolve(at, _) => RowStable(db, db', held, y, at);
    case AtSettle(at, t, resolution) =>
      RowStable(db, db', held, y, at);
      PromisedExtends(db.txs, db'.txs, t, resolution);
      if resolution == Wait(ReferenceNotFound) {
        NoneCreatedStable(db, db', held, y, t.provider, t.ref);
      }
    case AtTouch(at, _, ch) => RowStable(db, db', held, y, at); WorkerWriteStable(db, db', held, y, at, ch);
    case AtSlot(slot, ch) => WorkerWriteStable(db, db', held, y, slot.value, ch);
    case AtDraw(work, orderings) => WorkerWorkStable(db, db', held, y, work, orderings);
    case AtComplete(work, orderings) => WorkerWorkStable(db, db', held, y, work, orderings);
    case AtCommit(work, orderings) => WorkerWorkStable(db, db', held, y, work, orderings);
    case _ =>
  }

  lemma OpenWorkStable(db: Db, db': Db, held: set<Resource>, y: Session, work: Work, orderings: seq<nat>)
    requires Effects(db, db', held) && y.held !! held && y.job.Open? && HeldOk(db, y) && OpenWork(db, y, work, orderings)
    ensures OpenWork(db', y, work, orderings)
  {
    if work.Write? {
      assert Guarded(db, WalletPk(y.job.id), Own(y));
      DrawnStable(db, db', held, y, work.change, orderings);
    }
  }

  lemma OpenStable(db: Db, db': Db, held: set<Resource>, y: Session)
    requires Effects(db, db', held) && y.held !! held && y.job.Open? && HeldOk(db, y) && OpenOk(db, y)
    ensures OpenOk(db', y)
  {
    match y.pc
    case AtDraw(work, orderings) => OpenWorkStable(db, db', held, y, work, orderings);
    case AtComplete(work, orderings) => OpenWorkStable(db, db', held, y, work, orderings);
    case AtCommit(work, orderings) => OpenWorkStable(db, db', held, y, work, orderings);
    case _ =>
  }

  /** Whatever another session does under its own locks, this session's facts still hold. */
  lemma SessionStable(db: Db, db': Db, held: set<Resource>, y: Session)
    requires Effects(db, db', held) && y.held !! held && SessionOk(db, y)
    ensures SessionOk(db', y)
  {
    HeldStable(db, db', held, y);
    match y.job
    case Call(_, _, _) => CallStable(db, db', held, y);
    case Worker(_, _, _) => WorkerStable(db, db', held, y);
    case Open(_, _, _, _) => OpenStable(db, db', held, y);
  }
}
