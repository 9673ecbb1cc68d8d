/** Events, inbox and wallet openings across a commit; the invariant as a whole. */
module CommitEvents {
  import opened Prelude
  import opened Monetary
  import opened Tables
  import opened Domain
  import opened Engine
  import opened TxFacts
  import opened Conservation
  import opened Invariants
  import opened Commits

  // ---------------------------------------------------------------------
  // Events
  // ---------------------------------------------------------------------

  lemma EventsForAppend(outbox: seq<Event>, e: Event, a: Aggregate)
    ensures EventsFor(outbox + [e], a) == if e.aggregate == a then EventsFor(outbox, a) + [e] else EventsFor(outbox, a)
  {
    assert (outbox + [e])[..|outbox|] == outbox;
  }

  /** What a settled change adds to the events of each aggregate. */
  lemma EventsForCommit(outbox: seq<Event>, ch: Change, orderings: seq<nat>, a: Aggregate)
    requires ch.Settle? && |orderings| == EventCount(ch)
    ensures EventsFor(outbox + Events(ch, orderings), a) ==
              if a == TxAggregate(ch.row.id) then EventsFor(outbox, a) + [Events(ch, orderings)[0]]
              else if ch.move.Some? && a == WalletAggregate(ch.row.wallet) then EventsFor(outbox, a) + [Events(ch, orderings)[1]]
              else EventsFor(outbox, a)
  {
    var es := Events(ch, orderings);
    EventsForAppend(outbox, es[0], a);
    if ch.move.Some? {
      EventsForAppend(outbox + [es[0]], es[1], a);
      assert outbox + es == outbox + [es[0]] + [es[1]];
    } else {
      assert outbox + es == outbox + [es[0]];
    }
  }

  /** The written row's own history: its first event, or its terminal event after the waiting one. */
  lemma RowHistory(txs: seq<Tx>, slot: Option<nat>, ch: Change, orderings: seq<nat>, events: seq<Event>)
    requires ch.Settle? && Sound(txs, ch) && |orderings| == EventCount(ch)
    requires slot.None? ==> events == []
    requires slot.Some? ==> slot.value < |txs| && Identity(ch.row, txs[slot.value]) && Terminal(ch.row.state)
                            && txs[slot.value].state.PendingReference? && HistoryOk(txs[slot.value], events)
    ensures HistoryOk(ch.row, events + [Events(ch, orderings)[0]])
  {
    SoundReplays(txs, ch);
  }

  lemma SettleTxEvents(db: Db, slot: Option<nat>, ch: Change, orderings: seq<nat>)
    requires UniqueKeys(db.txs) && TxEventsOk(db.txs, db.outbox)
    requires ch.Settle? && ChangeOk(db, slot, ch) && |orderings| == EventCount(ch)
    ensures var db' := Commit(db, slot, ch, orderings); TxEventsOk(db'.txs, db'.outbox)
  {
    var db' := Commit(db, slot, ch, orderings);
    var n := Position(db.txs, slot);
    PutKeeps(db.txs, slot, ch.row);
    PutOthers(db.txs, slot, ch.row);
    forall k | 0 <= k < |db'.txs|
      ensures HistoryOk(db'.txs[k], EventsFor(db'.outbox, TxAggregate(db'.txs[k].id)))
    {
      var a := TxAggregate(db'.txs[k].id);
      EventsForCommit(db.outbox, ch, orderings, a);
      if k == n {
        RowHistory(db.txs, slot, ch, orderings, EventsFor(db.outbox, a));
      } else {
        assert db'.txs[k] == db.txs[k] && db'.txs[n].id == ch.row.id;
      }
    }
    forall id: Id | forall k :: 0 <= k < |db'.txs| ==> db'.txs[k].id != id
      ensures EventsFor(db'.outbox, TxAggregate(id)) == []
    {
      assert db'.txs[n].id == ch.row.id;
      forall k | 0 <= k < |db.txs|
        ensures db.txs[k].id != id
      {
        assert db'.txs[k].id == db.txs[k].id;
      }
      EventsForCommit(db.outbox, ch, orderings, TxAggregate(id));
    }
  }

  /** The balance event of a change reports its entry under the version it produces. */
  lemma BalanceEventReports(txs: seq<Tx>, ch: Change, ordering: nat)
    requires ch.Settle? && Sound(txs, ch) && ch.move.Some?
    ensures Reports(BalanceEvent(ch, ordering), EntryOf(ch), ch.wallet.version + 1)
  {
  }

  lemma ReportsAllAppend(events: seq<Event>, entries: seq<Entry>, base: int, ev: Event, e: Entry)
    requires ReportsAll(events, entries, base) && Reports(ev, e, |entries| + 1 + base)
    ensures ReportsAll(events + [ev], entries + [e], base)
  {
  }

  /** A wallet's balance events keep reporting its entries, one version each. */
  lemma SettleWalletEvents(db: Db, slot: Option<nat>, ch: Change, orderings: seq<nat>, w: Id)
    requires ch.Settle? && Fits(db.txs, slot, ch.row) && Sound(db.txs, ch) && !ch.row.kind.Opening? && |orderings| == EventCount(ch)
    requires w == ch.row.wallet ==> ch.wallet.version == |EntriesOf(db.ledger, w)| + Base(db.txs, w)
    requires ReportsAll(EventsFor(db.outbox, WalletAggregate(w)), EntriesOf(db.ledger, w), Base(db.txs, w))
    ensures var db' := Commit(db, slot, ch, orderings);
            ReportsAll(EventsFor(db'.outbox, WalletAggregate(w)), EntriesOf(db'.ledger, w), Base(db'.txs, w))
  {
    var events, entries := EventsFor(db.outbox, WalletAggregate(w)), EntriesOf(db.ledger, w);
    EventsForCommit(db.outbox, ch, orderings, WalletAggregate(w));
    BaseStable(db.txs, slot, ch.row, w);
    if ch.move.Some? {
      AppendEntry(db.ledger, EntryOf(ch), w);
      if w == ch.row.wallet {
        BalanceEventReports(db.txs, ch, orderings[1]);
        ReportsAllAppend(events, entries, Base(db.txs, w), BalanceEvent(ch, orderings[1]), EntryOf(ch));
      }
    }
  }

  lemma SettleAllWalletEvents(db: Db, slot: Option<nat>, ch: Change, orderings: seq<nat>)
    requires WalletInv(db.wallets, db.txs, db.ledger) && WalletEventsOk(db.wallets, db.txs, db.ledger, db.outbox)
    requires ch.Settle? && ChangeOk(db, slot, ch) && !ch.row.kind.Opening? && |orderings| == EventCount(ch)
    ensures var db' := Commit(db, slot, ch, orderings); WalletEventsOk(db'.wallets, db'.txs, db'.ledger, db'.outbox)
  {
    var db' := Commit(db, slot, ch, orderings);
    forall w: Id
      ensures if w in db'.wallets
              then ReportsAll(EventsFor(db'.outbox, WalletAggregate(w)), EntriesOf(db'.ledger, w), Base(db'.txs, w))
              else EventsFor(db'.outbox, WalletAggregate(w)) == []
    {
      if w in db.wallets {
        assert WalletOk(db.txs, db.ledger, w, db.wallets[w]);
        SettleWalletEvents(db, slot, ch, orderings, w);
      } else {
        EventsForCommit(db.outbox, ch, orderings, WalletAggregate(w));
      }
    }
  }

  lemma SettleOrdering(outbox: seq<Event>, next: nat, ch: Change, orderings: seq<nat>)
    requires OrderingInv(outbox, next) && OrderingsOk(outbox, next, ch, orderings)
    ensures OrderingInv(outbox + Events(ch, orderings), next)
  {
    var es := Events(ch, orderings);
    var outbox' := outbox + es;
    forall i, j | 0 <= i < j < |outbox'| && outbox'[i].aggregate == outbox'[j].aggregate
      ensures outbox'[i].ordering < outbox'[j].ordering
    {
      if j >= |outbox| && i < |outbox| {
        assert outbox[i] in outbox;
      }
    }
  }

  lemma HasHashExtends(txs: seq<Tx>, txs': seq<Tx>, hash: string)
    requires Extends(txs, txs') && HasHash(txs, hash)
    ensures HasHash(txs', hash)
  {
    var k :| 0 <= k < |txs| && !txs[k].kind.Opening? && txs[k].hash == hash;
    assert Identity(txs'[k], txs[k]);
    assert !txs'[k].kind.Opening? && txs'[k].hash == hash;
  }

  lemma InboxExtends(inbox: map<InboxKey, InboxRow>, txs: seq<Tx>, txs': seq<Tx>)
    requires InboxInv(inbox, txs) && Extends(txs, txs')
    ensures InboxInv(inbox, txs')
  {
    forall m | m in inbox
      ensures HasHash(txs', inbox[m].hash)
    {
      HasHashExtends(txs, txs', inbox[m].hash);
    }
  }

  // ---------------------------------------------------------------------
  // The invariant across a commit
  // ---------------------------------------------------------------------

  lemma SettleOwners(wallets: map<Id, Wallet>, id: Id, w: Wallet)
    requires OwnersInv(wallets) && id in wallets && w.player == wallets[id].player && w.currency == wallets[id].currency
    ensures OwnersInv(wallets[id := w])
  {
  }

  /** A settled change keeps the invariant. */
  lemma SettleKeeps(db: Db, slot: Option<nat>, ch: Change, orderings: seq<nat>)
    requires Inv(db) && ch.Settle? && ChangeOk(db, slot, ch) && !ch.row.kind.Opening?
    requires OrderingsOk(db.outbox, db.nextOrdering, ch, orderings)
    ensures Inv(Commit(db, slot, ch, orderings))
  {
    SettleCore(db, slot, ch, orderings);
    SettleTxEvents(db, slot, ch, orderings);
    SettleAllWalletEvents(db, slot, ch, orderings);
    SettleOrdering(db.outbox, db.nextOrdering, ch, orderings);
    PutKeeps(db.txs, slot, ch.row);
    InboxExtends(db.inbox, db.txs, Put(db.txs, slot, ch.row));
    SettleOwners(db.wallets, ch.row.wallet, ch.wallet.(balance := ch.result.balance, version := ch.wallet.version + 1));
  }

  /** Postponing a retry touches no event. */
  lemma PostponeEvents(txs: seq<Tx>, outbox: seq<Event>, i: nat, row: Tx)
    requires TxEventsOk(txs, outbox) && i < |txs| && txs[i].state.PendingReference?
    requires row == txs[i].(attempts := row.attempts, nextAttempt := row.nextAttempt)
    ensures TxEventsOk(txs[i := row], outbox)
  {
    var txs' := txs[i := row];
    assert forall k :: 0 <= k < |txs| ==> txs'[k].id == txs[k].id;
    forall id: Id | forall k :: 0 <= k < |txs'| ==> txs'[k].id != id
      ensures EventsFor(outbox, TxAggregate(id)) == []
    {
      forall k | 0 <= k < |txs|
        ensures txs[k].id != id
      {
        assert txs'[k].id != id;
      }
    }
  }

  lemma PostponeWalletEvents(db: Db, i: nat, row: Tx)
    requires WalletEventsOk(db.wallets, db.txs, db.ledger, db.outbox) && Fits(db.txs, Some(i), row)
    ensures WalletEventsOk(db.wallets, Put(db.txs, Some(i), row), db.ledger, db.outbox)
  {
    forall w: Id
      ensures Base(Put(db.txs, Some(i), row), w) == Base(db.txs, w)
    {
      BaseStable(db.txs, Some(i), row, w);
    }
  }

  lemma PostponeFits(db: Db, slot: Option<nat>, ch: Change)
    requires ch.Postpone? && ChangeOk(db, slot, ch)
    ensures Fits(db.txs, slot, ch.row)
  {
  }

  lemma PostponeRest(db: Db, slot: Option<nat>, ch: Change)
    requires UniqueKeys(db.txs) && WalletEventsOk(db.wallets, db.txs, db.ledger, db.outbox) && InboxInv(db.inbox, db.txs)
    requires ch.Postpone? && ChangeOk(db, slot, ch)
    ensures WalletEventsOk(db.wallets, Put(db.txs, slot, ch.row), db.ledger, db.outbox)
    ensures InboxInv(db.inbox, Put(db.txs, slot, ch.row))
  {
    PostponeFits(db, slot, ch);
    PostponeWalletEvents(db, slot.value, ch.row);
    PutKeeps(db.txs, slot, ch.row);
    InboxExtends(db.inbox, db.txs, Put(db.txs, slot, ch.row));
  }

  lemma PostponeShape(db: Db, slot: Option<nat>, ch: Change)
    requires ch.Postpone? && slot.Some? && slot.value < |db.txs|
    ensures Commit(db, slot, ch, []) == db.(txs := Put(db.txs, slot, ch.row))
  {
    assert db.outbox + [] == db.outbox;
  }

  lemma PostponeKeeps(db: Db, slot: Option<nat>, ch: Change)
    requires Inv(db) && ch.Postpone? && ChangeOk(db, slot, ch)
    ensures Inv(Commit(db, slot, ch, []))
  {
    PostponeShape(db, slot, ch);
    PostponeCore(db, slot, ch);
    PostponeEvents(db.txs, db.outbox, slot.value, ch.row);
    PostponeRest(db, slot, ch);
  }

  /**
   Any change that met its conditions keeps the whole invariant: this is the
   step both the sequential operations and every interleaving rely on.
   */
  lemma CommitKeeps(db: Db, slot: Option<nat>, ch: Change, orderings: seq<nat>)
    requires Inv(db) && ChangeOk(db, slot, ch) && !ch.row.kind.Opening? && OrderingsOk(db.outbox, db.nextOrdering, ch, orderings)
    ensures Inv(Commit(db, slot, ch, orderings))
    ensures Extends(db.txs, Commit(db, slot, ch, orderings).txs)
  {
    ChangeWritten(db, slot, ch);
    PutKeeps(db.txs, slot, ch.row);
    if ch.Settle? {
      SettleKeeps(db, slot, ch, orderings);
    } else {
      assert orderings == [];
      PostponeKeeps(db, slot, ch);
    }
  }
}
