/** What the service decides to write is sound, and stays sound while others commit. */
module Decisions {
  import opened Prelude
  import opened Monetary
  import opened Tables
  import opened Domain
  import opened Engine
  import opened TxFacts
  import opened Invariants

  /** A decided change does not age: later commits leave what it relied on in place. */
  lemma SoundExtends(txs: seq<Tx>, txs': seq<Tx>, ch: Change)
    requires Sound(txs, ch) && Extends(txs, txs') && UniqueKeys(txs')
    ensures Sound(txs', ch)
  {
    var row := ch.row;
    if row.state.Processed? && IsReversal(row.kind) {
      RefersToExtends(txs, txs', row);
      var k := RefIndex(txs, row).value;
      assert txs'[k] == txs[k];
    }
  }

  /** The wallet facts a decision relies on. */
  predicate Readable(w: Wallet) {
    w.player != "" && ValidCurrency(w.currency) && 0 <= w.balance <= MAX_INT64
  }

  /** The outcome of an operation: a rejection that moves nothing, or a movement that balances. */
  lemma OperateOutcome(c: Command, w: Wallet, refKind: Option<Kind>)
    requires Readable(w) && c.amount.currency == w.currency && ExternalKind(c.kind) && ValidAmount(c.kind, c.amount)
    requires c.amount.minor <= MAX_INT64 && (c.kind.Rollback? ==> refKind.Some?)
    ensures var plan := Operate(c, w, refKind); var direction := DirectionFor(c.kind, if refKind.Some? then refKind.value else c.kind);
            && plan.Persist? && plan.result.tx == c.id && plan.result.amount == c.amount
            && (plan.result.state.Processed? || plan.result.state.Rejected?)
            && (plan.move.Some? <==> plan.result.state.Processed? && !c.kind.Loss?)
            && (plan.move.Some? ==> plan.move.value == direction && plan.result.balance <= MAX_INT64
                                    && Balances(direction, c.amount.minor, w.balance, plan.result.balance))
            && (plan.move.None? ==> plan.result.balance == w.balance)
  {
  }

  /** The errors a decision can end with: a stored row or a command the constructors refuse, a missing reference kind. */
  predicate DecisionError(e: Error) {
    e.InvalidStoredMoney? || e.InvalidStoredWallet? || e.InvalidReference? || e.InvalidTransaction?
  }

  lemma OperateErrors(c: Command, w: Wallet, refKind: Option<Kind>)
    requires IsInt64(c.amount.minor)
    ensures Operate(c, w, refKind).Refuse? ==> DecisionError(Operate(c, w, refKind).error)
  {
  }

  lemma DecideErrors(c: Command, w: Wallet, reference: Option<Tx>)
    requires IsInt64(c.amount.minor)
    ensures Decide(c, w, reference).Refuse? ==> DecisionError(Decide(c, w, reference).error)
  {
    hide Operate, DecisionError;
    ConstructorError();
    OperateErrors(c, w, None);
    if reference.Some? {
      OperateErrors(c, w, Some(reference.value.kind));
    }
  }

  lemma ConstructorError()
    ensures DecisionError(InvalidTransaction) && DecisionError(InvalidStoredMoney)
  {
  }

  lemma ConcludeErrors(t: Tx, w: Wallet, resolution: Resolution)
    ensures Conclude(t, w, resolution).Refuse? ==> DecisionError(Conclude(t, w, resolution).error)
  {
    hide Operate, DecisionError;
    ConstructorError();
    if FromMinor(t.amount, t.currency).Some? && resolution.Carry? {
      OperateErrors(CommandOf(t), w, Some(resolution.kind));
    }
  }

  /** What processInTx decides is sound for the table it looked the reference up in. */
  lemma DecideSound(txs: seq<Tx>, c: Command, w: Wallet, now: int)
    requires Prepared(c) && Readable(w) && c.amount.currency == w.currency
    requires Decide(c, w, LookupExternal(txs, c.provider, c.ref)).Persist?
    ensures var plan := Decide(c, w, LookupExternal(txs, c.provider, c.ref));
            Sound(txs, Settle(NewRow(c, plan.result, now), plan.result, w, plan.move))
  {
    var reference := LookupExternal(txs, c.provider, c.ref);
    var plan := Decide(c, w, reference);
    var row := NewRow(c, plan.result, now);
    assert CommandOf(row) == c;
    if c.player == w.player {
      if IsReversal(c.kind) && reference.Some? && ValidReference(c, reference.value) {
        OperateOutcome(c, w, Some(reference.value.kind));
      } else if !IsReversal(c.kind) {
        OperateOutcome(c, w, None);
      }
    }
  }

  /** What a resolution still promises about the table, however much was committed since. */
  predicate Promised(txs: seq<Tx>, t: Tx, resolution: Resolution) {
    resolution.Carry? ==> RefersTo(txs, t) && txs[RefIndex(txs, t).value].kind == resolution.kind
  }

  lemma ResolvePromises(txs: seq<Tx>, t: Tx)
    ensures Promised(txs, t, Resolve(t, LookupExternal(txs, t.provider, t.ref)))
  {
  }

  lemma PromisedExtends(txs: seq<Tx>, txs': seq<Tx>, t: Tx, resolution: Resolution)
    requires Promised(txs, t, resolution) && Extends(txs, txs') && UniqueKeys(txs')
    ensures Promised(txs', t, resolution)
  {
    if resolution.Carry? {
      RefersToExtends(txs, txs', t);
      var k := RefIndex(txs, t).value;
      assert txs'[k] == txs[k];
    }
  }

  /** What the worker concludes is sound as long as the resolution's promise holds. */
  lemma ConcludeSound(wallets: map<Id, Wallet>, txs: seq<Tx>, t: Tx, resolution: Resolution, w: Wallet)
    requires RowOk(wallets, t) && t.state.PendingReference? && Readable(w) && t.currency == w.currency
    requires Promised(txs, t, resolution)
    ensures var plan := Conclude(t, w, resolution);
            && plan.Persist? && Terminal(plan.result.state)
            && Sound(txs, Settle(SettledRow(CountedRow(t, resolution), plan.result), plan.result, w, plan.move))
  {
    var c := CommandOf(t);
    if resolution.Carry? {
      OperateOutcome(c, w, Some(resolution.kind));
    }
    var plan := Conclude(t, w, resolution);
    var row := SettledRow(CountedRow(t, resolution), plan.result);
    assert CommandOf(row) == c;
    assert RefIndex(txs, row) == RefIndex(txs, t);
  }
}
