/**
 Two reversals that wait for the same reference: the worker processes one of
 them and can never process the other. First in general, then from empty tables.
 */
module Scenarios {
  import opened Prelude
  import opened Monetary
  import opened Tables
  import opened Domain
  import opened Engine
  import opened TxFacts
  import opened Invariants
  import Decisions
  import opened Operations
  import opened OperationProofs
  import opened AtomicRuns

  // ---------------------------------------------------------------------
  // In general
  // ---------------------------------------------------------------------

  predicate SlotOpen(txs: seq<Tx>, t: Tx) {
    IndexBySlot(txs, t.provider, t.ref).None?
  }

  /** The wallet has moved by the row's amount, one way or the other. */
  predicate Moved(db: Db, db': Db, t: Tx) {
    && t.wallet in db.wallets && t.wallet in db'.wallets
    && var w, w' := db.wallets[t.wallet], db'.wallets[t.wallet];
       && w' == w.(balance := w'.balance, version := w.version + 1)
       && (w'.balance == w.balance + t.amount || w'.balance == w.balance - t.amount)
       && (t.kind.Refund? ==> w'.balance == w.balance + t.amount)
  }

  /** A reversal whose operation would succeed is processed as long as its slot is free. */
  lemma FreeSlotProcesses(db: Db, i: nat, now: int, max: nat, backoff: int)
    requires Inv(db) && i < |db.txs| && db.txs[i].state.PendingReference? && WouldSucceed(db, db.txs[i]) && SlotOpen(db.txs, db.txs[i])
    ensures WorkerTx(db, i, now, max, backoff).Ok?
    ensures var db' := WorkerTx(db, i, now, max, backoff).value.db;
            && Inv(db') && Moved(db, db', db.txs[i]) && |db'.txs| == |db.txs| && (forall k :: 0 <= k < |db.txs| && k != i ==> db'.txs[k] == db.txs[k])
            && HoldsSlot(db'.txs[i], db.txs[i].provider, db.txs[i].ref)
  {
    hide Inv, Operate;
    var t := db.txs[i];
    var resolution := Resolve(t, LookupExternal(db.txs, t.provider, t.ref));
    PendingRowFacts(db, i);
    WorkerFailsExactly(db, i, now, max, backoff);
    WorkerKeeps(db, i, now, max, backoff);
    ConcludingStep(db, i, now, max, backoff);
    CarriedRow(db, i);
  }

  /** What the worker leaves of the table when it carries a reversal out. */
  lemma CarriedRow(db: Db, i: nat)
    requires Inv(db) && i < |db.txs| && db.txs[i].state.PendingReference? && WouldSucceed(db, db.txs[i])
    requires ConcludeTx(db, i, Resolve(db.txs[i], LookupExternal(db.txs, db.txs[i].provider, db.txs[i].ref))).Ok?
    ensures var db' := ConcludeTx(db, i, Resolve(db.txs[i], LookupExternal(db.txs, db.txs[i].provider, db.txs[i].ref))).value.db;
            var txs' := db'.txs;
            && Moved(db, db', db.txs[i]) && |txs'| == |db.txs| && (forall k :: 0 <= k < |db.txs| && k != i ==> txs'[k] == db.txs[k])
            && HoldsSlot(txs'[i], db.txs[i].provider, db.txs[i].ref)
  {
    hide Inv, ChangeOk;
    var t := db.txs[i];
    var resolution := Resolve(t, LookupExternal(db.txs, t.provider, t.ref));
    PendingRowFacts(db, i);
    Decisions.ResolvePromises(db.txs, t);
    var ch := ConcludedOk(db, i, resolution);
    ConcludeTxIs(db, i, resolution, ch.result, ch.move);
    assert ch.row == t.(state := ch.row.state, result := ch.row.result, nextAttempt := None, code := ch.row.code);
    CarriedMoves(db, i, ch);
  }

  lemma CarriedMoves(db: Db, i: nat, ch: Change)
    requires i < |db.txs| && ch.Settle? && ChangeOk(db, Some(i), ch) && ch.row.state.Processed?
    requires ch.row.kind == db.txs[i].kind && ch.row.wallet == db.txs[i].wallet && ch.row.amount == db.txs[i].amount
    ensures Moved(db, CommitNext(db, Some(i), ch), db.txs[i])
  {
    hide Fits;
  }

  /**
   Of two reversals waiting for one reference, a step on the first processes it
   and supersedes the second; from then on, whatever operations run, the second
   is never processed, and a step on it fails exactly when its operation would
   succeed.
   */
  lemma SecondReversalStuck(db: Db, i: nat, j: nat, now: int, max: nat, backoff: int, ops: seq<Operation>, later: int)
    requires Inv(db) && i < |db.txs| && j < |db.txs| && i != j && AllAdmitted(ops)
    requires db.txs[i].state.PendingReference? && db.txs[j].state.PendingReference?
    requires db.txs[i].provider == db.txs[j].provider && db.txs[i].ref == db.txs[j].ref
    requires WouldSucceed(db, db.txs[i]) && SlotOpen(db.txs, db.txs[i])
    ensures WorkerTx(db, i, now, max, backoff).Ok?
    ensures var after := AfterAll(WorkerTx(db, i, now, max, backoff).value.db, ops);
            && j < |after.txs| && !after.txs[j].state.Processed?
            && (after.txs[j].state.PendingReference? ==>
                  (WorkerTx(after, j, later, max, backoff) == Err(Violation(ReversalIndex)) <==> WouldSucceed(after, after.txs[j])))
  {
    hide Inv, WouldSucceed, WorkerTx;
    FreeSlotProcesses(db, i, now, max, backoff);
    var db' := WorkerTx(db, i, now, max, backoff).value.db;
    PendingRowFacts(db, j);
    assert Superseded(db'.txs, j);
    StuckAfter(db', j, ops, later, max, backoff);
  }

  lemma StuckAfter(db: Db, j: nat, ops: seq<Operation>, later: int, max: nat, backoff: int)
    requires Inv(db) && AllAdmitted(ops) && Superseded(db.txs, j)
    ensures var after := AfterAll(db, ops);
            && j < |after.txs| && !after.txs[j].state.Processed?
            && (after.txs[j].state.PendingReference? ==>
                  (WorkerTx(after, j, later, max, backoff) == Err(Violation(ReversalIndex)) <==> WouldSucceed(after, after.txs[j])))
  {
    hide WouldSucceed, WorkerTx;
    OperationsKeep(db, ops);
    var after := AfterAll(db, ops);
    SupersededExtends(db.txs, after.txs, j);
    if after.txs[j].state.PendingReference? {
      WorkerFailsExactly(after, j, later, max, backoff);
    }
  }

  // ---------------------------------------------------------------------
  // From empty tables
  // ---------------------------------------------------------------------

  /** A command of one player in one round; 40 units of account throughout. */
  ghost function CommandFor(id: Id, external: string, kind: Kind, ref: string): Command {
    var c := Command(id, 1, external, "acme", "p", "dice", "r1", external, "", ref, kind, Money(40, "USD"));
    c.(hash := Digest(PayloadOf(c)))
  }

  /** A reversal that arrives before its reference. */
  lemma ReversalWaits(db: Db, c: Command, w: Wallet)
    requires ValidCommand(c) && TypedMoney(c.amount) && FindExisting(db.txs, c).Missing? && c.wallet in db.wallets && db.wallets[c.wallet] == w
    requires IsReversal(c.kind) && ValidAmount(c.kind, c.amount) && c.amount.currency == w.currency && c.player == w.player && c.ref != ""
    requires IndexByExternal(db.txs, c.provider, c.ref).None?
    ensures Call(db, c, 0).Ok?
    ensures var db' := Call(db, c, 0).value.db; var result := Result(c.id, PendingReference, w.balance, c.amount, NoCode);
            db'.txs == db.txs + [NewRow(c, result, 0)] && db'.wallets == db.wallets
  {
  }

  /** A bet the wallet covers. */
  lemma BetIsProcessed(db: Db, c: Command, w: Wallet)
    requires ValidCommand(c) && TypedMoney(c.amount) && FindExisting(db.txs, c).Missing? && c.wallet in db.wallets && db.wallets[c.wallet] == w
    requires c.kind.Bet? && ValidAmount(c.kind, c.amount) && c.amount.currency == w.currency && c.player == w.player && c.ref == ""
    requires FromMinor(w.balance, w.currency).Some? && c.amount.minor <= w.balance
    ensures Call(db, c, 0).Ok?
    ensures var db' := Call(db, c, 0).value.db; var result := Result(c.id, Processed, w.balance - c.amount.minor, c.amount, NoCode);
            && db'.txs == db.txs + [NewRow(c, result, 0)]
            && db'.wallets == db.wallets[c.wallet := w.(balance := w.balance - c.amount.minor, version := w.version + 1)]
  {
    assert Decide(c, w, LookupExternal(db.txs, c.provider, c.ref)) == Operate(c, w, None);
    assert Operate(c, w, None) == Persist(Result(c.id, Processed, w.balance - c.amount.minor, c.amount, NoCode), Some(Debit));
  }

  lemma WalletOpens()
    ensures var db := After(EmptyDb, Opens(1, 1, "p", Money(100, "USD")));
            db.txs == [OpeningRow(1, 1, "p", Money(100, "USD"))] && db.wallets == map[1 := Wallet("p", "USD", 100, 1)]
  {
    hide OpeningName;
    var db := After(EmptyDb, Opens(1, 1, "p", Money(100, "USD")));
    assert ValidOpening("p", Money(100, "USD"));
    assert Open(EmptyDb, 1, 1, "p", Money(100, "USD")).Ok?;
    assert db.wallets == map[1 := Wallet("p", "USD", 100, 1)];
  }

  /** A wallet of 100; two refunds of the bet "x" arrive first, then the bet itself. */
  ghost function Story(): (ops: seq<Operation>)
    ensures forall i :: 0 <= i < |ops| ==> TypedOperation(ops[i])
  {
    [Opens(1, 1, "p", Money(100, "USD")),
     Calls(CommandFor(2, "a", Refund, "x"), 0), Calls(CommandFor(3, "b", Refund, "x"), 0),
     Calls(CommandFor(4, "x", Bet, ""), 0)]
  }

  function Waiting(c: Command): Tx {
    NewRow(c, Result(c.id, PendingReference, 100, c.amount, NoCode), 0)
  }

  function Standing(c: Command): Tx {
    NewRow(c, Result(c.id, Processed, 60, c.amount, NoCode), 0)
  }

  /** Rows that share nothing with a command leave it unknown. */
  lemma Unknown(txs: seq<Tx>, c: Command)
    requires forall k :: 0 <= k < |txs| ==> txs[k].id != c.id && txs[k].key != c.key && txs[k].external != c.external
    ensures FindExisting(txs, c).Missing?
  {
  }

  lemma OpeningDiffers(name: string)
    requires |name| == 1
    ensures OpeningName(1) != name
  {
    assert |OpeningName(1)| >= |"opening-"|;
  }

  /** An early refund of "x" joins the table. */
  lemma RefundArrives(db: Db, id: Id, external: string)
    requires id > 0 && |external| == 1 && external != "x" && db.wallets == map[1 := Wallet("p", "USD", 100, 1)]
    requires forall k :: 0 <= k < |db.txs| ==> db.txs[k].id != id && db.txs[k].key != external && db.txs[k].external != external && db.txs[k].external != "x"
    ensures var db' := After(db, Calls(CommandFor(id, external, Refund, "x"), 0));
            db'.txs == db.txs + [Waiting(CommandFor(id, external, Refund, "x"))] && db'.wallets == db.wallets
  {
    hide Digest, Call, FindExisting;
    Unknown(db.txs, CommandFor(id, external, Refund, "x"));
    ReversalWaits(db, CommandFor(id, external, Refund, "x"), db.wallets[1]);
  }

  /** The bet "x" joins the table. */
  lemma BetArrives(db: Db, id: Id)
    requires id > 0 && db.wallets == map[1 := Wallet("p", "USD", 100, 1)]
    requires forall k :: 0 <= k < |db.txs| ==> db.txs[k].id != id && db.txs[k].key != "x" && db.txs[k].external != "x"
    ensures var db' := After(db, Calls(CommandFor(id, "x", Bet, ""), 0));
            db'.txs == db.txs + [Standing(CommandFor(id, "x", Bet, ""))] && db'.wallets == map[1 := Wallet("p", "USD", 60, 2)]
  {
    hide Digest, Call, FindExisting;
    Unknown(db.txs, CommandFor(id, "x", Bet, ""));
    assert ValidCurrency("USD");
    BetIsProcessed(db, CommandFor(id, "x", Bet, ""), db.wallets[1]);
  }

  lemma StoryTables()
    ensures var db := AfterAll(EmptyDb, Story());
            && db.txs == [OpeningRow(1, 1, "p", Money(100, "USD")), Waiting(CommandFor(2, "a", Refund, "x")),
                          Waiting(CommandFor(3, "b", Refund, "x")), Standing(CommandFor(4, "x", Bet, ""))]
            && db.wallets == map[1 := Wallet("p", "USD", 60, 2)]
  {
    hide Digest, OpeningName, After, MarshalResult;
    OpeningDiffers("a");
    OpeningDiffers("b");
    OpeningDiffers("x");
    WalletOpens();
    var db1 := After(EmptyDb, Story()[0]);
    RefundArrives(db1, 2, "a");
    var db2 := After(db1, Story()[1]);
    RefundArrives(db2, 3, "b");
    var db3 := After(db2, Story()[2]);
    BetArrives(db3, 4);
    Unfolds(Story(), db1, db2, db3);
  }

  lemma Unfolds(ops: seq<Operation>, db1: Db, db2: Db, db3: Db)
    requires |ops| == 4 && (forall i :: 0 <= i < 4 ==> TypedOperation(ops[i]))
    requires db1 == After(EmptyDb, ops[0]) && db2 == After(db1, ops[1]) && db3 == After(db2, ops[2])
    ensures AfterAll(EmptyDb, ops) == After(db3, ops[3])
  {
    hide After;
    assert AfterAll(EmptyDb, []) == EmptyDb;
    assert ops[..1][..0] == [];
    assert AfterAll(EmptyDb, ops[..1]) == db1;
    assert ops[..2][..1] == ops[..1];
    assert AfterAll(EmptyDb, ops[..2]) == db2;
    assert ops[..3][..2] == ops[..2];
    assert AfterAll(EmptyDb, ops[..3]) == db3;
  }

  lemma StoryAdmitted()
    ensures AllAdmitted(Story())
  {
    hide Digest;
    var c, d, e := CommandFor(2, "a", Refund, "x"), CommandFor(3, "b", Refund, "x"), CommandFor(4, "x", Bet, "");
    assert PayloadOf(c) == PayloadOf(c.(hash := "")) && PayloadOf(d) == PayloadOf(d.(hash := "")) && PayloadOf(e) == PayloadOf(e.(hash := ""));
  }

  /** While the bet stands in the table, a refund of it would succeed on a wallet with room for it. */
  lemma RefundWouldSucceed(db: Db, c: Command, k: nat)
    requires c == CommandFor(c.id, c.external, Refund, "x") && UniqueKeys(db.txs)
    requires k < |db.txs| && db.txs[k] == Standing(CommandFor(4, "x", Bet, ""))
    requires 1 in db.wallets && db.wallets[1].player == "p" && db.wallets[1].currency == "USD" && 0 <= db.wallets[1].balance <= 1000
    ensures WouldSucceed(db, Waiting(c))
  {
    hide Digest;
    ExternalIs(db.txs, "acme", "x", k);
    var t, w := Waiting(c), db.wallets[1];
    assert Resolve(t, LookupExternal(db.txs, t.provider, t.ref)) == Carry(Bet);
    assert ValidCurrency("USD");
    assert Operate(CommandOf(t), w, Some(Bet)).result.state.Processed?;
  }

  /** The worker refunds row 1, and its step on row 2 then fails at the reversal index and leaves every table. */
  ghost predicate SecondRefundFails(db: Db) {
    |db.txs| > 2 &&
    var first := WorkerTx(db, 1, 0, 3, 0);
    && first.Ok? && |first.value.db.txs| > 2 && first.value.db.txs[1].state.Processed?
    && WorkerTx(first.value.db, 2, 0, 3, 0) == Err(Violation(ReversalIndex))
    && After(first.value.db, Resolves(2, 0, 3, 0)) == first.value.db
  }

  /** From empty tables, by operations every caller may ask for. */
  lemma TwoRefundsOfOneBet()
    ensures AllAdmitted(Story()) && SecondRefundFails(AfterAll(EmptyDb, Story()))
  {
    hide Inv, WorkerTx, Digest, OpeningName, Story, MarshalResult, AllAdmitted;
    StoryAdmitted();
    AtomicRunSound(Story());
    StoryTables();
    RefundsClash(AfterAll(EmptyDb, Story()), OpeningRow(1, 1, "p", Money(100, "USD")));
  }

  lemma RefundsClash(db: Db, opening: Tx)
    requires Inv(db) && db.wallets == map[1 := Wallet("p", "USD", 60, 2)] && opening.ref == ""
    requires db.txs == [opening, Waiting(CommandFor(2, "a", Refund, "x")), Waiting(CommandFor(3, "b", Refund, "x")), Standing(CommandFor(4, "x", Bet, ""))]
    ensures SecondRefundFails(db)
  {
    hide Inv, WorkerTx, WouldSucceed, Digest, MarshalResult, AllAdmitted;
    SoundKeys(db);
    RefundWouldSucceed(db, CommandFor(2, "a", Refund, "x"), 3);
    FreeSlotProcesses(db, 1, 0, 3, 0);
    var db' := WorkerTx(db, 1, 0, 3, 0).value.db;
    SoundKeys(db');
    RefundWouldSucceed(db', CommandFor(3, "b", Refund, "x"), 3);
    NothingAdmitted();
    SecondReversalStuck(db, 1, 2, 0, 3, 0, [], 0);
    assert AfterAll(db', []) == db';
  }

  lemma NothingAdmitted()
    ensures AllAdmitted([])
  {
  }

  lemma SoundKeys(db: Db)
    requires Inv(db)
    ensures UniqueKeys(db.txs)
  {
  }

  // ---------------------------------------------------------------------
  // One message id, two payloads
  // ---------------------------------------------------------------------

  /** From empty tables: a bet arrives as a message, and then another bet under the same message id. */
  lemma MessageIdReused(m: InboxKey)
    ensures var c, d := CommandFor(2, "a", Bet, ""), CommandFor(3, "b", Bet, "");
            var db := After(EmptyDb, Opens(1, 1, "p", Money(100, "USD")));
            var first := Message(db, m, c.hash, c, 0);
            && first.Ok?
            && (Message(first.value.0.db, m, d.hash, d, 0) == Err(InboxPayloadMismatch) <==> Digest(PayloadOf(c)) != Digest(PayloadOf(d)))
  {
    hide Digest, OpeningName, Call, CallTx, FindExisting, Message;
    var c, d := CommandFor(2, "a", Bet, ""), CommandFor(3, "b", Bet, "");
    var db := After(EmptyDb, Opens(1, 1, "p", Money(100, "USD")));
    WalletOpens();
    OpeningDiffers("a");
    Unknown(db.txs, c);
    assert ValidCurrency("USD");
    BetIsProcessed(db, c, db.wallets[1]);
    MessageFollowsCall(db, m, c);
    NothingAdmitted();
    PreparedFor(2, "a", Bet, "");
    PreparedFor(3, "b", Bet, "");
    RedeliveryDecided(db, m, c, 0, [], d, 0);
    assert AfterAll(Message(db, m, c.hash, c, 0).value.0.db, []) == Message(db, m, c.hash, c, 0).value.0.db;
  }

  lemma PreparedFor(id: Id, external: string, kind: Kind, ref: string)
    requires id != 0 && external != ""
    ensures Prepared(CommandFor(id, external, kind, ref))
  {
    hide Digest;
    var c := CommandFor(id, external, kind, ref);
    assert PayloadOf(c) == PayloadOf(c.(hash := ""));
    assert ValidCurrency("USD");
  }

  lemma MessageFollowsCall(db: Db, m: InboxKey, c: Command)
    requires TypedMoney(c.amount) && Call(db, c, 0).Ok? && m !in db.inbox
    ensures Message(db, m, c.hash, c, 0).Ok?
  {
    hide CallTx;
    CallIsTx(db, c, 0);
  }
}
