/**
 What every committed call and worker step of every interleaving decided, in
 the columns of the tables: the balance is the one in the state of the commit,
 the references are those of some earlier moment of the run.
 */
module Rulings {
  import opened Prelude
  import opened Monetary
  import opened Tables
  import opened Domain
  import opened Engine
  import opened Backoff
  import opened Invariants
  import opened Decisions
  import opened Statements
  import opened SessionInv
  import opened Interleavings
  import opened RunTheorems
  import Outcomes
  import WorkerOutcomes

  type Ruling = Outcomes.Ruling
  type Fate = WorkerOutcomes.Fate

  // ---------------------------------------------------------------------
  // Where a session's change comes from
  // ---------------------------------------------------------------------

  /** The row a session is about to write and where. */
  datatype Load = Nothing | Load(slot: Option<nat>, change: Change)

  function LoadOf(pc: Pc): Load {
    match pc
    case AtTouch(at, _, ch) => Load(Some(at), ch)
    case AtPk(ch) => Load(None, ch)
    case AtExternal(ch) => Load(None, ch)
    case AtKey(ch) => Load(None, ch)
    case AtSlot(slot, ch) => Load(slot, ch)
    case AtForeign(ch) => Load(None, ch)
    case AtDraw(work, _) => if work.Write? then Load(work.slot, work.change) else Nothing
    case AtComplete(work, _) => if work.Write? then Load(work.slot, work.change) else Nothing
    case AtCommit(work, _) => if work.Write? then Load(work.slot, work.change) else Nothing
    case _ => Nothing
  }

  /** The change a call decides on when it looks its reference up in `txs`. */
  ghost predicate DecidedOn(txs: seq<Tx>, job: Job, ch: Change) {
    && job.Call? && ch.Settle? && IsInt64(job.cmd.amount.minor)
    && Decide(job.cmd, ch.wallet, LookupExternal(txs, job.cmd.provider, job.cmd.ref)) == Persist(ch.result, ch.move)
    && ch.row == NewRow(job.cmd, ch.result, job.now)
  }

  /** What the worker makes of the row at `at` when it looks its reference up in `txs`. */
  ghost predicate ResolvedOn(txs: seq<Tx>, at: nat, t: Tx, resolution: Resolution) {
    at < |txs| && txs[at] == t && resolution == Resolve(t, LookupExternal(txs, t.provider, t.ref))
  }

  ghost predicate ConcludedOn(txs: seq<Tx>, job: Job, at: nat, ch: Change) {
    && job.Worker? && at < |txs|
    && var t := txs[at]; var resolution := Resolve(t, LookupExternal(txs, t.provider, t.ref));
       match ch
       case Postpone(row) =>
         && resolution.Wait? && t.attempts + 1 < job.maxAttempts
         && row == PostponedRow(t, job.now + WorkerDelay(job.backoff, t.attempts + 1))
       case Settle(row, result, w, move) =>
         && !(resolution.Wait? && t.attempts + 1 < job.maxAttempts)
         && Conclude(t, w, resolution) == Persist(result, move) && row == SettledRow(CountedRow(t, resolution), result)
  }

  /** A load goes back to what `txs` said. */
  ghost predicate LoadedOn(txs: seq<Tx>, job: Job, load: Load) {
    match load
    case Nothing => true
    case Load(slot, ch) => if slot.None? then job.Call? ==> DecidedOn(txs, job, ch) else ConcludedOn(txs, job, slot.value, ch)
  }

  /** The decision a session carries goes back to this state. */
  ghost predicate Traced(db: Db, x: Session) {
    && LoadedOn(db.txs, x.job, LoadOf(x.pc))
    && (x.pc.AtSettle? && x.job.Worker? ==>
          && ResolvedOn(db.txs, x.pc.at, x.pc.t, x.pc.resolution)
          && !(x.pc.resolution.Wait? && x.pc.t.attempts + 1 < x.job.maxAttempts))
  }

  lemma InsertTraced(past: Db, db: Db, x: Session)
    requires Traced(past, x) && Inserting(x.pc)
    ensures Traced(past, InsertStatement(db, x))
  {
    hide LoadedOn, ResolvedOn, NeedsSlot, IndexById, IndexByKey, IndexByExternal, IndexBySlot;
    NothingLoaded(past, x.job);
  }

  lemma NothingLoaded(db: Db, job: Job)
    ensures LoadedOn(db.txs, job, Nothing)
  {
  }

  lemma FinalTraced(past: Db, x: Session, next: nat)
    requires Traced(past, x) && Finishing(x.pc)
    ensures Traced(past, FinalStatement(x, next))
  {
    hide LoadedOn;
  }

  lemma CallTraced(past: Db, db: Db, x: Session)
    requires x.job.Call? && Traced(past, x)
    ensures Traced(if x.pc.AtDecide? then db else past, CallStatement(db, x))
  {
    hide Decide, LookupExternal, FindExisting, ReplayResult, ConcludedOn;
    NothingLoaded(past, x.job);
  }

  lemma WorkerTraced(past: Db, db: Db, x: Session)
    requires x.job.Worker? && Traced(past, x) && WorkerOk(db, x) && !Inserting(x.pc) && !Finishing(x.pc) && !x.pc.AtCommit?
    ensures Traced(if x.pc.AtResolve? then db else past, WorkerStatement(db, x))
  {
    hide Resolve, Conclude, LookupExternal, Sound, WorkerDelay;
  }

  lemma OpenTraced(past: Db, db: Db, x: Session)
    requires x.job.Open? && Traced(past, x)
    ensures Traced(past, OpenStatement(db, x))
  {
    hide DecidedOn, ConcludedOn, OpeningChange;
  }

  /** One statement of a session traced to `past`: it still is, or it decides now. */
  lemma StatementTraced(past: Db, db: Db, x: Session)
    requires Traced(past, x) && SessionOk(db, x) && !x.pc.AtCommit?
    ensures Traced(past, Statement(db, x)) || Traced(db, Statement(db, x))
  {
    hide Traced, SessionOk, InsertStatement, FinalStatement, CallStatement, WorkerStatement, OpenStatement;
    if Inserting(x.pc) {
      InsertTraced(past, db, x);
    } else if Finishing(x.pc) {
      FinalTraced(past, x, db.nextOrdering);
    } else {
      JobTraced(past, db, x);
    }
  }

  lemma JobTraced(past: Db, db: Db, x: Session)
    requires Traced(past, x) && SessionOk(db, x) && !x.pc.AtCommit? && !Inserting(x.pc) && !Finishing(x.pc)
    ensures Traced(past, Statement(db, x)) || Traced(db, Statement(db, x))
  {
    hide Traced, CallStatement, WorkerStatement, OpenStatement, CallOk, WorkerOk, OpenOk;
    match x.job
    case Call(_, _, _) => CallTraced(past, db, x);
    case Worker(_, _, _) => WorkerTraced(past, db, x);
    case Open(_, _, _, _) => OpenTraced(past, db, x);
  }

  // ---------------------------------------------------------------------
  // Over whole runs
  // ---------------------------------------------------------------------

  lemma UnloadedTraced(db: Db, x: Session)
    requires LoadOf(x.pc) == Nothing && !x.pc.AtSettle?
    ensures Traced(db, x)
  {
  }

  /** A step changes its own session only: it starts, claims, runs a statement or ends. */
  lemma StepMoves(s: State, a: Action, s': State, sid: nat)
    requires Step(s, a, s') && sid in s'.sessions
    ensures || (sid in s.sessions && s'.sessions[sid] == s.sessions[sid])
            || (LoadOf(s'.sessions[sid].pc) == Nothing && !s'.sessions[sid].pc.AtSettle?)
            || (a.Run? && sid in s.sessions && !s.sessions[sid].pc.AtCommit? && s'.sessions[sid] == Statement(s.db, s.sessions[sid]))
  {
    hide Statement, Committed, Admissible, Blocked, Committable;
  }

  /** Every decision a session carries goes back to a state of the run. */
  lemma {:induction false} TracedTo(states: seq<State>, actions: seq<Action>, i: nat, sid: nat) returns (j: nat)
    requires Runs(states, actions) && i < |states| && sid in states[i].sessions
    ensures j <= i && Traced(states[j].db, states[i].sessions[sid])
  {
    hide Traced, Statement, Step, SessionOk;
    j := i;
    if i > 0 {
      var s, s' := states[i - 1], states[i];
      assert Step(s, actions[i - 1], s');
      StepMoves(s, actions[i - 1], s', sid);
      if LoadOf(s'.sessions[sid].pc) == Nothing && !s'.sessions[sid].pc.AtSettle? {
        UnloadedTraced(s'.db, s'.sessions[sid]);
      } else {
        j := TracedTo(states, actions, i - 1, sid);
        if s'.sessions[sid] != s.sessions[sid] {
          SessionAt(states, actions, i - 1, sid);
          StatementTraced(states[j].db, s.db, s.sessions[sid]);
          j := if Traced(states[j].db, s'.sessions[sid]) then j else i - 1;
        }
      }
    }
  }

  /** Events without their sequence numbers, which other sessions may have drawn in between. */
  function Unnumbered(events: seq<Event>): seq<Event> {
    seq(|events|, i requires 0 <= i < |events| => events[i].(ordering := 0))
  }

  /** One state has the wallets, rows, entries and events of another. */
  predicate SameEffects(db: Db, other: Db) {
    db.wallets == other.wallets && db.txs == other.txs && db.ledger == other.ledger && Unnumbered(db.outbox) == Unnumbered(other.outbox)
  }

  lemma SameEvents(outbox: seq<Event>, row: Tx, result: Result, w: Wallet, move: Option<Direction>, delta: int, orderings: seq<nat>, next: nat)
    requires result == Outcomes.ResultOf(row, w.balance + delta) && Outcomes.MovesBy(move, row.amount, delta) && (delta != 0 ==> row.state == Processed)
    requires row.state == Processed || row.state == Rejected || row.state == PendingReference
    requires |orderings| == EventCount(Settle(row, result, w, move))
    ensures Unnumbered(outbox + Events(Settle(row, result, w, move), orderings)) == Unnumbered(outbox + Outcomes.Told(row, w, delta, next))
  {
    var a, b := Events(Settle(row, result, w, move), orderings), Outcomes.Told(row, w, delta, next);
    assert |a| == |b| && a[0].(ordering := 0) == b[0].(ordering := 0);
    assert |a| == 2 ==> a[1].(ordering := 0) == b[1].(ordering := 0);
  }

  lemma CommittedGains(db: Db, x: Session, slot: Option<nat>, ch: Change, delta: int)
    requires Committable(db, x) && !x.job.Open? && x.pc.work == Write(slot, ch) && ch.Settle?
    requires ch.row.wallet in db.wallets && db.wallets[ch.row.wallet] == ch.wallet
    requires ch.result == Outcomes.ResultOf(ch.row, ch.wallet.balance + delta) && Outcomes.MovesBy(ch.move, ch.row.amount, delta)
    requires (ch.row.state == Processed || ch.row.state == Rejected || ch.row.state == PendingReference) && (delta != 0 ==> ch.row.state == Processed)
    ensures SameEffects(Committed(db, x, x.pc.work, x.pc.orderings),
                      Outcomes.Gains(db, if slot.None? then db.txs + [ch.row] else db.txs[slot.value := ch.row], ch.row, delta))
  {
    hide Unnumbered, Outcomes.Told, Events, Outcomes.MovesBy;
    MoveOrNot(ch.move, ch.row.amount, delta);
    SameEvents(db.outbox, ch.row, ch.result, ch.wallet, ch.move, delta, x.pc.orderings, db.nextOrdering);
  }

  lemma MoveOrNot(move: Option<Direction>, amount: int, delta: int)
    requires Outcomes.MovesBy(move, amount, delta)
    ensures move.None? <==> delta == 0
    ensures move.Some? ==> move.value == (if delta > 0 then Credit else Debit)
  {
  }

  /** The commit of a call that writes a row. */
  ghost predicate CommitsCall(s: State, a: Action, ch: Change) {
    && a.CommitNow? && Enabled(s, a) && s.sessions[a.sid].job.Call? && s.sessions[a.sid].pc.work == Write(None, ch)
  }

  lemma CallFacts(db: Db, x: Session, ch: Change)
    requires Inv(db) && SessionOk(db, x) && x.job.Call? && x.pc.AtCommit? && x.pc.work == Write(None, ch)
    ensures var c := x.job.cmd;
            && ch.Settle? && TypedMoney(c.amount) && c.wallet in db.wallets && db.wallets[c.wallet] == ch.wallet
            && c.amount.currency == ch.wallet.currency && Readable(ch.wallet) && c.kind != Opening
  {
    assert CallOk(db, x);
    assert WalletOk(db.txs, db.ledger, x.job.cmd.wallet, ch.wallet);
  }

  lemma DecidedSuits(txs: seq<Tx>, job: Job, ch: Change)
    requires DecidedOn(txs, job, ch)
    ensures Outcomes.Suitable(job.cmd.kind, job.cmd.amount)
  {
    hide Operate, LookupExternal;
  }

  /** A call that decided on `past`, committed in `db`. */
  lemma CallGains(past: seq<Tx>, db: Db, x: Session, ch: Change) returns (v: Ruling)
    requires UniqueKeys(past) && Inv(db) && SessionOk(db, x) && x.job.Call? && Committable(db, x) && x.pc.work == Write(None, ch)
    requires DecidedOn(past, x.job, ch)
    ensures var c := x.job.cmd;
            && c.wallet in db.wallets && Outcomes.Rules(past, c, db.wallets[c.wallet], v)
            && SameEffects(Committed(db, x, x.pc.work, x.pc.orderings), Outcomes.Recorded(db, c, v, x.job.now))
  {
    hide Outcomes.Rules, Outcomes.Gains, SessionOk, Inv, Decide, LookupExternal, TypedMoney, Readable, Outcomes.Suitable, Committed, UniqueKeys;
    CallFacts(db, x, ch);
    DecidedSuits(past, x.job, ch);
    v := Outcomes.DecideRules(past, x.job.cmd, ch.wallet);
    Outcomes.RulingStates(past, x.job.cmd, ch.wallet, v);
    assert ch.row == Outcomes.Stamped(Outcomes.RowFor(x.job.cmd, v, x.job.now), ch.wallet.balance + v.delta);
    CommittedGains(db, x, None, ch, v.delta);
  }

  /**
   Every committed row of a call, however the sessions interleave: its verdict
   is the one the columns dictate, for the balance its wallet has at the commit
   and the references as they were at some moment of the run.
   */
  lemma CallRuled(states: seq<State>, actions: seq<Action>, i: nat, ch: Change) returns (j: nat, v: Ruling)
    requires Runs(states, actions) && i < |actions| && CommitsCall(states[i], actions[i], ch)
    ensures var job := states[i].sessions[actions[i].sid].job; var c := job.cmd; var db := states[i].db;
            && j <= i && c.wallet in db.wallets && Outcomes.Rules(states[j].db.txs, c, db.wallets[c.wallet], v)
            && SameEffects(states[i + 1].db, Outcomes.Recorded(db, c, v, job.now))
  {
    hide Outcomes.Rules, Outcomes.Recorded, SessionOk, Inv, DecidedOn, ConcludedOn, ResolvedOn, Committed, SameEffects, UniqueKeys, RowOk;
    var s, sid := states[i], actions[i].sid;
    var x := s.sessions[sid];
    SessionAt(states, actions, i, sid);
    j := TracedTo(states, actions, i, sid);
    EveryStateSound(states, actions, j);
    Outcomes.SoundRows(states[j].db, 0);
    v := CallGains(states[j].db.txs, s.db, x, ch);
    assert Step(s, actions[i], states[i + 1]);
  }

  /** The commit of a worker step on the row at `at`. */
  ghost predicate CommitsStep(s: State, a: Action, at: nat, ch: Change) {
    && a.CommitNow? && Enabled(s, a) && s.sessions[a.sid].job.Worker? && s.sessions[a.sid].pc.work == Write(Some(at), ch)
  }

  lemma StepFacts(db: Db, x: Session, at: nat, ch: Change)
    requires Inv(db) && SessionOk(db, x) && x.job.Worker? && x.pc.AtCommit? && x.pc.work == Write(Some(at), ch)
    ensures at < |db.txs| && ch.row.wallet in db.wallets && Readable(db.wallets[ch.row.wallet])
    ensures ch.Settle? ==> db.wallets[ch.row.wallet] == ch.wallet && ch.row.currency == ch.wallet.currency
  {
    assert WorkerOk(db, x);
    assert RowOk(db.wallets, db.txs[at]);
    assert TxFacts.Fixed(ch.row).wallet == db.txs[at].wallet;
    assert WalletOk(db.txs, db.ledger, ch.row.wallet, db.wallets[ch.row.wallet]);
  }

  /** The rows, wallets and ledger a step of this fate leaves. */
  ghost predicate Suffers(db: Db, after: Db, at: nat, t: Tx, job: Job, f: Fate)
    requires job.Worker? && at < |db.txs| && t.wallet in db.wallets
  {
    match f
    case Later =>
      SameEffects(after, db.(txs := db.txs[at := t.(attempts := t.attempts + 1, nextAttempt := Some(job.now + WorkerDelay(job.backoff, t.attempts + 1)))]))
    case Ends(v, attempts) =>
      var row := WorkerOutcomes.Ended(t, v, attempts, db.wallets[t.wallet].balance + v.delta);
      SameEffects(after, Outcomes.Gains(db, db.txs[at := row], row, v.delta))
  }

  /** A waiting row a step resolved: it is a reversal in the state `past` that the worker read. */
  ghost predicate WasWaiting(past: Db, at: nat) {
    && UniqueKeys(past.txs) && at < |past.txs| && past.txs[at].state == PendingReference && RowOk(past.wallets, past.txs[at])
  }

  lemma StepGains(past: Db, db: Db, x: Session, at: nat, ch: Change) returns (f: Fate)
    requires WasWaiting(past, at) && Inv(db) && SessionOk(db, x) && x.job.Worker? && Committable(db, x) && x.pc.work == Write(Some(at), ch)
    requires ConcludedOn(past.txs, x.job, at, ch)
    ensures var t := past.txs[at];
            && t.wallet in db.wallets && at < |db.txs|
            && WorkerOutcomes.Fated(past.txs, t, db.wallets[t.wallet].balance, x.job.maxAttempts, f)
            && Suffers(db, Committed(db, x, x.pc.work, x.pc.orderings), at, t, x.job, f)
  {
    hide Outcomes.Gains, WorkerOutcomes.Fated, SessionOk, Inv, Resolve, Conclude, LookupExternal, Readable, UniqueKeys, RowOk, WorkerDelay, WorkerOutcomes.RulingOf, WorkerOutcomes.Ended;
    var t := past.txs[at];
    var resolution := Resolve(t, LookupExternal(past.txs, t.provider, t.ref));
    StepFacts(db, x, at, ch);
    ReversalWaits(past.wallets, t);
    var w := db.wallets[t.wallet];
    f := WorkerOutcomes.FateIs(past.txs, t, w.balance, x.job.maxAttempts);
    if ch.Settle? {
      EndGains(past.wallets, db, x, at, ch, t, resolution);
    }
  }

  lemma EndGains(wallets: map<Id, Wallet>, db: Db, x: Session, at: nat, ch: Change, t: Tx, resolution: Resolution)
    requires RowOk(wallets, t) && t.state == PendingReference && Committable(db, x) && !x.job.Open? && x.pc.work == Write(Some(at), ch)
    requires ch.Settle? && t.wallet in db.wallets && ch.wallet == db.wallets[t.wallet] && Readable(ch.wallet) && t.currency == ch.wallet.currency
    requires Conclude(t, ch.wallet, resolution) == Persist(ch.result, ch.move) && ch.row == SettledRow(CountedRow(t, resolution), ch.result)
    ensures at < |db.txs|
    ensures var w := db.wallets[t.wallet]; var v := WorkerOutcomes.RulingOf(t, w.balance, resolution);
            var row := WorkerOutcomes.Ended(t, v, if resolution.Wait? then t.attempts + 1 else t.attempts, w.balance + v.delta);
            SameEffects(Committed(db, x, x.pc.work, x.pc.orderings), Outcomes.Gains(db, db.txs[at := row], row, v.delta))
  {
    hide Outcomes.Gains, Conclude, Readable, RowOk, Committed, WorkerOutcomes.RulingOf;
    WorkerOutcomes.ConcludeRules(wallets, t, ch.wallet, resolution);
    WorkerOutcomes.RulingEnds(t, ch.wallet.balance, resolution);
    CommittedGains(db, x, Some(at), ch, WorkerOutcomes.RulingOf(t, ch.wallet.balance, resolution).delta);
  }

  lemma ReversalWaits(wallets: map<Id, Wallet>, t: Tx)
    requires RowOk(wallets, t) && t.state == PendingReference
    ensures t.kind == Refund || t.kind == Rollback
  {
  }

  /** A row that still waits has waited all along. */
  lemma WaitedBefore(states: seq<State>, actions: seq<Action>, j: nat, i: nat, at: nat)
    requires Runs(states, actions) && j <= i < |states| && at < |states[j].db.txs| && at < |states[i].db.txs|
    requires states[i].db.txs[at].state == PendingReference
    ensures WasWaiting(states[j].db, at)
  {
    hide Runs, Inv, UniqueKeys;
    RunGrows(states, actions, j, i);
    EveryStateSound(states, actions, j);
    Outcomes.SoundRows(states[j].db, at);
    assert !Terminal(states[j].db.txs[at].state);
  }

  lemma StillWaits(db: Db, x: Session, at: nat, ch: Change)
    requires SessionOk(db, x) && x.job.Worker? && x.pc.AtCommit? && x.pc.work == Write(Some(at), ch)
    ensures at < |db.txs| && db.txs[at].state == PendingReference
  {
    assert WorkerOk(db, x);
  }

  /**
   Every committed worker step, however the sessions interleave: what becomes
   of the row is what its columns and those of the row it named dictated at some
   moment of the run, for the balance its wallet has at the commit.
   */
  lemma StepRuled(states: seq<State>, actions: seq<Action>, i: nat, at: nat, ch: Change) returns (j: nat, f: Fate)
    requires Runs(states, actions) && i < |actions| && CommitsStep(states[i], actions[i], at, ch)
    ensures var job := states[i].sessions[actions[i].sid].job; var db := states[i].db;
            && j <= i && at < |states[j].db.txs| && at < |db.txs|
            && var t := states[j].db.txs[at];
               && t.wallet in db.wallets && WorkerOutcomes.Fated(states[j].db.txs, t, db.wallets[t.wallet].balance, job.maxAttempts, f)
               && Suffers(db, states[i + 1].db, at, t, job, f)
  {
    hide WorkerOutcomes.Fated, Suffers, SessionOk, Inv, DecidedOn, ResolvedOn, Committed, RowOk, UniqueKeys;
    var s, sid := states[i], actions[i].sid;
    var x := s.sessions[sid];
    SessionAt(states, actions, i, sid);
    j := TracedTo(states, actions, i, sid);
    StillWaits(s.db, x, at, ch);
    WaitedBefore(states, actions, j, i, at);
    f := StepGains(states[j].db, s.db, x, at, ch);
    assert Step(s, actions[i], states[i + 1]);
  }

  /** The commit of an opening. */
  ghost predicate CommitsOpening(s: State, a: Action) {
    a.CommitNow? && Enabled(s, a) && s.sessions[a.sid].job.Open?
  }

  /** The tables with the wallet, its opening row, entry and events. */
  function Opened(db: Db, id: Id, txId: Id, player: string, opening: Money): Db {
    if opening.minor == 0 then WorkerOutcomes.WithWallet(db, id, Wallet(player, opening.currency, 0, 1))
    else
      var row := WorkerOutcomes.OpeningFor(id, txId, player, opening);
      Outcomes.Gains(WorkerOutcomes.WithWallet(db, id, Wallet(player, opening.currency, 0, 0)), db.txs + [row], row, opening.minor)
  }

  lemma OpeningFacts(db: Db, x: Session)
    requires SessionOk(db, x) && x.job.Open? && x.pc.AtCommit?
    ensures x.job.id !in db.wallets && !WorkerOutcomes.HasWallet(db.wallets, x.job.player, x.job.opening.currency) && x.job.opening.minor >= 0
  {
    assert OpenOk(db, x);
    assert Guarded(db, WalletPk(x.job.id), Own(x)) && Guarded(db, WalletOwner(x.job.player, x.job.opening.currency), Own(x));
  }

  lemma OpeningGains(db: Db, id: Id, txId: Id, player: string, opening: Money, orderings: seq<nat>)
    requires opening.minor >= 0 && |orderings| == if opening.minor == 0 then 0 else 2
    ensures SameEffects(CommitOpening(db, id, txId, player, opening, orderings), Opened(db, id, txId, player, opening))
  {
    hide Unnumbered, Outcomes.Told, Events;
    if opening.minor > 0 {
      var row, result, w := OpeningRow(id, txId, player, opening), OpeningResult(txId, opening), Unopened(player, opening);
      SameEvents(db.outbox, row, result, w, Some(Credit), opening.minor, orderings, db.nextOrdering);
      assert row == WorkerOutcomes.OpeningFor(id, txId, player, opening);
    }
  }

  /** Every committed opening of every interleaving: the player had no wallet in this currency, and the tables gain exactly this one. */
  lemma OpeningRuled(states: seq<State>, actions: seq<Action>, i: nat)
    requires Runs(states, actions) && i < |actions| && CommitsOpening(states[i], actions[i])
    ensures var job := states[i].sessions[actions[i].sid].job; var db := states[i].db;
            && job.id !in db.wallets && !WorkerOutcomes.HasWallet(db.wallets, job.player, job.opening.currency)
            && SameEffects(states[i + 1].db, Opened(db, job.id, job.txId, job.player, job.opening))
  {
    hide SessionOk, Inv, SameEffects, Opened, WorkerOutcomes.HasWallet, CommitOpening;
    var s, sid := states[i], actions[i].sid;
    var x := s.sessions[sid];
    SessionAt(states, actions, i, sid);
    OpeningFacts(s.db, x);
    OpeningGains(s.db, x.job.id, x.job.txId, x.job.player, x.job.opening, x.pc.orderings);
    assert Step(s, actions[i], states[i + 1]);
  }
}
