/** One command, one row, one answer: replays, races and deleted messages over whole runs. */
module Idempotency {
  import opened Prelude
  import opened Monetary
  import opened Tables
  import opened Domain
  import opened Engine
  import opened TxFacts
  import opened Invariants
  import opened Decisions
  import opened Statements
  import opened SessionInv
  import opened CommitSteps
  import opened Interleavings
  import opened RunTheorems

  // ---------------------------------------------------------------------
  // Finding the row of a command again
  // ---------------------------------------------------------------------

  /** The hash column follows from the business fields, so a matching row always matches in full. */
  lemma BusinessDeterminesHash(wallets: map<Id, Wallet>, t: Tx, c: Command)
    requires RowOk(wallets, t) && Prepared(c) && ExternalKind(c.kind) && SameBusiness(t, c)
    ensures t.hash == c.hash
  {
    assert PayloadOf(CommandOf(t)) == PayloadOf(c);
  }

  /** So no lookup ever meets its own request under another hash. */
  lemma LookupNeverUnavailable(db: Db, c: Command)
    requires Inv(db) && Prepared(c) && ExternalKind(c.kind)
    ensures FindExisting(db.txs, c) != Clash(ReplayUnavailable)
    ensures FindExisting(db.txs, c).Hit? ==> ReplayResult(db.txs[FindExisting(db.txs, c).at]).Ok?
  {
    hide ReplayResult, WalletOk;
    forall k | 0 <= k < |db.txs|
      ensures Judged(db.txs[k], k, c) != Clash(ReplayUnavailable) && ReplayResult(db.txs[k]).Ok?
    {
      assert RowOk(db.wallets, db.txs[k]);
      if SameBusiness(db.txs[k], c) {
        BusinessDeterminesHash(db.wallets, db.txs[k], c);
      }
    }
  }

  predicate Unavailable(x: Session) {
    x.pc == Done(Err(ReplayUnavailable))
  }

  lemma CallAvailable(db: Db, x: Session)
    requires Inv(db) && x.job.Call? && Admissible(x.job) && !x.pc.Done?
    ensures !Unavailable(CallStatement(db, x))
  {
    hide Inv, Decide, FindExisting, ReplayResult, Prepared;
    LookupNeverUnavailable(db, x.job.cmd);
    if x.pc.AtDecide? && IsInt64(x.job.cmd.amount.minor) {
      DecideErrors(x.job.cmd, x.pc.w, LookupExternal(db.txs, x.job.cmd.provider, x.job.cmd.ref));
    }
  }

  lemma WorkerAvailable(db: Db, x: Session)
    requires x.job.Worker? && !x.pc.Done?
    ensures !Unavailable(WorkerStatement(db, x))
  {
    hide Conclude, Resolve;
    if x.pc.AtSettle? && x.pc.t.wallet in db.wallets {
      ConcludeErrors(x.pc.t, db.wallets[x.pc.t.wallet], x.pc.resolution);
    }
  }

  lemma StatementAvailable(db: Db, x: Session)
    requires Inv(db) && Admissible(x.job) && !x.pc.Done?
    ensures !Unavailable(Statement(db, x))
  {
    hide Inv, CallStatement, WorkerStatement, Prepared;
    if !Inserting(x.pc) && !Finishing(x.pc) {
      if x.job.Call? {
        CallAvailable(db, x);
      } else if x.job.Worker? {
        WorkerAvailable(db, x);
      }
    }
  }

  lemma StepAvailable(s: State, a: Action, s': State, sid: nat)
    requires MachineInv(s) && Step(s, a, s') && sid in s'.sessions && (sid in s.sessions ==> !Unavailable(s.sessions[sid]))
    ensures !Unavailable(s'.sessions[sid])
  {
    hide MachineInv, Statement, Inv, Committed;
    if a.Run? && a.sid == sid {
      SessionFacts(s, sid);
      StatementAvailable(s.db, s.sessions[sid]);
    }
  }

  /** In no run does any call or worker step ever end with ErrReplayUnavailable. */
  lemma {:induction false} NeverUnavailable(states: seq<State>, actions: seq<Action>, i: nat, sid: nat)
    requires Runs(states, actions) && i < |states| && sid in states[i].sessions
    ensures !Unavailable(states[i].sessions[sid])
  {
    hide MachineInv, Step, Unavailable;
    if i > 0 {
      if sid in states[i - 1].sessions {
        NeverUnavailable(states, actions, i - 1, sid);
      }
      RunKeeps(states, actions, i - 1);
      StepAvailable(states[i - 1], actions[i - 1], states[i - 1 + 1], sid);
    }
  }

  /** No row the service wrote ever fails to replay. */
  lemma AlwaysReplayable(states: seq<State>, actions: seq<Action>, i: nat, k: nat)
    requires Runs(states, actions) && i < |states| && k < |states[i].db.txs|
    ensures ReplayResult(states[i].db.txs[k]).Ok?
  {
    EveryStateSound(states, actions, i);
    assert RowOk(states[i].db.wallets, states[i].db.txs[k]);
  }

  // ---------------------------------------------------------------------
  // A session that can only replay
  // ---------------------------------------------------------------------

  /** A later call of an answered command: on its way to the lookup, replaying, or ended with that answer. */
  ghost predicate OnlyReplays(db: Db, x: Session, k: nat, r: Result)
    requires x.job.Call?
  {
    match x.pc
    case AtInbox => true
    case AtIdentity => true
    case AtLookup => true
    case AtComplete(work, _) => work == Reply(r)
    case AtCommit(work, _) => work == Reply(r)
    case Done(outcome) => EndsWith(db, x.job.cmd, x.job.message, k, r, outcome)
    case _ => false
  }

  /** The answer, or an error that needs an interruption, a foreign message payload or an id used elsewhere. */
  ghost predicate EndsWith(db: Db, c: Command, message: Option<InboxKey>, k: nat, r: Result, outcome: Outcome<Option<Result>, Error>) {
    match outcome
    case Ok(v) => v == Some(r)
    case Err(Interrupted) => true
    case Err(IdempotencyConflict) => IdTaken(db.txs, c.id, k)
    case Err(InboxPayloadMismatch) => message.Some? && message.value in db.inbox && db.inbox[message.value].hash != c.hash
    case Err(_) => false
  }

  lemma ReplayStatement(db: Db, x: Session, k: nat, r: Result)
    requires UniqueKeys(db.txs) && x.job.Call? && k < |db.txs| && Records(db.txs[k], x.job.cmd) && ReplayResult(db.txs[k]) == Ok(r)
    requires OnlyReplays(db, x, k, r) && !x.pc.AtCommit? && !x.pc.Done?
    ensures Statement(db, x).job == x.job && OnlyReplays(db, Statement(db, x), k, r)
  {
    RecordIsFound(db.txs, x.job.cmd, k);
    assert !Inserting(x.pc);
  }

  lemma OnlyReplaysLater(db: Db, db': Db, x: Session, k: nat, r: Result)
    requires Grows(db, db') && x.job.Call? && OnlyReplays(db, x, k, r)
    ensures OnlyReplays(db', x, k, r)
  {
    if IdTaken(db.txs, x.job.cmd.id, k) {
      var j :| 0 <= j < |db.txs| && j != k && db.txs[j].id == x.job.cmd.id;
      assert Identity(db'.txs[j], db.txs[j]);
      assert db'.txs[j].id == x.job.cmd.id;
    }
  }

  /** The later call's own step. */
  lemma ReplayOwnStep(s: State, a: Action, s': State, sid: nat, k: nat, r: Result)
    requires UniqueKeys(s.db.txs) && Step(s, a, s') && sid in s'.sessions && s'.sessions[sid].job.Call?
    requires Answered(s.db.txs, s'.sessions[sid].job.cmd, k, r)
    requires sid in s.sessions ==> s.sessions[sid].job.Call? && OnlyReplays(s.db, s.sessions[sid], k, r)
    ensures OnlyReplays(s.db, s'.sessions[sid], k, r)
  {
    if a.Run? && a.sid == sid {
      SameJob(s.db, s.sessions[sid]);
      ReplayStatement(s.db, s.sessions[sid], k, r);
    }
  }

  /** One step of the machine, seen from the later call. */
  lemma ReplayStep(s: State, a: Action, s': State, sid: nat, k: nat, r: Result)
    requires MachineInv(s) && UniqueKeys(s.db.txs) && Step(s, a, s') && sid in s'.sessions && s'.sessions[sid].job.Call?
    requires Answered(s.db.txs, s'.sessions[sid].job.cmd, k, r)
    requires sid in s.sessions ==> s.sessions[sid].job.Call? && OnlyReplays(s.db, s.sessions[sid], k, r)
    ensures OnlyReplays(s'.db, s'.sessions[sid], k, r)
  {
    StepGrows(s, a, s');
    ReplayOwnStep(s, a, s', sid, k, r);
    OnlyReplaysLater(s.db, s'.db, s'.sessions[sid], k, r);
  }

  lemma SameJob(db: Db, x: Session)
    ensures Statement(db, x).job == x.job
  {
  }

  lemma ReplayNext(states: seq<State>, actions: seq<Action>, j: nat, sid: nat, k: nat, r: Result)
    requires Runs(states, actions) && j < |actions| && sid in states[j + 1].sessions && states[j + 1].sessions[sid].job.Call?
    requires Answered(states[j].db.txs, states[j + 1].sessions[sid].job.cmd, k, r)
    requires sid in states[j].sessions ==> states[j].sessions[sid].job.Call? && OnlyReplays(states[j].db, states[j].sessions[sid], k, r)
    ensures OnlyReplays(states[j + 1].db, states[j + 1].sessions[sid], k, r)
  {
    RunKeeps(states, actions, j);
    KeysAt(states[j]);
    ReplayStep(states[j], actions[j], states[j + 1], sid, k, r);
  }

  lemma {:induction false} ReplaysFrom(states: seq<State>, actions: seq<Action>, i: nat, j: nat, sid: nat, k: nat, r: Result)
    requires Runs(states, actions) && i <= j < |states| && sid !in states[i].sessions
    requires sid in states[j].sessions && states[j].sessions[sid].job.Call?
    requires Answered(states[i].db.txs, states[j].sessions[sid].job.cmd, k, r)
    ensures OnlyReplays(states[j].db, states[j].sessions[sid], k, r)
  {
    var n := j - 1;
    if sid in states[n].sessions {
      JobStays(states, actions, n, sid);
      ReplaysFrom(states, actions, i, n, sid, k, r);
    }
    RunGrows(states, actions, i, n);
    AnsweredLater(states[i].db.txs, states[n].db.txs, states[j].sessions[sid].job.cmd, k, r);
    ReplayNext(states, actions, n, sid, k, r);
  }

  lemma KeysAt(s: State)
    requires MachineInv(s)
    ensures UniqueKeys(s.db.txs)
  {
  }

  /** A session keeps its job. */
  lemma JobStays(states: seq<State>, actions: seq<Action>, i: nat, sid: nat)
    requires Runs(states, actions) && i < |actions| && sid in states[i].sessions
    ensures sid in states[i + 1].sessions && states[i + 1].sessions[sid].job == states[i].sessions[sid].job
  {
    assert Step(states[i], actions[i], states[i + 1]);
    SameJob(states[i].db, states[i].sessions[sid]);
  }

  // ---------------------------------------------------------------------
  // The theorems
  // ---------------------------------------------------------------------

  /** The answer a call was given, as it stands in the table. */
  lemma AnswerRow(db: Db, c: Command, r: Result) returns (k: nat)
    requires Replied(db, c, r)
    ensures Answers(db, c, r, k) && Records(db.txs[k], c) && (Terminal(r.state) ==> Answered(db.txs, c, k, r))
  {
    k :| Answers(db, c, r, k);
  }

  predicate AnsweredCall(s: State, sid: nat, r: Result) {
    sid in s.sessions && s.sessions[sid].job.Call? && s.sessions[sid].pc == Done(Ok(Some(r)))
  }

  lemma CallReplied(states: seq<State>, actions: seq<Action>, i: nat, sid: nat, r: Result)
    requires Runs(states, actions) && i < |states| && AnsweredCall(states[i], sid, r)
    ensures Replied(states[i].db, states[i].sessions[sid].job.cmd, r) && Prepared(states[i].sessions[sid].job.cmd)
  {
    SessionAt(states, actions, i, sid);
    assert CallOk(states[i].db, states[i].sessions[sid]);
  }

  /** A replay commits nothing but its inbox row. */
  lemma ReplayCommits(s: State, a: Action, s': State, k: nat, r: Result)
    requires Step(s, a, s') && a.CommitNow? && s.sessions[a.sid].job.Call? && OnlyReplays(s.db, s.sessions[a.sid], k, r)
    ensures s'.db == s.db.(inbox := s'.db.inbox)
  {
  }

  lemma PreparedAt(states: seq<State>, actions: seq<Action>, i: nat, sid: nat)
    requires Runs(states, actions) && i < |states| && sid in states[i].sessions && states[i].sessions[sid].job.Call?
    ensures Prepared(states[i].sessions[sid].job.cmd)
  {
    SessionAt(states, actions, i, sid);
  }

  /**
   Once a call has returned a terminal result, every later call of the same
   request, under whatever id and on whatever transport, ends with that same
   result and writes nothing but its inbox row; it can fail only by an
   interruption, a message id already used for another payload, or an id that
   belongs to another transaction.
   */
  lemma RepliesForever(states: seq<State>, actions: seq<Action>, i: nat, j: nat, earlier: nat, later: nat, r: Result) returns (k: nat)
    requires Runs(states, actions) && i <= j < |states| && AnsweredCall(states[i], earlier, r) && Terminal(r.state)
    requires later !in states[i].sessions && later in states[j].sessions && states[j].sessions[later].job.Call?
    requires SameRequest(states[i].sessions[earlier].job.cmd, states[j].sessions[later].job.cmd)
    ensures Answered(states[j].db.txs, states[j].sessions[later].job.cmd, k, r) && OnlyReplays(states[j].db, states[j].sessions[later], k, r)
    ensures j < |actions| && actions[j].CommitNow? && actions[j].sid == later ==>
              states[j + 1].db == states[j].db.(inbox := states[j + 1].db.inbox)
  {
    hide SessionOk, MachineInv, Inv, ReplayResult, Apply;
    var c, d := states[i].sessions[earlier].job.cmd, states[j].sessions[later].job.cmd;
    CallReplied(states, actions, i, earlier, r);
    k := AnswerRow(states[i].db, c, r);
    PreparedAt(states, actions, j, later);
    assert c.hash == d.hash && Answered(states[i].db.txs, d, k, r);
    RunGrows(states, actions, i, j);
    AnsweredLater(states[i].db.txs, states[j].db.txs, d, k, r);
    ReplaysFrom(states, actions, i, j, later, k, r);
    if j < |actions| && actions[j].CommitNow? && actions[j].sid == later {
      assert Step(states[j], actions[j], states[j + 1]);
      ReplayCommits(states[j], actions[j], states[j + 1], k, r);
    }
  }

  /**
   Calls that share a provider and a key, or a provider and an external id, and
   are both answered, are the same request and have one row k: both results name
   it and its amount, and are equal when both are terminal or both were given
   while it waited. While it waits, both are what it replays.
   */
  lemma OneRowPerRequest(states: seq<State>, actions: seq<Action>, i: nat, a: nat, b: nat, ra: Result, rb: Result) returns (k: nat)
    requires Runs(states, actions) && i < |states| && AnsweredCall(states[i], a, ra) && AnsweredCall(states[i], b, rb)
    requires var c, d := states[i].sessions[a].job.cmd, states[i].sessions[b].job.cmd;
             c.provider == d.provider && (c.key == d.key || c.external == d.external)
    ensures SameRequest(states[i].sessions[a].job.cmd, states[i].sessions[b].job.cmd)
    ensures OneAnswer(states[i].db, k, ra, rb)
  {
    var c, d := states[i].sessions[a].job.cmd, states[i].sessions[b].job.cmd;
    CallReplied(states, actions, i, a, ra);
    CallReplied(states, actions, i, b, rb);
    RunKeeps(states, actions, i);
    KeysAt(states[i]);
    k := SameRow(states[i].db, c, d, ra, rb);
    RowAt(states[i], k);
    SameAnswer(states[i].db, c, d, k, ra, rb);
  }

  /** Both results belong to row k; they can differ only when one was given while the row waited and the other after it was decided. */
  predicate OneAnswer(db: Db, k: nat, ra: Result, rb: Result) {
    && k < |db.txs| && ra.tx == rb.tx == db.txs[k].id && ra.amount == rb.amount == Money(db.txs[k].amount, db.txs[k].currency)
    && (Terminal(ra.state) == Terminal(rb.state) ==> ra == rb)
    && (Terminal(ra.state) ==> ReplayResult(db.txs[k]) == Ok(ra)) && (Terminal(rb.state) ==> ReplayResult(db.txs[k]) == Ok(rb))
    && (!Terminal(db.txs[k].state) ==> ReplayResult(db.txs[k]) == Ok(ra) && ra == rb)
  }

  lemma SameRow(db: Db, c: Command, d: Command, rc: Result, rd: Result) returns (k: nat)
    requires UniqueKeys(db.txs) && Replied(db, c, rc) && Replied(db, d, rd)
    requires c.provider == d.provider && (c.key == d.key || c.external == d.external)
    ensures SameRequest(c, d) && Answers(db, c, rc, k) && Answers(db, d, rd, k)
  {
    var txs := db.txs;
    k := AnswerRow(db, c, rc);
    var l := AnswerRow(db, d, rd);
    assert HasKey(txs[k], c.provider, c.key) && HasExternal(txs[k], c.provider, c.external);
    assert HasKey(txs[l], d.provider, d.key) && HasExternal(txs[l], d.provider, d.external);
    assert k == l;
  }

  lemma RowAt(s: State, k: nat)
    requires MachineInv(s) && k < |s.db.txs|
    ensures RowOk(s.db.wallets, s.db.txs[k]) && HistoryOk(s.db.txs[k], EventsFor(s.db.outbox, TxAggregate(s.db.txs[k].id)))
  {
  }

  /** A row announces its waiting once, so everybody who was told to wait was told the same. */
  lemma OneWait(outbox: seq<Event>, t: Tx, r: Result)
    requires HistoryOk(t, EventsFor(outbox, TxAggregate(t.id))) && WaitedWith(outbox, t.id, r)
    ensures EventsFor(outbox, TxAggregate(t.id)) != [] && CarriesWait(EventsFor(outbox, TxAggregate(t.id))[0], t.id, r)
  {
    var e :| e in outbox && CarriesWait(e, t.id, r);
    EventsForMember(outbox, TxAggregate(t.id), e);
  }

  lemma SameAnswer(db: Db, c: Command, d: Command, k: nat, rc: Result, rd: Result)
    requires Answers(db, c, rc, k) && Answers(db, d, rd, k)
    requires RowOk(db.wallets, db.txs[k]) && HistoryOk(db.txs[k], EventsFor(db.outbox, TxAggregate(db.txs[k].id)))
    ensures OneAnswer(db, k, rc, rd)
  {
    if !Terminal(rc.state) {
      OneWait(db.outbox, db.txs[k], rc);
    }
    if !Terminal(rd.state) {
      OneWait(db.outbox, db.txs[k], rd);
    }
  }

  /** A command whose id, key or external id belongs to another request finds that request, and no other row. */
  lemma ContestedClashes(txs: seq<Tx>, c: Command)
    requires UniqueKeys(txs) && Contested(txs, c)
    ensures FindExisting(txs, c) == Clash(IdempotencyConflict)
  {
    var k :| 0 <= k < |txs| && Contests(txs[k], c);
    match IndexById(txs, c.id)
    case Some(i) => Meets(txs, c, k, i);
    case None =>
      match IndexByKey(txs, c.provider, c.key)
      case Some(i) => Meets(txs, c, k, i);
      case None => Meets(txs, c, k, IndexByExternal(txs, c.provider, c.external).value);
  }

  /** The row the lookup meets is the contesting one, or it shares no more with the command than that one allows. */
  lemma Meets(txs: seq<Tx>, c: Command, k: nat, i: nat)
    requires UniqueKeys(txs) && k < |txs| && i < |txs| && Contests(txs[k], c) && (txs[k].id == c.id ==> txs[i].id == c.id)
    ensures Judged(txs[i], i, c) == Clash(IdempotencyConflict)
  {
    assert txs[i].key == c.key && SameBusiness(txs[i], c) ==> HasKey(txs[i], c.provider, c.key) && HasExternal(txs[i], c.provider, c.external);
  }

  /**
   A call that lost its insert at a unique index lost it to another request: the
   lookup that follows never finds a row to replay, and the call ends with
   IdempotencyConflict and no effect, whatever was committed in between.
   */
  lemma LosersConflict(states: seq<State>, actions: seq<Action>, i: nat, sid: nat)
    requires Runs(states, actions) && i < |actions| && actions[i] == Run(sid) && sid in states[i].sessions
    requires states[i].sessions[sid].job.Call? && states[i].sessions[sid].pc.AtConflict?
    ensures states[i + 1].sessions[sid] == Ended(states[i].sessions[sid], Err(IdempotencyConflict))
    ensures states[i + 1].db == states[i].db
  {
    hide MachineInv, HeldOk, Inv;
    RunKeeps(states, actions, i);
    KeysAt(states[i]);
    SessionFacts(states[i], sid);
    ContestedClashes(states[i].db.txs, states[i].sessions[sid].job.cmd);
    assert Step(states[i], actions[i], states[i + 1]);
    assert states[i].db.(nextOrdering := states[i].db.nextOrdering + 0) == states[i].db;
  }

  lemma WriterFits(db: Db, x: Session)
    requires SessionOk(db, x) && x.pc.AtCommit? && x.pc.work.Write? && x.pc.work.slot.None?
    ensures KeysFree(db.txs, x.pc.work.change.row)
  {
    if x.job.Call? {
      assert CallOk(db, x);
    } else if x.job.Open? {
      assert OpenOk(db, x);
    }
    FreshFits(db, x, x.pc.work.change.row);
  }

  ghost predicate Inserts(s: State, a: Action, ch: Change) {
    Enabled(s, a) && a.CommitNow? && s.sessions[a.sid].pc.work == Write(None, ch)
  }

  lemma InsertedRow(states: seq<State>, actions: seq<Action>, i: nat, ch: Change)
    requires Runs(states, actions) && i < |actions| && Inserts(states[i], actions[i], ch)
    ensures var txs' := states[i + 1].db.txs; |txs'| == |states[i].db.txs| + 1 && txs'[|txs'| - 1] == ch.row
  {
    hide SessionOk, Inv, Committed;
    assert Step(states[i], actions[i], states[i + 1]);
    SessionAt(states, actions, i, actions[i].sid);
    InsertCommits(states[i].db, states[i].sessions[actions[i].sid], ch);
  }

  lemma InsertCommits(db: Db, x: Session, ch: Change)
    requires SessionOk(db, x) && Committable(db, x) && x.pc.work == Write(None, ch)
    ensures Committed(db, x, x.pc.work, x.pc.orderings).txs == db.txs + [ch.row]
  {
    hide HeldOk, CallOk, WorkerOk, Sound;
    if x.job.Open? {
      assert OpenOk(db, x);
    }
  }

  /** Of all sessions racing for one key or one external id, in one run at most one ever commits a row. */
  lemma OneWriter(states: seq<State>, actions: seq<Action>, i: nat, j: nat, first: Change, second: Change)
    requires Runs(states, actions) && i < j < |actions|
    requires Inserts(states[i], actions[i], first) && Inserts(states[j], actions[j], second)
    ensures first.row.id != second.row.id
    ensures !HasKey(second.row, first.row.provider, first.row.key)
    ensures !HasExternal(second.row, first.row.provider, first.row.external)
  {
    var k := |states[i].db.txs|;
    InsertedRow(states, actions, i, first);
    RunGrows(states, actions, i + 1, j);
    SessionAt(states, actions, j, actions[j].sid);
    WriterFits(states[j].db, states[j].sessions[actions[j].sid]);
    assert Identity(states[j].db.txs[k], first.row);
  }

  // ---------------------------------------------------------------------
  // Messages
  // ---------------------------------------------------------------------

  /** At most one ledger entry belongs to a row, and only this row has the command's provider and external id. */
  ghost predicate MovedOnce(db: Db, c: Command, k: nat) {
    && k < |db.txs| && Records(db.txs[k], c)
    && (forall l :: 0 <= l < |db.txs| && HasExternal(db.txs[l], c.provider, c.external) ==> l == k)
    && (forall p, q :: 0 <= p < |db.ledger| && 0 <= q < |db.ledger| && db.ledger[p].tx == db.txs[k].id && db.ledger[q].tx == db.txs[k].id ==> p == q)
  }

  /**
   Whatever was redelivered, interrupted or sent over HTTP as well: a deleted
   message has a completed inbox row and a transaction row, both with the hash of
   its command, and the command moved money at most once.
   */
  lemma DeletedWasProcessed(states: seq<State>, actions: seq<Action>, i: nat, d: Deletion) returns (k: nat)
    requires Runs(states, actions) && i < |states| && d in states[i].deleted
    ensures d.message in states[i].db.inbox && states[i].db.inbox[d.message] == InboxRow(d.cmd.hash, true)
    ensures MovedOnce(states[i].db, d.cmd, k)
  {
    var db := states[i].db;
    RunKeeps(states, actions, i);
    DeletionAt(states[i], d);
    k :| 0 <= k < |db.txs| && Records(db.txs[k], d.cmd);
    OneMovement(db, d.cmd, k);
  }

  /** Every committed inbox row is completed, and a transaction row carries its hash. */
  lemma InboxAlwaysCompleted(states: seq<State>, actions: seq<Action>, i: nat, m: InboxKey)
    requires Runs(states, actions) && i < |states| && m in states[i].db.inbox
    ensures states[i].db.inbox[m].completed && HasHash(states[i].db.txs, states[i].db.inbox[m].hash)
  {
    hide CoreInv, HasHash;
    EveryStateSound(states, actions, i);
  }

  /**
   A message already committed and delivered again: its session ends with
   InboxPayloadMismatch exactly when its payload hashes differently, and then it
   changes no table and holds nothing.
   */
  lemma ForeignPayloadRefused(states: seq<State>, actions: seq<Action>, i: nat, sid: nat, m: InboxKey)
    requires Runs(states, actions) && i < |actions| && actions[i] == Run(sid) && sid in states[i].sessions
    requires states[i].sessions[sid].job.Call? && states[i].sessions[sid].job.message == Some(m) && states[i].sessions[sid].pc.AtInbox?
    requires m in states[i].db.inbox
    ensures var x, x' := states[i].sessions[sid], states[i + 1].sessions[sid];
            && (x'.pc == Done(Err(InboxPayloadMismatch)) <==> Digest(PayloadOf(x.job.cmd)) != states[i].db.inbox[m].hash)
            && (x'.pc.Done? ==> x'.held == {}) && states[i + 1].db == states[i].db
  {
    assert Step(states[i], actions[i], states[i + 1]);
    PreparedAt(states, actions, i, sid);
    assert states[i].db.(nextOrdering := states[i].db.nextOrdering + 0) == states[i].db;
  }

  /** One message id never covers two payloads: what was deleted under it had one hash. */
  lemma OneHashPerMessage(states: seq<State>, actions: seq<Action>, i: nat, d: Deletion, e: Deletion)
    requires Runs(states, actions) && i < |states| && d in states[i].deleted && e in states[i].deleted && d.message == e.message
    ensures d.cmd.hash == e.cmd.hash
  {
    hide MachineInv;
    RunKeeps(states, actions, i);
    DeletionAt(states[i], d);
    DeletionAt(states[i], e);
  }

  lemma DeletionAt(s: State, d: Deletion)
    requires MachineInv(s) && d in s.deleted
    ensures DeletedOk(s.db, d) && UniqueKeys(s.db.txs) && OneEach(s.db.ledger)
  {
  }

  lemma OneMovement(db: Db, c: Command, k: nat)
    requires UniqueKeys(db.txs) && OneEach(db.ledger) && k < |db.txs| && Records(db.txs[k], c)
    ensures MovedOnce(db, c, k)
  {
    forall l | 0 <= l < |db.txs| && HasExternal(db.txs[l], c.provider, c.external)
      ensures l == k
    {
      assert HasExternal(db.txs[k], c.provider, c.external);
      assert HasExternal(db.txs[l], db.txs[k].provider, db.txs[k].external) && HasExternal(db.txs[k], db.txs[l].provider, db.txs[l].external);
    }
  }
}
