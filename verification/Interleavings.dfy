/** Every step of the statement-level machine keeps its invariant. */
module Interleavings {
  import opened Prelude
  import opened Monetary
  import opened Tables
  import opened Domain
  import opened Engine
  import opened TxFacts
  import opened Invariants
  import opened Openings
  import opened Statements
  import opened SessionInv
  import opened Stability
  import opened OwnSteps
  import opened CommitSteps

  ghost predicate Recorded(txs: seq<Tx>, c: Command) {
    exists k :: 0 <= k < |txs| && Records(txs[k], c)
  }

  /** A deleted message was committed: its inbox row is completed, and its command has a row, both under the same hash. */
  ghost predicate DeletedOk(db: Db, d: Deletion) {
    d.message in db.inbox && db.inbox[d.message] == InboxRow(d.cmd.hash, true) && Recorded(db.txs, d.cmd)
  }

  ghost predicate AllOk(db: Db, sessions: map<nat, Session>) {
    forall sid :: sid in sessions ==> SessionOk(db, sessions[sid])
  }

  /** No lock is held twice. */
  ghost predicate Exclusive(sessions: map<nat, Session>) {
    forall a, b :: a in sessions && b in sessions && a != b ==> sessions[a].held !! sessions[b].held
  }

  ghost predicate MachineInv(s: State) {
    match s
    case State(db, sessions, deleted) =>
      Inv(db) && AllOk(db, sessions) && Exclusive(sessions) && forall d :: d in deleted ==> DeletedOk(db, d)
  }

  /** The locks of `sid` if it held these. */
  ghost predicate Apart(sessions: map<nat, Session>, sid: nat, held: set<Resource>) {
    forall other :: other in sessions && other != sid ==> sessions[other].held !! held
  }

  // ---------------------------------------------------------------------
  // One session moves, the others keep what they have
  // ---------------------------------------------------------------------

  lemma OthersKeep(s: State, s': State, sid: nat, held: set<Resource>)
    requires MachineInv(s) && Effects(s.db, s'.db, held) && Apart(s.sessions, sid, held)
    requires sid in s'.sessions && s'.sessions == s.sessions[sid := s'.sessions[sid]] && s'.deleted == s.deleted
    requires Inv(s'.db) && SessionOk(s'.db, s'.sessions[sid]) && Apart(s.sessions, sid, s'.sessions[sid].held)
    ensures MachineInv(s')
  {
    forall other | other in s'.sessions
      ensures SessionOk(s'.db, s'.sessions[other])
    {
      if other != sid {
        SessionStable(s.db, s'.db, held, s.sessions[other]);
      }
    }
    assert Exclusive(s'.sessions);
    DeletionsKeep(s.db, s'.db, held, s.deleted);
  }

  lemma DeletionsKeep(db: Db, db': Db, held: set<Resource>, deleted: set<Deletion>)
    requires Effects(db, db', held) && forall d :: d in deleted ==> DeletedOk(db, d)
    ensures forall d :: d in deleted ==> DeletedOk(db', d)
  {
    forall d | d in deleted
      ensures DeletedOk(db', d)
    {
      assert DeletedOk(db, d);
      var k :| 0 <= k < |db.txs| && Records(db.txs[k], d.cmd);
      assert Identity(db'.txs[k], db.txs[k]);
      assert Records(db'.txs[k], d.cmd);
    }
  }

  lemma OnlyOrdering(db: Db, next: nat)
    requires Inv(db) && db.nextOrdering <= next
    ensures Inv(db.(nextOrdering := next)) && Effects(db, db.(nextOrdering := next), {})
  {
    var db' := db.(nextOrdering := next);
    SameRows(db.txs, {});
    assert CoreInv(db') by {
      assert CoreInv(db);
    }
  }

  // ---------------------------------------------------------------------
  // New locks were free
  // ---------------------------------------------------------------------

  /** The index entries the update of a claimed row takes without waiting. */
  function Touches(x: Session): set<Resource> {
    if x.pc.AtTouch? && x.job.Worker?
    then {TxPk(x.pc.t.id), TxExternal(x.pc.t.provider, x.pc.t.external), TxKey(x.pc.t.provider, x.pc.t.key)}
    else {}
  }

  lemma HeldAfter(db: Db, x: Session)
    ensures Statement(db, x).held <= x.held + Needs(db, x) + Touches(x)
  {
    if Inserting(x.pc) {
    } else if Finishing(x.pc) {
    } else if x.job.Call? {
      CallHeld(db, x);
    } else {
    }
  }

  lemma CallHeld(db: Db, x: Session)
    requires x.job.Call? && !Inserting(x.pc) && !Finishing(x.pc)
    ensures CallStatement(db, x).held <= x.held + Needs(db, x)
  {
  }

  /** Nobody else can hold the keys of a claimed row. */
  lemma TouchesFree(db: Db, x: Session, y: Session)
    requires x.job.Worker? && WorkerOk(db, x) && HeldOk(db, y) && x.held !! y.held
    ensures Touches(x) !! y.held
  {
    if x.pc.AtTouch? {
      var at, t := x.pc.at, x.pc.t;
      assert HasExternal(db.txs[at], t.provider, t.external) && HasKey(db.txs[at], t.provider, t.key) && db.txs[at].id == t.id;
      assert Own(y) != Some(at);
      forall r | r in Touches(x)
        ensures r !in y.held
      {
        assert !Guarded(db, r, Own(y));
      }
    }
  }

  lemma NewLocksFree(s: State, sid: nat)
    requires MachineInv(s) && sid in s.sessions && !Blocked(s, sid)
    ensures Apart(s.sessions, sid, Statement(s.db, s.sessions[sid]).held)
  {
    var x := s.sessions[sid];
    HeldAfter(s.db, x);
    forall other | other in s.sessions && other != sid
      ensures s.sessions[other].held !! Statement(s.db, x).held
    {
      var y := s.sessions[other];
      assert Needs(s.db, x) !! y.held;
      if x.job.Worker? {
        assert SessionOk(s.db, x) && SessionOk(s.db, y);
        TouchesFree(s.db, x, y);
      }
    }
  }

  // ---------------------------------------------------------------------
  // The actions
  // ---------------------------------------------------------------------

  /** A session that has just begun holds nothing and has read nothing. */
  lemma FreshSession(db: Db, job: Job)
    requires Admissible(job)
    ensures SessionOk(db, Session(job, First(job), {}, false))
  {
    hide Inv;
    var x := Session(job, First(job), {}, false);
    assert HeldOk(db, x);
    match job
    case Call(_, message, _) => assert CallOk(db, x);
    case Worker(_, _, _) => assert WorkerOk(db, x);
    case Open(_, _, _, _) => assert OpenOk(db, x);
  }

  /** One session moves without a commit: it keeps its facts, and its locks are apart from the others'. */
  lemma SessionMoves(s: State, sid: nat, x: Session)
    requires MachineInv(s) && SessionOk(s.db, x) && Apart(s.sessions, sid, x.held)
    ensures MachineInv(s.(sessions := s.sessions[sid := x]))
  {
    hide Inv, SessionOk, Effects, DeletedOk;
    var s' := s.(sessions := s.sessions[sid := x]);
    assert s.db.(nextOrdering := s.db.nextOrdering) == s.db;
    OnlyOrdering(s.db, s.db.nextOrdering);
    OthersKeep(s, s', sid, {});
  }

  lemma BeginKeeps(s: State, sid: nat, job: Job)
    requires MachineInv(s) && Enabled(s, Begin(sid, job))
    ensures MachineInv(Apply(s, Begin(sid, job)))
  {
    hide MachineInv, SessionOk;
    FreshSession(s.db, job);
    SessionMoves(s, sid, Session(job, First(job), {}, false));
  }

  lemma ClaimedOk(db: Db, x: Session, at: nat)
    requires Admissible(x.job) && x.job.Worker? && at < |db.txs| && db.txs[at].state.PendingReference?
    requires x.pc == AtReference(at, db.txs[at]) && x.held == {PendingRow(at)}
    ensures SessionOk(db, x)
  {
  }

  lemma ClaimKeeps(s: State, sid: nat, at: nat)
    requires MachineInv(s) && Enabled(s, ClaimPending(sid, at))
    ensures MachineInv(Apply(s, ClaimPending(sid, at)))
  {
    hide MachineInv, HeldOk, JobOk;
    SessionFacts(s, sid);
    var x' := s.sessions[sid].(pc := AtReference(at, s.db.txs[at]), held := {PendingRow(at)});
    ClaimedOk(s.db, x', at);
    SessionMoves(s, sid, x');
  }

  lemma StatementKeeps(s: State, sid: nat)
    requires MachineInv(s) && Enabled(s, Run(sid))
    ensures MachineInv(Apply(s, Run(sid)))
  {
    hide MachineInv, Inv, SessionOk, Effects, Statement;
    var x := s.sessions[sid];
    var next := s.db.nextOrdering + Draws(x);
    var s' := State(s.db.(nextOrdering := next), s.sessions[sid := Statement(s.db, x)], s.deleted);
    SessionFacts(s, sid);
    OnlyOrdering(s.db, next);
    OwnStep(s.db, s'.db, x);
    NewLocksFree(s, sid);
    OthersKeep(s, s', sid, {});
  }

  lemma CutOffKeeps(s: State, sid: nat)
    requires MachineInv(s) && Enabled(s, CutOff(sid))
    ensures MachineInv(Apply(s, CutOff(sid)))
  {
    hide MachineInv, HeldOk, JobOk;
    SessionFacts(s, sid);
    EndedOk(s.db, s.sessions[sid], Interrupted);
    SessionMoves(s, sid, Ended(s.sessions[sid], Err(Interrupted)));
  }

  lemma DeleteKeeps(s: State, sid: nat)
    requires MachineInv(s) && Enabled(s, DeleteMessage(sid))
    ensures MachineInv(Apply(s, DeleteMessage(sid)))
  {
    hide MachineInv, SessionOk, DeletedOk;
    var x := s.sessions[sid];
    SessionFacts(s, sid);
    DoneDeletes(s.db, x);
    MoreDeleted(s, Deletion(x.job.message.value, x.job.cmd));
  }

  lemma DoneDeletes(db: Db, x: Session)
    requires SessionOk(db, x) && x.job.Call? && x.job.message.Some? && x.pc.Done? && x.pc.outcome.Ok?
    ensures DeletedOk(db, Deletion(x.job.message.value, x.job.cmd))
  {
    var r := x.pc.outcome.value.value;
    assert Replied(db, x.job.cmd, r);
    var k: nat :| Answers(db, x.job.cmd, r, k);
    assert Records(db.txs[k], x.job.cmd);
  }

  lemma MoreDeleted(s: State, d: Deletion)
    requires MachineInv(s) && DeletedOk(s.db, d)
    ensures MachineInv(State(s.db, s.sessions, s.deleted + {d}))
  {
  }

  // ---------------------------------------------------------------------
  // Commits
  // ---------------------------------------------------------------------

  /** What a commit leaves before the inbox row. */
  ghost function Settled(db: Db, x: Session): Db
    requires Committable(db, x)
  {
    match x.job
    case Open(id, txId, player, opening) => CommitOpening(db, id, txId, player, opening, x.pc.orderings)
    case _ => if x.pc.work.Write? then Commit(db, x.pc.work.slot, x.pc.work.change, x.pc.orderings) else db
  }

  /** What a call about to commit has in hand: a row to insert, or an answer. */
  lemma CallWorkAt(db: Db, x: Session)
    requires x.job.Call? && CallOk(db, x) && x.pc.AtCommit?
    ensures InboxPart(db, x)
    ensures x.pc.work.Write? ==> x.pc.work.slot.None? && x.pc.work.change.Settle?
    ensures !x.pc.work.Write? ==> x.pc.work.Reply? && Replied(db, x.job.cmd, x.pc.work.result)
  {
    hide HeldOk, Sound, Replied;
  }

  lemma CommitKeepsInbox(db: Db, slot: Option<nat>, ch: Change, orderings: seq<nat>)
    requires (slot.Some? ==> slot.value < |db.txs|) && |orderings| == EventCount(ch)
    ensures Commit(db, slot, ch, orderings).inbox == db.inbox
  {
  }

  lemma CallCommit(db: Db, x: Session)
    requires Inv(db) && HeldOk(db, x) && x.job.Call? && CallOk(db, x) && Committable(db, x)
    ensures Inv(Settled(db, x)) && Effects(db, Settled(db, x), x.held) && Settled(db, x).inbox == db.inbox && InboxPart(db, x)
    ensures ResultOf(x.pc.work).Some? && Replied(Settled(db, x), x.job.cmd, ResultOf(x.pc.work).value)
  {
    hide Inv, Effects, HeldOk, Replied, Commit;
    CallWorkAt(db, x);
    if x.pc.work.Write? {
      CallWriteCommit(db, x, x.pc.work.change, x.pc.orderings);
      CommitKeepsInbox(db, None, x.pc.work.change, x.pc.orderings);
    } else {
      ReplyCommit(db, x);
    }
  }

  lemma OtherCommit(db: Db, x: Session)
    requires Inv(db) && HeldOk(db, x) && !x.job.Call? && JobOk(db, x) && Admissible(x.job) && Committable(db, x)
    ensures Inv(Settled(db, x)) && Effects(db, Settled(db, x), x.held) && Settled(db, x).inbox == db.inbox
  {
    var work, orderings := x.pc.work, x.pc.orderings;
    if x.job.Worker? {
      assert work == Write(Some(work.slot.value), work.change);
      WorkerCommit(db, x, work.slot.value, work.change, orderings);
      assert Settled(db, x) == Commit(db, Some(work.slot.value), work.change, orderings);
    } else {
      OpenCommit(db, x);
    }
  }

  lemma OpenCommit(db: Db, x: Session)
    requires Inv(db) && HeldOk(db, x) && x.job.Open? && OpenOk(db, x) && Admissible(x.job) && Committable(db, x)
    ensures Inv(Settled(db, x)) && Effects(db, Settled(db, x), x.held) && Settled(db, x).inbox == db.inbox
  {
    hide Inv, Effects, HeldOk, Commit;
    if x.pc.work.Bare? {
      BareCommit(db, x);
    } else {
      FundedCommit(db, x, x.pc.work.change, x.pc.orderings);
      CommitKeepsInbox(db.(wallets := db.wallets[x.job.id := Unopened(x.job.player, x.job.opening)]), None,
                       OpeningChange(x.job.id, x.job.txId, x.job.player, x.job.opening), x.pc.orderings);
    }
  }

  lemma CommittedIs(db: Db, x: Session)
    requires Committable(db, x)
    ensures Committed(db, x, x.pc.work, x.pc.orderings) == Completed(Settled(db, x), x)
  {
  }

  lemma CallEnds(db: Db, x: Session, r: Result)
    requires x.job.Call? && Admissible(x.job) && Replied(db, x.job.cmd, r)
    requires x.job.message.Some? ==> x.job.message.value in db.inbox && db.inbox[x.job.message.value] == InboxRow(x.job.cmd.hash, true)
    ensures SessionOk(db, Ended(x, Ok(Some(r))))
  {
  }

  lemma OtherEnds(db: Db, x: Session, outcome: Outcome<Option<Result>, Error>)
    requires !x.job.Call? && Admissible(x.job)
    ensures SessionOk(db, Ended(x, outcome))
  {
  }

  /** What a commit does to the database and to its own session. */
  lemma CommitOutcome(db: Db, x: Session, seen: bool)
    requires Inv(db) && SessionOk(db, x) && Committable(db, x)
    ensures var db' := Committed(db, x, x.pc.work, x.pc.orderings);
            && Inv(db') && Effects(db, db', x.held)
            && SessionOk(db', Ended(x, if seen then Ok(ResultOf(x.pc.work)) else Err(Interrupted)))
  {
    hide Inv, Effects, HeldOk, CallOk, WorkerOk, OpenOk, Replied, InboxPart, HasHash, Committed, Settled;
    CommittedIs(db, x);
    var after := Settled(db, x);
    var db' := Completed(after, x);
    if x.job.Call? {
      CallCommit(db, x);
      RepliedHash(after, x.job.cmd, ResultOf(x.pc.work).value);
      RepliedStable(after, db', x.job.cmd, ResultOf(x.pc.work).value);
      CallEnds(db', x, ResultOf(x.pc.work).value);
    } else {
      OtherCommit(db, x);
      OtherEnds(db', x, Ok(ResultOf(x.pc.work)));
    }
    CompletedKeeps(after, x);
    CompletedEffects(db, after, x);
    EndedOk(db', x, Interrupted);
  }

  lemma ApartAt(s: State, sid: nat)
    requires MachineInv(s) && sid in s.sessions
    ensures Apart(s.sessions, sid, s.sessions[sid].held)
  {
    hide Inv, SessionOk, DeletedOk;
  }

  lemma CommitNowKeeps(s: State, sid: nat, seen: bool)
    requires MachineInv(s) && Enabled(s, CommitNow(sid, seen))
    ensures MachineInv(Apply(s, CommitNow(sid, seen)))
  {
    hide MachineInv, Inv, SessionOk, Effects, Committed;
    var x := s.sessions[sid];
    SessionFacts(s, sid);
    ApartAt(s, sid);
    CommitOutcome(s.db, x, seen);
    OthersKeep(s, Apply(s, CommitNow(sid, seen)), sid, x.held);
  }

  // ---------------------------------------------------------------------
  // Whole runs
  // ---------------------------------------------------------------------

  lemma StepKeeps(s: State, a: Action, s': State)
    requires MachineInv(s) && Step(s, a, s')
    ensures MachineInv(s')
  {
    hide MachineInv, Enabled, Apply;
    match a
    case Begin(sid, job) => BeginKeeps(s, sid, job);
    case ClaimPending(sid, at) => ClaimKeeps(s, sid, at);
    case Run(sid) => StatementKeeps(s, sid);
    case CommitNow(sid, seen) => CommitNowKeeps(s, sid, seen);
    case CutOff(sid) => CutOffKeeps(s, sid);
    case DeleteMessage(sid) => DeleteKeeps(s, sid);
  }

  lemma {:induction false} StepsKeep(states: seq<State>, actions: seq<Action>, i: nat)
    requires |states| == |actions| + 1 && (forall k :: 0 <= k < |actions| ==> Step(states[k], actions[k], states[k + 1]))
    requires i < |states| && MachineInv(states[0])
    ensures MachineInv(states[i])
  {
    hide MachineInv, Step;
    if i > 0 {
      StepsKeep(states, actions, i - 1);
      StepKeeps(states[i - 1], actions[i - 1], states[i - 1 + 1]);
    }
  }

  lemma StartOk()
    ensures MachineInv(Start)
  {
    assert CoreInv(EmptyDb);
  }

  /** Every state of every run satisfies the machine invariant. */
  lemma RunKeeps(states: seq<State>, actions: seq<Action>, i: nat)
    requires Runs(states, actions) && i < |states|
    ensures MachineInv(states[i])
  {
    StartOk();
    StepsKeep(states, actions, i);
  }

  lemma SessionFacts(s: State, sid: nat)
    requires MachineInv(s) && sid in s.sessions
    ensures SessionOk(s.db, s.sessions[sid]) && Inv(s.db)
  {
    hide Inv, SessionOk;
  }
}
