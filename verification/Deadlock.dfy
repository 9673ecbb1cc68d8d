/**
 Locks are taken in one global order, so no set of sessions ever waits for itself:
 a new inbox identity or a claimed waiting row, then the identity lock, then the
 wallet row, then the unique indexes in index order, then an existing inbox row.
 */
module Deadlock {
  import opened Prelude
  import opened Monetary
  import opened Tables
  import opened Engine
  import opened Statements
  import opened SessionInv
  import opened OwnSteps
  import opened Interleavings

  function Rank(r: Resource): nat {
    match r
    case InboxInsert(_) => 0
    case PendingRow(_) => 1
    case Advisory(_) => 2
    case WalletRow(_) => 3
    case WalletPk(_) => 4
    case WalletOwner(_, _) => 5
    case TxPk(_) => 6
    case TxExternal(_, _) => 7
    case TxKey(_, _) => 8
    case TxSlot(_, _) => 9
    case InboxUpdate(_) => 10
  }

  /** The lowest rank a session at this point may still ask for. */
  function Floor(pc: Pc): nat {
    match pc
    case AtInbox => 0
    case AtClaim => 1
    case AtIdentity => 2
    case AtReference(_, _) => 2
    case AtLookup => 3
    case AtResolve(_, _) => 3
    case AtWallet => 3
    case AtSettle(_, _, _) => 3
    case AtRecheck(_) => 4
    case AtDecide(_) => 4
    case AtNewWallet => 4
    case AtOwner => 5
    case AtPk(_) => 6
    case AtTouch(_, _, _) => 6
    case AtExternal(_) => 7
    case AtKey(_) => 8
    case AtSlot(_, _) => 9
    case AtForeign(_) => 10
    case AtDraw(_, _) => 10
    case AtComplete(_, _) => 10
    case AtCommit(_, _) => 11
    case AtConflict => 11
    case Done(_) => 11
  }

  /** Everything held ranks below everything still to be asked for. */
  ghost predicate InRank(x: Session) {
    forall r :: r in x.held ==> Rank(r) < Floor(x.pc)
  }

  lemma NeedsRank(db: Db, x: Session)
    ensures forall r :: r in Needs(db, x) ==> Rank(r) >= Floor(x.pc)
  {
  }

  lemma InsertInRank(db: Db, x: Session)
    requires InRank(x) && Inserting(x.pc)
    ensures InRank(InsertStatement(db, x))
  {
    hide IndexById, IndexByExternal, IndexByKey, IndexBySlot;
  }

  lemma FoundInRank(db: Db, x: Session, missing: Session)
    requires InRank(x) && Floor(x.pc) <= 10 && InRank(missing)
    ensures x.job.Call? ==> InRank(Found(x, db, FindExisting(db.txs, x.job.cmd), missing))
  {
  }

  lemma DecideInRank(db: Db, x: Session)
    requires InRank(x) && x.job.Call? && x.pc.AtDecide?
    ensures InRank(CallStatement(db, x))
  {
    if IsInt64(x.job.cmd.amount.minor) {
      PlannedInRank(x, x.pc.w, Decide(x.job.cmd, x.pc.w, LookupExternal(db.txs, x.job.cmd.provider, x.job.cmd.ref)));
    }
  }

  lemma PlannedInRank(x: Session, w: Wallet, plan: Plan)
    requires InRank(x) && x.job.Call? && x.pc.AtDecide?
    ensures InRank(Planned(x, w, plan))
  {
  }

  lemma ConcludingInRank(x: Session, at: nat, t: Tx, resolution: Resolution, w: Wallet, plan: Plan)
    requires InRank(x) && x.job.Worker? && x.pc.AtSettle?
    ensures InRank(Concluding(x, at, t, resolution, w, plan))
  {
  }

  lemma CallInRank(db: Db, x: Session)
    requires InRank(x) && x.job.Call? && !Inserting(x.pc) && !Finishing(x.pc)
    ensures InRank(CallStatement(db, x))
  {
    match x.pc
    case AtLookup => FoundInRank(db, x, x.(pc := AtWallet));
    case AtRecheck(w) => FoundInRank(db, x, x.(pc := AtDecide(w)));
    case AtDecide(_) => DecideInRank(db, x);
    case AtInbox => InboxInRank(db, x);
    case _ =>
  }

  lemma InboxInRank(db: Db, x: Session)
    requires InRank(x) && x.job.Call? && x.pc.AtInbox?
    ensures InRank(CallStatement(db, x))
  {
  }

  lemma WorkerInRank(db: Db, x: Session)
    requires InRank(x) && x.job.Worker? && !Inserting(x.pc) && !Finishing(x.pc)
    ensures InRank(WorkerStatement(db, x))
  {
    match x.pc
    case AtSettle(at, t, resolution) => SettleInRank(db, x);
    case _ =>
  }

  lemma SettleInRank(db: Db, x: Session)
    requires InRank(x) && x.job.Worker? && x.pc.AtSettle?
    ensures InRank(WorkerStatement(db, x))
  {
    var t := x.pc.t;
    if t.wallet in db.wallets {
      ConcludingInRank(x, x.pc.at, t, x.pc.resolution, db.wallets[t.wallet], Conclude(t, db.wallets[t.wallet], x.pc.resolution));
    }
  }

  lemma OpenInRank(db: Db, x: Session)
    requires InRank(x) && x.job.Open? && !Inserting(x.pc) && !Finishing(x.pc)
    ensures InRank(OpenStatement(db, x))
  {
  }

  lemma StatementInRank(db: Db, x: Session)
    requires InRank(x)
    ensures InRank(Statement(db, x))
  {
    if Inserting(x.pc) {
      InsertInRank(db, x);
    } else if !Finishing(x.pc) {
      match x.job
      case Call(_, _, _) => CallInRank(db, x);
      case Worker(_, _, _) => WorkerInRank(db, x);
      case Open(_, _, _, _) => OpenInRank(db, x);
    }
  }

  ghost predicate AllInRank(sessions: map<nat, Session>) {
    forall sid :: sid in sessions ==> InRank(sessions[sid])
  }

  lemma StepInRank(s: State, a: Action, s': State)
    requires AllInRank(s.sessions) && Step(s, a, s')
    ensures AllInRank(s'.sessions)
  {
    if a.Run? {
      StatementInRank(s.db, s.sessions[a.sid]);
    }
  }

  lemma {:induction false} RunInRank(states: seq<State>, actions: seq<Action>, i: nat)
    requires Runs(states, actions) && i < |states|
    ensures AllInRank(states[i].sessions)
  {
    if i > 0 {
      RunInRank(states, actions, i - 1);
      assert Step(states[i - 1], actions[i - 1], states[i - 1 + 1]);
      StepInRank(states[i - 1], actions[i - 1], states[i]);
    }
  }

  // ---------------------------------------------------------------------
  // Waiting
  // ---------------------------------------------------------------------

  /** Session a cannot run its next statement before session b ends. */
  ghost predicate WaitsFor(s: State, a: nat, b: nat) {
    && a in s.sessions && b in s.sessions && a != b
    && !(Needs(s.db, s.sessions[a]) !! s.sessions[b].held)
  }

  lemma WaitingClimbs(s: State, a: nat, b: nat)
    requires AllInRank(s.sessions) && WaitsFor(s, a, b)
    ensures Floor(s.sessions[a].pc) < Floor(s.sessions[b].pc)
  {
    NeedsRank(s.db, s.sessions[a]);
    var r :| r in Needs(s.db, s.sessions[a]) && r in s.sessions[b].held;
  }

  ghost predicate WaitingPath(s: State, path: seq<nat>) {
    && |path| > 0 && (forall k :: 0 <= k < |path| ==> path[k] in s.sessions)
    && forall k :: 0 < k < |path| ==> WaitsFor(s, path[k - 1], path[k])
  }

  lemma {:induction false} PathClimbs(s: State, path: seq<nat>)
    requires AllInRank(s.sessions) && WaitingPath(s, path)
    ensures Floor(s.sessions[path[0]].pc) + |path| - 1 <= Floor(s.sessions[path[|path| - 1]].pc)
  {
    var n := |path| - 1;
    if n > 0 {
      PathClimbs(s, path[..n]);
      assert WaitsFor(s, path[n - 1], path[n]);
      WaitingClimbs(s, path[n - 1], path[n]);
    }
  }

  /** In no state of no run does a session wait for itself, through however many others; and no chain of waits exceeds twelve sessions. */
  lemma NoDeadlock(states: seq<State>, actions: seq<Action>, i: nat, path: seq<nat>)
    requires Runs(states, actions) && i < |states| && WaitingPath(states[i], path)
    ensures |path| > 1 ==> path[0] != path[|path| - 1] && !WaitsFor(states[i], path[|path| - 1], path[0])
    ensures |path| <= 12
  {
    var s := states[i];
    RunInRank(states, actions, i);
    PathClimbs(s, path);
    if |path| > 1 && WaitsFor(s, path[|path| - 1], path[0]) {
      WaitingClimbs(s, path[|path| - 1], path[0]);
    }
  }

  // ---------------------------------------------------------------------
  // Somebody can always go on
  // ---------------------------------------------------------------------

  ghost predicate Unfinished(s: State, sid: nat) {
    sid in s.sessions && !s.sessions[sid].pc.Done?
  }

  /** Following the waits from any unfinished session leads to one that waits for nobody. */
  lemma {:induction false} SomebodyFree(s: State, sid: nat) returns (free: nat)
    requires AllInRank(s.sessions) && Unfinished(s, sid)
    requires forall b :: b in s.sessions && s.sessions[b].pc.Done? ==> s.sessions[b].held == {}
    ensures Unfinished(s, free) && !Blocked(s, free)
    decreases 11 - Floor(s.sessions[sid].pc)
  {
    if Blocked(s, sid) {
      var other :| other != sid && other in s.sessions && !(Needs(s.db, s.sessions[sid]) !! s.sessions[other].held);
      assert WaitsFor(s, sid, other);
      WaitingClimbs(s, sid, other);
      free := SomebodyFree(s, other);
    } else {
      free := sid;
    }
  }

  lemma CommitReady(db: Db, x: Session)
    requires SessionOk(db, x) && x.pc.AtCommit?
    ensures Committable(db, x)
  {
    WorkOfJob(db, x);
  }

  /** Finished sessions hold nothing. */
  lemma {:induction false} DoneHoldsNothing(states: seq<State>, actions: seq<Action>, i: nat)
    requires Runs(states, actions) && i < |states|
    ensures forall b :: b in states[i].sessions && states[i].sessions[b].pc.Done? ==> states[i].sessions[b].held == {}
  {
    if i > 0 {
      DoneHoldsNothing(states, actions, i - 1);
      assert Step(states[i - 1], actions[i - 1], states[i - 1 + 1]);
      if actions[i - 1].Run? {
        EndsEmpty(states[i - 1].db, states[i - 1].sessions[actions[i - 1].sid]);
      }
    }
  }

  lemma EndsEmpty(db: Db, x: Session)
    requires !x.pc.Done?
    ensures Statement(db, x).pc.Done? ==> Statement(db, x).held == {}
  {
  }

  /** As long as a session is unfinished, some session can run its next statement or commit. */
  lemma SomebodyCanGoOn(states: seq<State>, actions: seq<Action>, i: nat, sid: nat) returns (next: Action)
    requires Runs(states, actions) && i < |states| && Unfinished(states[i], sid)
    ensures Enabled(states[i], next) && (next.Run? || next.CommitNow?)
  {
    var s := states[i];
    RunInRank(states, actions, i);
    DoneHoldsNothing(states, actions, i);
    var free := SomebodyFree(s, sid);
    if s.sessions[free].pc.AtCommit? {
      RunKeeps(states, actions, i);
      SessionFacts(s, free);
      CommitReady(s.db, s.sessions[free]);
      next := CommitNow(free, true);
    } else {
      next := Run(free);
    }
  }
}
