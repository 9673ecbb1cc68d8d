/** The pending-reference worker: what its steps achieve and when one is undone. */
module WorkerProgress {
  import opened Prelude
  import opened Monetary
  import opened Tables
  import opened Domain
  import opened Engine
  import opened TxFacts
  import opened Invariants
  import opened Decisions
  import opened Statements
  import opened SessionInv
  import opened OwnSteps
  import opened Interleavings
  import opened RunTheorems

  // ---------------------------------------------------------------------
  // When a step aborts
  // ---------------------------------------------------------------------

  /** The reversal would be processed, but another one already is. */
  predicate SlotTaken(db: Db, x: Session) {
    x.pc.AtSlot? && NeedsSlot(x.pc.change) && IndexBySlot(db.txs, x.pc.change.row.provider, x.pc.change.row.ref).Some?
  }

  /** The claimed row's stored amount is always readable. */
  lemma StoredMoneyReadable(db: Db, x: Session)
    requires Inv(db) && x.job.Worker? && WorkerOk(db, x) && x.pc.AtReference?
    ensures FromMinor(x.pc.t.amount, x.pc.t.currency).Some?
  {
    assert RowOk(db.wallets, db.txs[x.pc.at]);
  }

  lemma SettleNeverRefuses(db: Db, x: Session)
    requires Inv(db) && x.job.Worker? && WorkerOk(db, x) && x.pc.AtSettle?
    ensures WorkerStatement(db, x).pc.AtTouch?
  {
    ClaimedRowOk(db, x);
    SettledWrite(db, x);
  }

  predicate Fails(x: Session) {
    x.pc.Done? && x.pc.outcome.Err?
  }

  lemma SlotStatement(db: Db, x: Session)
    requires x.job.Worker? && x.pc.AtSlot?
    ensures var x' := InsertStatement(db, x);
            (Fails(x') <==> SlotTaken(db, x)) && (SlotTaken(db, x) ==> x'.pc == Done(Err(Violation(ReversalIndex))) && x'.held == {})
  {
  }

  /** Where a claimed row's statements can go. */
  lemma EarlyStatement(db: Db, x: Session)
    requires x.job.Worker? && (x.pc.AtClaim? || x.pc.AtResolve? || x.pc.AtTouch?)
    ensures !Fails(WorkerStatement(db, x))
  {
  }

  lemma ReferenceStatement(db: Db, x: Session)
    requires x.job.Worker? && x.pc.AtReference? && FromMinor(x.pc.t.amount, x.pc.t.currency).Some?
    ensures !Fails(WorkerStatement(db, x))
  {
  }

  lemma WorkerPcs(db: Db, x: Session)
    requires x.job.Worker? && WorkerOk(db, x)
    ensures !Inserting(x.pc) || x.pc.AtSlot?
    ensures (!Inserting(x.pc) && !Finishing(x.pc) && !x.pc.AtCommit? && !x.pc.Done?) ==>
              x.pc.AtClaim? || x.pc.AtReference? || x.pc.AtResolve? || x.pc.AtSettle? || x.pc.AtTouch?
  {
  }

  lemma FinalNeverFails(x: Session, next: nat)
    requires Finishing(x.pc)
    ensures !Fails(FinalStatement(x, next))
  {
  }

  lemma StatementNeverFails(db: Db, x: Session)
    requires Inv(db) && x.job.Worker? && WorkerOk(db, x) && !Inserting(x.pc) && !x.pc.AtCommit? && !x.pc.Done?
    ensures !Fails(Statement(db, x))
  {
    WorkerPcs(db, x);
    if Finishing(x.pc) {
      FinalNeverFails(x, db.nextOrdering);
    } else if x.pc.AtReference? {
      StoredMoneyReadable(db, x);
      ReferenceStatement(db, x);
    } else if x.pc.AtSettle? {
      SettleNeverRefuses(db, x);
    } else {
      EarlyStatement(db, x);
    }
  }

  /** Apart from interruptions, a worker's statement fails exactly when the reversal's slot is taken. */
  lemma AbortsExactly(db: Db, x: Session)
    requires Inv(db) && x.job.Worker? && WorkerOk(db, x) && !x.pc.AtCommit? && !x.pc.Done?
    ensures Fails(Statement(db, x)) <==> SlotTaken(db, x)
    ensures SlotTaken(db, x) ==> Statement(db, x).pc == Done(Err(Violation(ReversalIndex))) && Statement(db, x).held == {}
  {
    WorkerPcs(db, x);
    if x.pc.AtSlot? {
      SlotStatement(db, x);
    } else {
      StatementNeverFails(db, x);
    }
  }

  /** A failed step leaves every table as it was. */
  lemma AbortChangesNothing(states: seq<State>, actions: seq<Action>, i: nat, sid: nat)
    requires Runs(states, actions) && i < |actions| && actions[i] == Run(sid)
    requires sid in states[i].sessions && sid in states[i + 1].sessions && states[i].sessions[sid].job.Worker?
    ensures Fails(states[i + 1].sessions[sid]) <==> SlotTaken(states[i].db, states[i].sessions[sid])
    ensures SlotTaken(states[i].db, states[i].sessions[sid]) ==> states[i + 1].db == states[i].db && states[i + 1].sessions[sid].held == {}
  {
    assert Step(states[i], actions[i], states[i + 1]);
    WorkerAt(states, actions, i, sid);
    AbortsExactly(states[i].db, states[i].sessions[sid]);
  }

  lemma WorkerAt(states: seq<State>, actions: seq<Action>, i: nat, sid: nat)
    requires Runs(states, actions) && i < |states| && sid in states[i].sessions && states[i].sessions[sid].job.Worker?
    ensures WorkerOk(states[i].db, states[i].sessions[sid]) && Inv(states[i].db)
  {
    SessionAt(states, actions, i, sid);
  }

  // ---------------------------------------------------------------------
  // The second reversal of one reference
  // ---------------------------------------------------------------------

  /** Once another reversal of its reference is processed, a waiting row is never processed, in no later state of the run. */
  lemma NeverProcessed(states: seq<State>, actions: seq<Action>, i: nat, j: nat, at: nat)
    requires Runs(states, actions) && i <= j < |states| && Superseded(states[i].db.txs, at)
    ensures Superseded(states[j].db.txs, at)
  {
    hide Inv, MachineInv, Superseded;
    RunGrows(states, actions, i, j);
    RunKeeps(states, actions, j);
    UniqueAt(states[j]);
    SupersededExtends(states[i].db.txs, states[j].db.txs, at);
  }

  lemma UniqueAt(s: State)
    requires MachineInv(s)
    ensures UniqueKeys(s.db.txs)
  {
  }

  lemma SupersededSlot(db: Db, x: Session, at: nat)
    requires x.job.Worker? && WorkerOk(db, x) && x.pc.AtSlot? && x.pc.slot == Some(at) && NeedsSlot(x.pc.change) && Superseded(db.txs, at)
    ensures SlotTaken(db, x)
  {
    hide Sound, NoneCreated;
    assert Fixed(x.pc.change.row).ref == Fixed(db.txs[at]).ref && Fixed(x.pc.change.row).provider == Fixed(db.txs[at]).provider;
  }

  /** And every later worker step that would process it rolls back at the reversal index, for ever. */
  lemma AbortsForever(states: seq<State>, actions: seq<Action>, i: nat, j: nat, at: nat, sid: nat)
    requires Runs(states, actions) && i <= j < |actions| && Superseded(states[i].db.txs, at) && actions[j] == Run(sid)
    requires sid in states[j].sessions && states[j].sessions[sid].job.Worker?
    requires var pc := states[j].sessions[sid].pc; pc.AtSlot? && pc.slot == Some(at) && pc.change.row.state.Processed? && pc.change.row.ref != ""
    ensures states[j + 1].db == states[j].db
    ensures states[j + 1].sessions[sid] == Ended(states[j].sessions[sid], Err(Violation(ReversalIndex)))
  {
    hide Inv, Superseded, WorkerOk;
    NeverProcessed(states, actions, i, j, at);
    WorkerAt(states, actions, j, sid);
    SupersededSlot(states[j].db, states[j].sessions[sid], at);
    assert Step(states[j], actions[j], states[j + 1]);
    assert states[j].db.(nextOrdering := states[j].db.nextOrdering + 0) == states[j].db;
  }

  // ---------------------------------------------------------------------
  // What a committed step achieves
  // ---------------------------------------------------------------------

  /** Action `a` commits a worker's step on row `at`. */
  ghost predicate Advances(s: State, a: Action, at: nat) {
    && Enabled(s, a) && a.CommitNow? && s.sessions[a.sid].job.Worker?
    && s.sessions[a.sid].pc.work.Write? && s.sessions[a.sid].pc.work.slot == Some(at)
  }

  /** A waiting row is decided for good, or it waits on with one more attempt, still below the maximum. */
  predicate Advanced(t: Tx, t': Tx, max: nat) {
    && t.state.PendingReference? && Identity(t', t)
    && (Terminal(t'.state) ||
        (t' == t.(attempts := t.attempts + 1, nextAttempt := t'.nextAttempt) && t'.attempts < max))
  }

  lemma AdvanceCommit(db: Db, x: Session, at: nat)
    requires x.job.Worker? && WorkerOk(db, x) && Committable(db, x) && x.pc.work.Write? && x.pc.work.slot == Some(at)
    ensures var txs, txs' := db.txs, Committed(db, x, x.pc.work, x.pc.orderings).txs;
            && at < |txs| == |txs'| && Advanced(txs[at], txs'[at], x.job.maxAttempts)
            && (forall k :: 0 <= k < |txs| && k != at ==> txs'[k] == txs[k])
  {
  }

  lemma CommittedStepAdvances(states: seq<State>, actions: seq<Action>, i: nat, at: nat)
    requires Runs(states, actions) && i < |actions| && Advances(states[i], actions[i], at)
    ensures var txs, txs' := states[i].db.txs, states[i + 1].db.txs;
            && at < |txs| == |txs'| && Advanced(txs[at], txs'[at], states[i].sessions[actions[i].sid].job.maxAttempts)
            && (forall k :: 0 <= k < |txs| && k != at ==> txs'[k] == txs[k])
  {
    var s := states[i];
    var x := s.sessions[actions[i].sid];
    assert Step(s, actions[i], states[i + 1]);
    WorkerAt(states, actions, i, actions[i].sid);
    AdvanceCommit(s.db, x, at);
  }

  // ---------------------------------------------------------------------
  // How many committed steps a row can take
  // ---------------------------------------------------------------------

  ghost function StepsOn(states: seq<State>, actions: seq<Action>, n: nat, at: nat): nat
    requires n <= |actions| < |states|
  {
    if n == 0 then 0 else StepsOn(states, actions, n - 1, at) + if Advances(states[n - 1], actions[n - 1], at) then 1 else 0
  }

  /** Every worker of the run is configured with the same maximum. */
  ghost predicate SameMaximum(states: seq<State>, max: nat) {
    forall i, sid :: 0 <= i < |states| && sid in states[i].sessions && states[i].sessions[sid].job.Worker?
      ==> states[i].sessions[sid].job.maxAttempts == max
  }

  /** The attempts column counts the committed steps of a waiting row. */
  predicate Counted(txs: seq<Tx>, at: nat, steps: nat, max: nat) {
    if at >= |txs| then steps == 0
    else if txs[at].state.PendingReference? then steps == txs[at].attempts < max
    else steps <= max
  }

  /** A step of anybody else leaves the row alone, or creates it without attempts. */
  lemma OthersLeaveRow(db: Db, x: Session, at: nat)
    requires SessionOk(db, x) && Committable(db, x) && !(x.job.Worker? && x.pc.work.Write? && x.pc.work.slot == Some(at))
    ensures var txs' := Committed(db, x, x.pc.work, x.pc.orderings).txs;
            && |db.txs| <= |txs'| <= |db.txs| + 1 && (at < |db.txs| ==> txs'[at] == db.txs[at])
            && (at == |db.txs| < |txs'| ==> txs'[at].attempts == 0 || !txs'[at].state.PendingReference?)
  {
    hide HeldOk, Sound, NoneCreated;
    match x.job
    case Call(_, _, _) => assert CallOk(db, x);
    case Worker(_, _, _) => assert WorkerOk(db, x);
    case Open(_, _, _, _) => assert OpenOk(db, x);
  }

  lemma OtherStepsKeepCount(states: seq<State>, actions: seq<Action>, n: nat, at: nat, steps: nat, max: nat)
    requires Runs(states, actions) && n < |actions| && !Advances(states[n], actions[n], at) && max >= 1
    requires Counted(states[n].db.txs, at, steps, max)
    ensures Counted(states[n + 1].db.txs, at, steps, max)
  {
    var s, a := states[n], actions[n];
    assert Step(s, a, states[n + 1]);
    if a.CommitNow? {
      SessionAt(states, actions, n, a.sid);
      OthersLeaveRow(s.db, s.sessions[a.sid], at);
    } else {
      assert states[n + 1].db.txs == s.db.txs;
    }
  }

  lemma AdvanceCounted(states: seq<State>, actions: seq<Action>, n: nat, at: nat, steps: nat, max: nat)
    requires Runs(states, actions) && n < |actions| && Advances(states[n], actions[n], at) && SameMaximum(states, max)
    requires Counted(states[n].db.txs, at, steps, max)
    ensures Counted(states[n + 1].db.txs, at, steps + 1, max)
  {
    CommittedStepAdvances(states, actions, n, at);
  }

  lemma {:induction false} StepsCounted(states: seq<State>, actions: seq<Action>, n: nat, at: nat, max: nat)
    requires Runs(states, actions) && n < |states| && SameMaximum(states, max) && max >= 1
    ensures Counted(states[n].db.txs, at, StepsOn(states, actions, n, at), max)
  {
    if n > 0 {
      StepsCounted(states, actions, n - 1, at, max);
      var steps := StepsOn(states, actions, n - 1, at);
      if Advances(states[n - 1], actions[n - 1], at) {
        AdvanceCounted(states, actions, n - 1, at, steps, max);
      } else {
        OtherStepsKeepCount(states, actions, n - 1, at, steps, max);
      }
    }
  }

  /** Over a whole run a row takes at most maxAttempts committed worker steps. */
  lemma StepsAreBounded(states: seq<State>, actions: seq<Action>, at: nat, max: nat)
    requires Runs(states, actions) && SameMaximum(states, max) && max >= 1
    ensures StepsOn(states, actions, |actions|, at) <= max
  {
    StepsCounted(states, actions, |actions|, at, max);
  }
}
