/** What holds over whole runs of the service, whatever the interleaving. */
module RunTheorems {
  import opened Prelude
  import opened Monetary
  import opened Tables
  import opened Domain
  import opened Engine
  import opened TxFacts
  import opened Conservation
  import opened Invariants
  import opened Commits
  import opened CommitEvents
  import opened Decisions
  import opened Openings
  import opened Statements
  import opened SessionInv
  import opened OwnSteps
  import opened CommitSteps
  import opened Interleavings

  /** Every state of every run satisfies the invariant of the database. */
  lemma EveryStateSound(states: seq<State>, actions: seq<Action>, i: nat)
    requires Runs(states, actions) && i < |states|
    ensures Inv(states[i].db)
  {
    RunKeeps(states, actions, i);
  }

  lemma SessionAt(states: seq<State>, actions: seq<Action>, i: nat, sid: nat)
    requires Runs(states, actions) && i < |states| && sid in states[i].sessions
    ensures SessionOk(states[i].db, states[i].sessions[sid]) && Inv(states[i].db)
  {
    RunKeeps(states, actions, i);
    SessionFacts(states[i], sid);
  }

  // ---------------------------------------------------------------------
  // Nothing committed is ever lost
  // ---------------------------------------------------------------------

  /** Rows keep their identity, terminal rows never change, ledger and outbox only grow, inbox rows keep their hash. */
  ghost predicate Grows(db: Db, db': Db) {
    && Extends(db.txs, db'.txs) && db.ledger <= db'.ledger && db.outbox <= db'.outbox
    && (forall m :: m in db.inbox ==> m in db'.inbox && db'.inbox[m].hash == db.inbox[m].hash)
    && (forall w :: w in db.wallets ==> w in db'.wallets && db'.wallets[w].player == db.wallets[w].player
                                        && db'.wallets[w].currency == db.wallets[w].currency)
  }

  lemma CommitAppends(db: Db, x: Session)
    requires Committable(db, x)
    ensures var db' := Committed(db, x, x.pc.work, x.pc.orderings); db.ledger <= db'.ledger && db.outbox <= db'.outbox
  {
  }

  lemma CommitGrows(db: Db, x: Session)
    requires Inv(db) && SessionOk(db, x) && Committable(db, x)
    ensures Grows(db, Committed(db, x, x.pc.work, x.pc.orderings))
  {
    CommitOutcome(db, x, true);
    CommitAppends(db, x);
  }

  lemma StepGrows(s: State, a: Action, s': State)
    requires MachineInv(s) && Step(s, a, s')
    ensures Grows(s.db, s'.db)
  {
    if a.CommitNow? {
      SessionFacts(s, a.sid);
      CommitGrows(s.db, s.sessions[a.sid]);
    } else {
      StillGrows(s.db, s'.db);
    }
  }

  lemma StillGrows(db: Db, db': Db)
    requires db' == db.(nextOrdering := db'.nextOrdering)
    ensures Grows(db, db')
  {
  }

  lemma GrowsTransitive(a: Db, b: Db, c: Db)
    requires Grows(a, b) && Grows(b, c)
    ensures Grows(a, c)
  {
    ExtendsTransitive(a.txs, b.txs, c.txs);
  }

  lemma NextGrows(states: seq<State>, actions: seq<Action>, i: nat)
    requires Runs(states, actions) && i < |actions|
    ensures Grows(states[i].db, states[i + 1].db)
  {
    RunKeeps(states, actions, i);
    assert Step(states[i], actions[i], states[i + 1]);
    StepGrows(states[i], actions[i], states[i + 1]);
  }

  lemma {:induction false} RunGrows(states: seq<State>, actions: seq<Action>, i: nat, j: nat)
    requires Runs(states, actions) && i <= j < |states|
    ensures Grows(states[i].db, states[j].db)
    decreases j - i
  {
    if i == j {
      StillGrows(states[i].db, states[j].db);
    } else {
      NextGrows(states, actions, i);
      RunGrows(states, actions, i + 1, j);
      GrowsTransitive(states[i].db, states[i + 1].db, states[j].db);
    }
  }

  /** Wallets, rows, ledger and outbox of two states are the same. */
  predicate SameMoney(db: Db, db': Db) {
    db'.wallets == db.wallets && db'.txs == db.txs && db'.ledger == db.ledger && db'.outbox == db.outbox
  }

  /** The action commits a decided write. */
  predicate Writes(s: State, a: Action) {
    a.CommitNow? && a.sid in s.sessions && s.sessions[a.sid].pc.AtCommit? && !s.sessions[a.sid].pc.work.Reply?
  }

  /**
   Only the commit of a session that has made all its index entries, holds its
   wallet and decided to write has a financial effect: replays, refused and
   interrupted transactions have none.
   */
  lemma OnlyWritesHaveEffect(states: seq<State>, actions: seq<Action>, i: nat)
    requires Runs(states, actions) && i < |actions|
    requires !Writes(states[i], actions[i])
    ensures SameMoney(states[i].db, states[i + 1].db)
  {
    assert Step(states[i], actions[i], states[i + 1]);
    if actions[i].CommitNow? {
      SessionAt(states, actions, i, actions[i].sid);
      ReplyOnlyAnswers(states[i].db, states[i].sessions[actions[i].sid]);
    }
  }

  lemma ReplyOnlyAnswers(db: Db, x: Session)
    requires SessionOk(db, x) && Committable(db, x) && x.pc.work.Reply?
    ensures SameMoney(db, Committed(db, x, x.pc.work, x.pc.orderings))
  {
    WorkOfJob(db, x);
  }

  // ---------------------------------------------------------------------
  // No lost update
  // ---------------------------------------------------------------------

  /** The wallet a session read under lock and still relies on. */
  function WalletRead(x: Session): Option<(Id, Wallet)> {
    match x.pc
    case AtRecheck(w) => if x.job.Call? then Some((x.job.cmd.wallet, w)) else None
    case AtDecide(w) => if x.job.Call? then Some((x.job.cmd.wallet, w)) else None
    case AtTouch(_, _, ch) => ReadBy(x, ch)
    case AtPk(ch) => ReadBy(x, ch)
    case AtExternal(ch) => ReadBy(x, ch)
    case AtKey(ch) => ReadBy(x, ch)
    case AtSlot(_, ch) => ReadBy(x, ch)
    case AtForeign(ch) => ReadBy(x, ch)
    case AtDraw(work, _) => if work.Write? then ReadBy(x, work.change) else None
    case AtComplete(work, _) => if work.Write? then ReadBy(x, work.change) else None
    case AtCommit(work, _) => if work.Write? then ReadBy(x, work.change) else None
    case _ => None
  }

  function ReadBy(x: Session, ch: Change): Option<(Id, Wallet)> {
    if ch.Settle? && !x.job.Open? then Some((ch.row.wallet, ch.wallet)) else None
  }

  lemma CallRead(db: Db, x: Session)
    requires x.job.Call? && CallOk(db, x) && WalletRead(x).Some?
    ensures var (id, w) := WalletRead(x).value; WalletHeld(db, x, id, w)
  {
  }

  lemma WorkerRead(db: Db, x: Session)
    requires x.job.Worker? && WorkerOk(db, x) && WalletRead(x).Some?
    ensures var (id, w) := WalletRead(x).value; WalletHeld(db, x, id, w)
  {
  }

  /** From the moment a session has locked and read its wallet until it ends, what it read is what is committed. */
  lemma ReadsStayCurrent(states: seq<State>, actions: seq<Action>, i: nat, sid: nat)
    requires Runs(states, actions) && i < |states| && sid in states[i].sessions && WalletRead(states[i].sessions[sid]).Some?
    ensures var (id, w) := WalletRead(states[i].sessions[sid]).value; id in states[i].db.wallets && states[i].db.wallets[id] == w
  {
    SessionAt(states, actions, i, sid);
    var x := states[i].sessions[sid];
    if x.job.Call? {
      CallRead(states[i].db, x);
    } else if x.job.Worker? {
      WorkerRead(states[i].db, x);
    }
  }

  /** The change a commit of a call or of the worker brings. */
  ghost predicate Brings(s: State, a: Action, slot: Option<nat>, ch: Change) {
    && Enabled(s, a) && a.CommitNow? && !s.sessions[a.sid].job.Open? && s.sessions[a.sid].pc.work == Write(slot, ch)
  }

  lemma CommitSound(db: Db, x: Session)
    requires SessionOk(db, x) && !x.job.Open? && x.pc.AtCommit? && x.pc.work.Write? && x.pc.work.change.Settle?
    ensures var ch := x.pc.work.change; Sound(db.txs, ch) && WalletHeld(db, x, ch.row.wallet, ch.wallet)
  {
    if x.job.Call? {
      assert CallOk(db, x);
    } else {
      assert WorkerOk(db, x);
    }
  }

  /**
   At every commit the wallet moves from its committed balance by exactly the
   row's amount, one version up, or not at all; and what a processed reversal
   reverses is processed and valid in the very state it is committed to.
   */
  lemma NoLostUpdate(states: seq<State>, actions: seq<Action>, i: nat, slot: Option<nat>, ch: Change)
    requires Runs(states, actions) && i < |actions| && Brings(states[i], actions[i], slot, ch) && ch.Settle?
    ensures Updates(states[i].db, states[i + 1].db.wallets, ch.row)
    ensures ch.row.state.Processed? && IsReversal(ch.row.kind) ==> RefersTo(states[i].db.txs, ch.row)
  {
    var s := states[i];
    var x := s.sessions[actions[i].sid];
    SessionAt(states, actions, i, actions[i].sid);
    CommitSound(s.db, x);
    CommitUpdates(s.db, x, slot, ch);
    assert Step(states[i], actions[i], states[i + 1]);
  }

  /** Only the row's wallet changes: by its amount and one version, or not at all. */
  ghost predicate Updates(db: Db, after: map<Id, Wallet>, row: Tx) {
    var before, w := db.wallets, row.wallet;
    && w in before && w in after
    && (if row.state.Processed? && !row.kind.Loss?
        then after[w] == before[w].(balance := before[w].balance + Moved(db.txs, row), version := before[w].version + 1)
        else after[w] == before[w])
    && (forall v :: v in before && v != w ==> v in after && after[v] == before[v])
  }

  lemma CommitUpdates(db: Db, x: Session, slot: Option<nat>, ch: Change)
    requires Committable(db, x) && !x.job.Open? && x.pc.work == Write(slot, ch) && ch.Settle?
    requires Sound(db.txs, ch) && ch.row.wallet in db.wallets && db.wallets[ch.row.wallet] == ch.wallet
    ensures Updates(db, Committed(db, x, x.pc.work, x.pc.orderings).wallets, ch.row)
  {
  }

  // ---------------------------------------------------------------------
  // Giving up on a reference
  // ---------------------------------------------------------------------

  /** A row given up as REFERENCE_NOT_FOUND has no created reference in the state it is committed to, nor right after. */
  lemma NotFoundMeansAbsent(states: seq<State>, actions: seq<Action>, i: nat, slot: Option<nat>, ch: Change)
    requires Runs(states, actions) && i < |actions| && Brings(states[i], actions[i], slot, ch)
    requires slot.Some? && ch.Settle? && ch.row.code == ReferenceNotFound
    ensures NoneCreated(states[i].db.txs, ch.row.provider, ch.row.ref)
    ensures NoneCreated(states[i + 1].db.txs, ch.row.provider, ch.row.ref)
  {
    var s := states[i];
    SessionAt(states, actions, i, actions[i].sid);
    NotFoundCommit(s.db, s.sessions[actions[i].sid], slot, ch);
    assert Step(states[i], actions[i], states[i + 1]);
  }

  lemma NotFoundCommit(db: Db, x: Session, slot: Option<nat>, ch: Change)
    requires SessionOk(db, x) && Committable(db, x) && !x.job.Open? && x.pc.work == Write(slot, ch)
    requires slot.Some? && ch.Settle? && ch.row.code == ReferenceNotFound
    ensures NoneCreated(db.txs, ch.row.provider, ch.row.ref)
    ensures NoneCreated(Committed(db, x, x.pc.work, x.pc.orderings).txs, ch.row.provider, ch.row.ref)
  {
    assert x.job.Worker? && WorkerOk(db, x);
    assert Identity(ch.row, db.txs[slot.value]);
    assert Fixed(ch.row).external == Fixed(db.txs[slot.value]).external;
  }
}
