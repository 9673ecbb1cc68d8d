/**
 Sessions really overlap: the identity locks keep apart exactly the calls that
 share a lock, and two calls of different identities can race up to the same
 unique index.
 */
module Overlaps {
  import opened Prelude
  import opened Monetary
  import opened Tables
  import opened Domain
  import opened Engine
  import opened TxFacts
  import opened Invariants
  import opened Openings
  import opened Statements
  import opened SessionInv
  import opened Interleavings

  // ---------------------------------------------------------------------
  // Reachable states
  // ---------------------------------------------------------------------

  ghost predicate Reaches(s: State) {
    exists states, actions :: Runs(states, actions) && states[|states| - 1] == s
  }

  lemma StartReached()
    ensures Reaches(Start)
  {
    assert Runs([Start], []);
  }

  lemma ThenReaches(s: State, a: Action, s': State)
    requires Reaches(s) && Step(s, a, s')
    ensures Reaches(s')
  {
    hide Step;
    var states, actions :| Runs(states, actions) && states[|states| - 1] == s;
    var longer, more := states + [s'], actions + [a];
    forall i | 0 <= i < |more|
      ensures Step(longer[i], more[i], longer[i + 1])
    {
      assert i < |actions| ==> Step(states[i], actions[i], states[i + 1]);
    }
    assert Runs(longer, more);
  }

  lemma ReachedIsSound(s: State)
    requires Reaches(s)
    ensures MachineInv(s)
  {
    hide MachineInv;
    var states, actions :| Runs(states, actions) && states[|states| - 1] == s;
    RunKeeps(states, actions, |states| - 1);
  }

  // ---------------------------------------------------------------------
  // Two sessions among idle ones
  // ---------------------------------------------------------------------

  /** Nobody holds a lock. */
  ghost predicate Idle(s: State) {
    forall sid :: sid in s.sessions ==> s.sessions[sid].held == {}
  }

  /** The state `s` with sessions a and b added. */
  function Two(s: State, a: nat, x: Session, b: nat, y: Session): State {
    s.(sessions := s.sessions[a := x][b := y])
  }

  lemma Swap(s: State, a: nat, x: Session, b: nat, y: Session)
    requires a != b
    ensures Two(s, a, x, b, y) == Two(s, b, y, a, x)
  {
    assert s.sessions[a := x][b := y] == s.sessions[b := y][a := x];
  }

  /** Session a runs a statement for which session b holds nothing. */
  lemma RunsNext(s: State, a: nat, x: Session, b: nat, y: Session, x': Session, s': State)
    requires Idle(s) && a != b && Reaches(Two(s, a, x, b, y))
    requires !x.pc.AtCommit? && !x.pc.Done? && Needs(s.db, x) !! y.held && x' == Statement(s.db, x)
    requires s' == s.(db := s.db.(nextOrdering := s.db.nextOrdering + Draws(x)))
    ensures Reaches(Two(s', a, x', b, y))
  {
    hide Reaches, Statement, Needs, Draws;
    var t, t' := Two(s, a, x, b, y), Two(s', a, x', b, y);
    assert !Blocked(t, a);
    assert t'.sessions == t.sessions[a := x'];
    ThenReaches(t, Run(a), t');
  }

  /** Most statements draw no sequence number. */
  lemma RunsFree(s: State, a: nat, x: Session, b: nat, y: Session, x': Session)
    requires Idle(s) && a != b && Reaches(Two(s, a, x, b, y))
    requires !x.pc.AtCommit? && !x.pc.Done? && !x.pc.AtDraw? && Needs(s.db, x) !! y.held && x' == Statement(s.db, x)
    ensures Reaches(Two(s, a, x', b, y))
  {
    hide Reaches, Idle, Statement, Needs;
    assert s.db.(nextOrdering := s.db.nextOrdering + 0) == s.db;
    RunsNext(s, a, x, b, y, x', s);
  }

  function Fresh(job: Job): Session {
    Session(job, First(job), {}, false)
  }

  lemma BothBegin(s: State, a: nat, job: Job, b: nat, other: Job)
    requires Reaches(s) && Admissible(job) && Admissible(other) && a != b && a !in s.sessions && b !in s.sessions
    ensures Reaches(Two(s, a, Fresh(job), b, Fresh(other)))
  {
    hide Reaches, Admissible;
    var t := s.(sessions := s.sessions[a := Fresh(job)]);
    ThenReaches(s, Begin(a, job), t);
    ThenReaches(t, Begin(b, other), Two(s, a, Fresh(job), b, Fresh(other)));
  }

  // ---------------------------------------------------------------------
  // Identity locks
  // ---------------------------------------------------------------------

  ghost predicate LocatedCall(s: State, sid: nat, c: Command) {
    sid in s.sessions && s.sessions[sid].job.Call? && s.sessions[sid].job.cmd == c && Located(s.sessions[sid])
  }

  /** Two open calls of these commands, both past their identity lock. */
  ghost predicate Overlap(s: State, c: Command, d: Command) {
    exists a: nat, b: nat :: a != b && LocatedCall(s, a, c) && LocatedCall(s, b, d)
  }

  lemma SharedLockExcludes(s: State, c: Command, d: Command)
    requires Reaches(s) && Overlap(s, c, d)
    ensures IdentityLock(c.provider, c.external) != IdentityLock(d.provider, d.external)
  {
    hide Reaches, Inv, SessionOk, DeletedOk, HashText;
    ReachedIsSound(s);
    var a: nat, b: nat :| a != b && LocatedCall(s, a, c) && LocatedCall(s, b, d);
    assert s.sessions[a].held !! s.sessions[b].held;
  }

  lemma OwnLocksAdmit(c: Command, d: Command) returns (s: State)
    requires Admissible(Call(c, None, 0)) && Admissible(Call(d, None, 0))
    requires IdentityLock(c.provider, c.external) != IdentityLock(d.provider, d.external)
    ensures Reaches(s) && Overlap(s, c, d)
  {
    hide Reaches, Admissible, IdentityLock;
    var x, y := Fresh(Call(c, None, 0)), Fresh(Call(d, None, 0));
    StartReached();
    BothBegin(Start, 0, x.job, 1, y.job);
    var x' := x.(pc := AtLookup, held := {IdentityLock(c.provider, c.external)});
    var y' := y.(pc := AtLookup, held := {IdentityLock(d.provider, d.external)});
    RunsFree(Start, 0, x, 1, y, x');
    Swap(Start, 0, x', 1, y);
    RunsFree(Start, 1, y, 0, x', y');
    Swap(Start, 1, y', 0, x');
    s := Two(Start, 0, x', 1, y');
    assert LocatedCall(s, 0, c) && LocatedCall(s, 1, d);
  }

  /** Two commands can be past their identity locks at the same time exactly when those are two locks. */
  lemma OverlapExactly(c: Command, d: Command)
    requires Admissible(Call(c, None, 0)) && Admissible(Call(d, None, 0))
    ensures (exists s :: Reaches(s) && Overlap(s, c, d)) <==> IdentityLock(c.provider, c.external) != IdentityLock(d.provider, d.external)
  {
    hide Reaches, Overlap, Admissible, IdentityLock;
    if IdentityLock(c.provider, c.external) != IdentityLock(d.provider, d.external) {
      var s := OwnLocksAdmit(c, d);
    }
    forall s | Reaches(s) && Overlap(s, c, d)
      ensures IdentityLock(c.provider, c.external) != IdentityLock(d.provider, d.external)
    {
      SharedLockExcludes(s, c, d);
    }
  }

  // ---------------------------------------------------------------------
  // A race on a unique index
  // ---------------------------------------------------------------------

  /** A LOSS that the wallet w accepts and that no committed row knows. */
  predicate NewLoss(db: Db, c: Command, w: Wallet) {
    && c.wallet in db.wallets && db.wallets[c.wallet] == w && FindExisting(db.txs, c).Missing?
    && c.kind.Loss? && c.ref == "" && c.player == w.player != "" && c.amount == Money(0, w.currency) && FromMinor(w.balance, w.currency).Some?
  }

  function LossResult(c: Command, w: Wallet): Result {
    Result(c.id, Processed, w.balance, c.amount, NoCode)
  }

  function LossChange(c: Command, w: Wallet): Change {
    Settle(NewRow(c, LossResult(c, w), 0), LossResult(c, w), w, None)
  }

  lemma LossDecided(c: Command, w: Wallet, reference: Option<Tx>)
    requires c.kind.Loss? && c.player == w.player != "" && c.amount == Money(0, w.currency) && FromMinor(w.balance, w.currency).Some?
    ensures Decide(c, w, reference) == Persist(LossResult(c, w), None)
  {
  }

  /** The session of a call at a later statement, with these locks. */
  function At(c: Command, pc: Pc, held: set<Resource>): Session {
    Session(Call(c, None, 0), pc, held, false)
  }

  ghost function ReadLocks(c: Command): set<Resource> {
    {IdentityLock(c.provider, c.external), WalletRow(c.wallet)}
  }

  /** What the statements before the insert do with a new LOSS. */
  lemma LossReads(db: Db, c: Command, w: Wallet)
    requires NewLoss(db, c, w)
    ensures var lock := {IdentityLock(c.provider, c.external)};
            && Statement(db, At(c, AtIdentity, {})) == At(c, AtLookup, lock)
            && Statement(db, At(c, AtLookup, lock)) == At(c, AtWallet, lock)
            && Statement(db, At(c, AtWallet, lock)) == At(c, AtRecheck(w), ReadLocks(c))
            && Statement(db, At(c, AtRecheck(w), ReadLocks(c))) == At(c, AtDecide(w), ReadLocks(c))
            && Statement(db, At(c, AtDecide(w), ReadLocks(c))) == At(c, AtPk(LossChange(c, w)), ReadLocks(c))
  {
    hide IdentityLock, FindExisting, ReplayResult, FromMinor, Decide, WorkerStatement, OpenStatement, InsertStatement, FinalStatement;
    LossDecided(c, w, LookupExternal(db.txs, c.provider, c.ref));
  }

  /** Undisturbed by the other session, a new LOSS passes both lookups and is about to insert its row. */
  lemma LooksUp(s: State, a: nat, b: nat, y: Session, c: Command, w: Wallet)
    requires Idle(s) && a != b && NewLoss(s.db, c, w) && Reaches(Two(s, a, At(c, AtIdentity, {}), b, y)) && ReadLocks(c) !! y.held
    ensures Reaches(Two(s, a, At(c, AtPk(LossChange(c, w)), ReadLocks(c)), b, y))
  {
    hide Reaches, Idle, IdentityLock, Statement, FindExisting;
    var lock := {IdentityLock(c.provider, c.external)};
    LossReads(s.db, c, w);
    RunsFree(s, a, At(c, AtIdentity, {}), b, y, At(c, AtLookup, lock));
    RunsFree(s, a, At(c, AtLookup, lock), b, y, At(c, AtWallet, lock));
    RunsFree(s, a, At(c, AtWallet, lock), b, y, At(c, AtRecheck(w), ReadLocks(c)));
    RunsFree(s, a, At(c, AtRecheck(w), ReadLocks(c)), b, y, At(c, AtDecide(w), ReadLocks(c)));
    RunsFree(s, a, At(c, AtDecide(w), ReadLocks(c)), b, y, At(c, AtPk(LossChange(c, w)), ReadLocks(c)));
  }

  ghost function KeyLocks(c: Command): set<Resource> {
    {TxPk(c.id), TxExternal(c.provider, c.external), TxKey(c.provider, c.key)}
  }

  /** No index refuses the row of a new LOSS. */
  lemma LossEntries(db: Db, c: Command, w: Wallet, held: set<Resource>)
    requires NewLoss(db, c, w)
    ensures var ch := LossChange(c, w);
            var h1 := held + {TxPk(c.id)}; var h2 := h1 + {TxExternal(c.provider, c.external)};
            && Statement(db, At(c, AtPk(ch), held)) == At(c, AtExternal(ch), h1)
            && Statement(db, At(c, AtExternal(ch), h1)) == At(c, AtKey(ch), h2)
            && Statement(db, At(c, AtKey(ch), h2)) == At(c, AtSlot(None, ch), h2 + {TxKey(c.provider, c.key)})
  {
    hide CallStatement, WorkerStatement, OpenStatement, FinalStatement;
  }

  /** Its index entries. */
  lemma MakesEntries(s: State, a: nat, b: nat, y: Session, c: Command, w: Wallet)
    requires Idle(s) && a != b && NewLoss(s.db, c, w) && KeyLocks(c) !! y.held
    requires Reaches(Two(s, a, At(c, AtPk(LossChange(c, w)), ReadLocks(c)), b, y))
    ensures Reaches(Two(s, a, At(c, AtSlot(None, LossChange(c, w)), ReadLocks(c) + KeyLocks(c)), b, y))
  {
    hide Reaches, Idle, ReadLocks, Statement, NewLoss, LossResult;
    var ch := LossChange(c, w);
    var h1 := ReadLocks(c) + {TxPk(c.id)};
    var h2 := h1 + {TxExternal(c.provider, c.external)};
    var h3 := h2 + {TxKey(c.provider, c.key)};
    assert h3 == ReadLocks(c) + KeyLocks(c);
    LossEntries(s.db, c, w, ReadLocks(c));
    RunsFree(s, a, At(c, AtPk(ch), ReadLocks(c)), b, y, At(c, AtExternal(ch), h1));
    RunsFree(s, a, At(c, AtExternal(ch), h1), b, y, At(c, AtKey(ch), h2));
    RunsFree(s, a, At(c, AtKey(ch), h2), b, y, At(c, AtSlot(None, ch), h3));
  }

  /** No reversal slot is needed and the currency is the wallet's: it is about to draw its sequence number. */
  lemma PassesChecks(s: State, a: nat, b: nat, y: Session, c: Command, w: Wallet, held: set<Resource>)
    requires Idle(s) && a != b && NewLoss(s.db, c, w) && Reaches(Two(s, a, At(c, AtSlot(None, LossChange(c, w)), held), b, y))
    ensures Reaches(Two(s, a, At(c, AtDraw(Write(None, LossChange(c, w)), []), held), b, y))
  {
    hide Reaches, Idle, FindExisting, CallStatement, WorkerStatement, OpenStatement, FinalStatement;
    var ch := LossChange(c, w);
    RunsFree(s, a, At(c, AtSlot(None, ch), held), b, y, At(c, AtForeign(ch), held));
    RunsFree(s, a, At(c, AtForeign(ch), held), b, y, At(c, AtDraw(Write(None, ch), []), held));
  }

  /** It draws its number and is ready to commit. */
  lemma DrawsNumber(s: State, a: nat, b: nat, y: Session, c: Command, ch: Change, held: set<Resource>)
    requires Idle(s) && a != b && EventCount(ch) == 1 && Reaches(Two(s, a, At(c, AtDraw(Write(None, ch), []), held), b, y))
    ensures Reaches(Two(s.(db := s.db.(nextOrdering := s.db.nextOrdering + 1)), a, At(c, AtCommit(Write(None, ch), [s.db.nextOrdering]), held), b, y))
  {
    hide Reaches, CallStatement, WorkerStatement, OpenStatement, InsertStatement;
    var work, n := Write(None, ch), s.db.nextOrdering;
    var t := s.(db := s.db.(nextOrdering := n + 1));
    assert [] + [n] == [n];
    RunsNext(s, a, At(c, AtDraw(work, []), held), b, y, At(c, AtDraw(work, [n]), held), t);
    assert t.db.(nextOrdering := t.db.nextOrdering + 0) == t.db;
    RunsNext(t, a, At(c, AtDraw(work, [n]), held), b, y, At(c, AtComplete(work, [n]), held), t);
    RunsFree(t, a, At(c, AtComplete(work, [n]), held), b, y, At(c, AtCommit(work, [n]), held));
  }

  /** It commits. */
  lemma CommitsLoss(s: State, a: nat, b: nat, y: Session, c: Command, w: Wallet, held: set<Resource>) returns (s': State)
    requires Idle(s) && a != b && Reaches(Two(s, a, At(c, AtDraw(Write(None, LossChange(c, w)), []), held), b, y))
    ensures Idle(s') && s'.sessions == s.sessions && s'.db.txs == s.db.txs + [LossChange(c, w).row] && s'.db.wallets == s.db.wallets
    ensures Reaches(Two(s', a, At(c, Done(Ok(Some(LossResult(c, w)))), {}), b, y))
  {
    hide Reaches, NewRow, LossResult;
    var ch, n := LossChange(c, w), s.db.nextOrdering;
    DrawsNumber(s, a, b, y, c, ch, held);
    var t := s.(db := s.db.(nextOrdering := n + 1));
    s' := t.(db := Commit(t.db, None, ch, [n]));
    var ready, done := At(c, AtCommit(Write(None, ch), [n]), held), At(c, Done(Ok(Some(LossResult(c, w)))), {});
    assert Two(t, a, ready, b, y).sessions[a := done] == Two(s', a, done, b, y).sessions;
    ThenReaches(Two(t, a, ready, b, y), CommitNow(a, true), Two(s', a, done, b, y));
  }

  /** A row with the same key and nothing else in common refuses the insert at the key. */
  lemma KeyTaken(txs: seq<Tx>, row: Tx, db: Db, d: Command, v: Wallet, held: set<Resource>)
    requires db.txs == txs + [row] && FindExisting(txs, d).Missing?
    requires row.id != d.id && !HasExternal(row, d.provider, d.external) && HasKey(row, d.provider, d.key)
    ensures var ch := LossChange(d, v);
            var h1 := held + {TxPk(d.id)}; var h2 := h1 + {TxExternal(d.provider, d.external)};
            && Statement(db, At(d, AtPk(ch), held)) == At(d, AtExternal(ch), h1)
            && Statement(db, At(d, AtExternal(ch), h1)) == At(d, AtKey(ch), h2)
            && Statement(db, At(d, AtKey(ch), h2)) == At(d, AtConflict, {})
  {
    hide CallStatement, WorkerStatement, OpenStatement, FinalStatement;
    assert db.txs[|txs|] == row;
  }

  /** The other session finds the key taken by the row just committed. */
  lemma MeetsKey(s: State, a: nat, x: Session, b: nat, d: Command, v: Wallet, txs: seq<Tx>, row: Tx)
    requires Idle(s) && a != b && x.held == {} && s.db.txs == txs + [row] && FindExisting(txs, d).Missing?
    requires row.id != d.id && !HasExternal(row, d.provider, d.external) && HasKey(row, d.provider, d.key)
    requires Reaches(Two(s, a, x, b, At(d, AtPk(LossChange(d, v)), ReadLocks(d))))
    ensures Reaches(Two(s, a, x, b, At(d, AtConflict, {})))
  {
    hide Reaches, Idle, ReadLocks, Statement, LossResult, FindExisting;
    var ch := LossChange(d, v);
    var h1 := ReadLocks(d) + {TxPk(d.id)};
    var h2 := h1 + {TxExternal(d.provider, d.external)};
    KeyTaken(txs, row, s.db, d, v, ReadLocks(d));
    Swap(s, a, x, b, At(d, AtPk(ch), ReadLocks(d)));
    RunsFree(s, b, At(d, AtPk(ch), ReadLocks(d)), a, x, At(d, AtExternal(ch), h1));
    RunsFree(s, b, At(d, AtExternal(ch), h1), a, x, At(d, AtKey(ch), h2));
    RunsFree(s, b, At(d, AtKey(ch), h2), a, x, At(d, AtConflict, {}));
    Swap(s, b, At(d, AtConflict, {}), a, x);
  }

  /**
   From any quiet state, two new calls with one key but different identities,
   ids and wallets can both pass their two lookups; the first then commits and
   is answered, and the second loses at the unique index.
   */
  lemma RaceOnOneKey(s: State, a: nat, b: nat, c: Command, w: Wallet, d: Command, v: Wallet) returns (s': State)
    requires Reaches(s) && Idle(s) && a != b && a !in s.sessions && b !in s.sessions
    requires Admissible(Call(c, None, 0)) && Admissible(Call(d, None, 0)) && NewLoss(s.db, c, w) && NewLoss(s.db, d, v)
    requires c.provider == d.provider && c.key == d.key && c.id != d.id && c.wallet != d.wallet
    requires IdentityLock(c.provider, c.external) != IdentityLock(d.provider, d.external)
    ensures Reaches(s') && a in s'.sessions && b in s'.sessions && s'.db.txs == s.db.txs + [LossChange(c, w).row]
    ensures s'.sessions[a] == At(c, Done(Ok(Some(LossResult(c, w)))), {}) && s'.sessions[b] == At(d, AtConflict, {})
  {
    hide Reaches, Admissible, NewLoss;
    BothBegin(s, a, Call(c, None, 0), b, Call(d, None, 0));
    Swap(s, a, At(c, AtIdentity, {}), b, At(d, AtIdentity, {}));
    LooksUp(s, b, a, At(c, AtIdentity, {}), d, v);
    var y := At(d, AtPk(LossChange(d, v)), ReadLocks(d));
    Swap(s, b, y, a, At(c, AtIdentity, {}));
    LooksUp(s, a, b, y, c, w);
    MakesEntries(s, a, b, y, c, w);
    PassesChecks(s, a, b, y, c, w, ReadLocks(c) + KeyLocks(c));
    var t := CommitsLoss(s, a, b, y, c, w, ReadLocks(c) + KeyLocks(c));
    LossIsNew(s.db, c, w, d, v);
    MeetsKey(t, a, At(c, Done(Ok(Some(LossResult(c, w)))), {}), b, d, v, s.db.txs, LossChange(c, w).row);
    s' := Two(t, a, At(c, Done(Ok(Some(LossResult(c, w)))), {}), b, At(d, AtConflict, {}));
  }

  lemma LossIsNew(db: Db, c: Command, w: Wallet, d: Command, v: Wallet)
    requires NewLoss(db, c, w) && NewLoss(db, d, v) && c.provider == d.provider && c.key == d.key && c.id != d.id
    requires IdentityLock(c.provider, c.external) != IdentityLock(d.provider, d.external)
    ensures FindExisting(db.txs, d).Missing?
    ensures var row := LossChange(c, w).row; row.id != d.id && !HasExternal(row, d.provider, d.external) && HasKey(row, d.provider, d.key)
  {
  }

  // ---------------------------------------------------------------------
  // The race from the very start
  // ---------------------------------------------------------------------

  function EmptyOpening(id: Id, player: string): Job {
    Open(id, 0, player, Money(0, "USD"))
  }

  function Opened(job: Job): Session {
    Session(job, Done(Ok(None)), {}, false)
  }

  /** The statements that open an empty wallet. */
  lemma OpeningStatements(db: Db, id: Id, player: string)
    requires id !in db.wallets && !OwnerTaken(db.wallets, player, "USD")
    ensures var job := EmptyOpening(id, player); var h1 := {WalletPk(id)}; var h2 := h1 + {WalletOwner(player, "USD")};
            && Statement(db, Fresh(job)) == Session(job, AtOwner, h1, false)
            && Statement(db, Session(job, AtOwner, h1, false)) == Session(job, AtDraw(Bare, []), h2, false)
            && Statement(db, Session(job, AtDraw(Bare, []), h2, false)) == Session(job, AtComplete(Bare, []), h2, false)
            && Statement(db, Session(job, AtComplete(Bare, []), h2, false)) == Session(job, AtCommit(Bare, []), h2, false)
  {
    hide CallStatement, WorkerStatement, InsertStatement, OwnerTaken;
    assert {} + {WalletPk(id)} == {WalletPk(id)};
  }

  lemma OpensEmpty(s: State, a: nat, b: nat, y: Session, id: Id, player: string)
    requires Idle(s) && a != b && y.held == {} && id !in s.db.wallets && !OwnerTaken(s.db.wallets, player, "USD")
    requires Reaches(Two(s, a, Fresh(EmptyOpening(id, player)), b, y))
    ensures Reaches(Two(s.(db := s.db.(wallets := s.db.wallets[id := Wallet(player, "USD", 0, 1)])), a, Opened(EmptyOpening(id, player)), b, y))
  {
    hide Reaches, Statement, OwnerTaken;
    var job := EmptyOpening(id, player);
    var h1 := {WalletPk(id)};
    var h2 := h1 + {WalletOwner(player, "USD")};
    OpeningStatements(s.db, id, player);
    RunsFree(s, a, Fresh(job), b, y, Session(job, AtOwner, h1, false));
    RunsFree(s, a, Session(job, AtOwner, h1, false), b, y, Session(job, AtDraw(Bare, []), h2, false));
    assert s.db.(nextOrdering := s.db.nextOrdering + 0) == s.db;
    RunsNext(s, a, Session(job, AtDraw(Bare, []), h2, false), b, y, Session(job, AtComplete(Bare, []), h2, false), s);
    var ready := Session(job, AtCommit(Bare, []), h2, false);
    RunsFree(s, a, Session(job, AtComplete(Bare, []), h2, false), b, y, ready);
    var s' := s.(db := s.db.(wallets := s.db.wallets[id := Wallet(player, "USD", 0, 1)]));
    assert Two(s, a, ready, b, y).sessions[a := Opened(job)] == Two(s', a, Opened(job), b, y).sessions;
    ThenReaches(Two(s, a, ready, b, y), CommitNow(a, true), Two(s', a, Opened(job), b, y));
  }

  /** Two players with an empty wallet each. */
  function TwoWallets(): State {
    Two(Start.(db := EmptyDb.(wallets := map[1 := Wallet("p", "USD", 0, 1), 2 := Wallet("q", "USD", 0, 1)])),
        0, Opened(EmptyOpening(1, "p")), 1, Opened(EmptyOpening(2, "q")))
  }

  lemma TwoWalletsReached()
    ensures Reaches(TwoWallets()) && Idle(TwoWallets())
  {
    hide Reaches;
    var x, y := EmptyOpening(1, "p"), EmptyOpening(2, "q");
    StartReached();
    BothBegin(Start, 0, x, 1, y);
    OpensEmpty(Start, 0, 1, Fresh(y), 1, "p");
    var s := Start.(db := EmptyDb.(wallets := EmptyDb.wallets[1 := Wallet("p", "USD", 0, 1)]));
    Swap(s, 0, Opened(x), 1, Fresh(y));
    OpensEmpty(s, 1, 0, Opened(x), 2, "q");
    var t := s.(db := s.db.(wallets := s.db.wallets[2 := Wallet("q", "USD", 0, 1)]));
    Swap(t, 1, Opened(y), 0, Opened(x));
    assert t.db.wallets == TwoWallets().db.wallets;
  }

  /** A LOSS of nothing under one key, `external` telling the two apart. */
  ghost function LossOf(id: Id, wallet: Id, external: string, player: string): Command {
    var c := Command(id, wallet, external, "acme", player, "dice", "r1", "one-key", "", "", Loss, Money(0, "USD"));
    c.(hash := Digest(PayloadOf(c)))
  }

  lemma LossIsAdmitted(id: Id, wallet: Id, external: string, player: string, db: Db, w: Wallet)
    requires id != 0 && wallet != 0 && external != "" && player != "" && player != LEGACY
    requires db.txs == [] && wallet in db.wallets && db.wallets[wallet] == w == Wallet(player, "USD", 0, 1)
    ensures Admissible(Call(LossOf(id, wallet, external, player), None, 0)) && NewLoss(db, LossOf(id, wallet, external, player), w)
  {
    assert PayloadOf(LossOf(id, wallet, external, player)) == PayloadOf(LossOf(id, wallet, external, player).(hash := ""));
  }

  /**
   The path through the unique violation is taken: unless the two identities
   share a lock, two calls with one key meet at the index in some run.
   */
  lemma RaceHappens() returns (s: State)
    requires IdentityLock("acme", "first") != IdentityLock("acme", "second")
    ensures Reaches(s) && 2 in s.sessions && 3 in s.sessions
    ensures s.sessions[2].pc.Done? && s.sessions[2].pc.outcome.Ok? && s.sessions[3].pc.AtConflict?
  {
    hide Reaches, Admissible, NewLoss, Digest, IdentityLock;
    TwoWalletsReached();
    var db := TwoWallets().db;
    LossIsAdmitted(1, 1, "first", "p", db, db.wallets[1]);
    LossIsAdmitted(2, 2, "second", "q", db, db.wallets[2]);
    s := RaceOnOneKey(TwoWallets(), 2, 3, LossOf(1, 1, "first", "p"), db.wallets[1], LossOf(2, 2, "second", "q"), db.wallets[2]);
  }
}
