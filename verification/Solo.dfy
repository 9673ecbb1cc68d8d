/**
 The two levels agree: a session that runs its statements without being
 disturbed commits exactly what the whole operation is specified to commit,
 or ends with exactly the error the operation is specified to return.
 */
module Solo {
  import opened Prelude
  import opened Monetary
  import opened Tables
  import opened Domain
  import opened Engine
  import opened TxFacts
  import opened Decisions
  import opened Statements
  import opened Backoff
  import opened Operations
  import opened OperationProofs

  /** A session alone with the database it reads. */
  datatype Alone = Alone(db: Db, x: Session)

  /** The session runs its next statement. */
  ghost predicate Moves(a: Alone, b: Alone) {
    && !a.x.pc.AtCommit? && !a.x.pc.Done?
    && b == Alone(a.db.(nextOrdering := a.db.nextOrdering + Draws(a.x)), Statement(a.db, a.x))
  }

  ghost predicate Path(path: seq<Alone>) {
    forall i :: 0 <= i < |path| - 1 ==> Moves(path[i], path[i + 1])
  }

  ghost predicate Joins(path: seq<Alone>, a: Alone, b: Alone) {
    |path| > 0 && path[0] == a && path[|path| - 1] == b && Path(path)
  }

  /** After at most n statements the session stands at `b`, about to commit or finished. */
  ghost predicate Leads(a: Alone, n: nat, b: Alone) {
    (b.x.pc.AtCommit? || b.x.pc.Done?) && exists path :: Joins(path, a, b) && |path| <= n + 1
  }

  /** The machine with this session only. */
  function Only(a: Alone, sid: nat, deleted: set<Deletion>): State {
    State(a.db, map[sid := a.x], deleted)
  }

  /** Such a path is a sequence of steps of the statement-level machine. */
  lemma PathIsRun(path: seq<Alone>, i: nat, sid: nat, deleted: set<Deletion>)
    requires Path(path) && i < |path| - 1
    ensures Step(Only(path[i], sid, deleted), Run(sid), Only(path[i + 1], sid, deleted))
  {
    assert Moves(path[i], path[i + 1]);
    var s := Only(path[i], sid, deleted);
    assert !Blocked(s, sid);
    assert s.sessions[sid := path[i + 1].x] == map[sid := path[i + 1].x];
  }

  lemma Stays(a: Alone)
    requires a.x.pc.AtCommit? || a.x.pc.Done?
    ensures Leads(a, 0, a)
  {
    assert Joins([a], a, a);
  }

  lemma Prepend(a: Alone, b: Alone, n: nat, c: Alone)
    requires Moves(a, b) && Leads(b, n, c)
    ensures Leads(a, n + 1, c)
  {
    var path :| Joins(path, b, c) && |path| <= n + 1;
    var longer := [a] + path;
    forall i | 0 <= i < |longer| - 1
      ensures Moves(longer[i], longer[i + 1])
    {
      if i > 0 {
        assert Moves(path[i - 1], path[i]);
      }
    }
    assert Joins(longer, a, c);
  }

  /** One statement that draws no number. */
  lemma Then(db: Db, x: Session, y: Session, n: nat, c: Alone)
    requires !x.pc.AtCommit? && !x.pc.Done? && !x.pc.AtDraw? && y == Statement(db, x) && Leads(Alone(db, y), n, c)
    ensures Leads(Alone(db, x), n + 1, c)
  {
    assert db.(nextOrdering := db.nextOrdering + 0) == db;
    Prepend(Alone(db, x), Alone(db, y), n, c);
  }

  /** One statement that ends the session. */
  lemma Stops(db: Db, x: Session, e: Error)
    requires !x.pc.AtCommit? && !x.pc.Done? && !x.pc.AtDraw? && Statement(db, x) == Ended(x, Err(e))
    ensures Leads(Alone(db, x), 1, Alone(db, Ended(x, Err(e))))
  {
    Stays(Alone(db, Ended(x, Err(e))));
    Then(db, x, Ended(x, Err(e)), 0, Alone(db, Ended(x, Err(e))));
  }

  lemma Longer(a: Alone, m: nat, n: nat, b: Alone)
    requires Leads(a, m, b) && m <= n
    ensures Leads(a, n, b)
  {
    var path :| Joins(path, a, b) && |path| <= m + 1;
    assert Joins(path, a, b) && |path| <= n + 1;
  }

  // ---------------------------------------------------------------------
  // The end of every transaction
  // ---------------------------------------------------------------------

  lemma Completes(db: Db, x: Session) returns (y: Session)
    requires x.pc.AtComplete?
    ensures Leads(Alone(db, x), 1, Alone(db, y)) && y == x.(pc := AtCommit(x.pc.work, x.pc.orderings), held := y.held)
  {
    y := FinalStatement(x, db.nextOrdering);
    Stays(Alone(db, y));
    Then(db, x, y, 0, Alone(db, y));
  }

  /** The session is about to commit this change with the next sequence numbers. */
  ghost predicate Ready(db: Db, x: Session, slot: Option<nat>, ch: Change, end: Alone) {
    && end.db == db.(nextOrdering := db.nextOrdering + EventCount(ch))
    && end.x == x.(pc := AtCommit(Work.Write(slot, ch), NextOrderings(db, ch)), held := end.x.held)
  }

  lemma {:induction false} DrawsFrom(db: Db, x: Session, slot: Option<nat>, ch: Change, drawn: nat, start: nat) returns (end: Alone)
    requires drawn <= EventCount(ch) && db.nextOrdering == start + drawn
    requires x.pc == AtDraw(Work.Write(slot, ch), seq(drawn, i => start + i))
    ensures Leads(Alone(db, x), EventCount(ch) - drawn + 2, end) && Ready(db.(nextOrdering := start), x, slot, ch, end)
    decreases EventCount(ch) - drawn
  {
    var x' := FinalStatement(x, db.nextOrdering);
    var db' := db.(nextOrdering := db.nextOrdering + Draws(x));
    assert Moves(Alone(db, x), Alone(db', x'));
    if drawn < EventCount(ch) {
      assert seq(drawn, i => start + i) + [start + drawn] == seq(drawn + 1, i => start + i);
      end := DrawsFrom(db', x', slot, ch, drawn + 1, start);
      Prepend(Alone(db, x), Alone(db', x'), EventCount(ch) - drawn + 1, end);
    } else {
      assert db' == db;
      assert seq(drawn, i => start + i) == NextOrderings(db.(nextOrdering := start), ch);
      var y := Completes(db', x');
      end := Alone(db', y);
      Prepend(Alone(db, x), Alone(db', x'), 1, end);
    }
  }

  lemma DrawsAll(db: Db, x: Session, slot: Option<nat>, ch: Change) returns (end: Alone)
    requires x.pc == AtDraw(Work.Write(slot, ch), [])
    ensures Leads(Alone(db, x), 4, end) && Ready(db, x, slot, ch, end)
  {
    assert seq(0, i => db.nextOrdering + i) == [];
    end := DrawsFrom(db, x, slot, ch, 0, db.nextOrdering);
    Longer(Alone(db, x), EventCount(ch) + 2, 4, end);
    assert db.(nextOrdering := db.nextOrdering) == db;
  }

  /** Committing what is ready is committing the operation's change. */
  lemma ReadyCommits(db: Db, x: Session, slot: Option<nat>, ch: Change, end: Alone)
    requires Ready(db, x, slot, ch, end) && !x.job.Open? && (slot.Some? ==> slot.value < |db.txs|)
    ensures Committable(end.db, end.x)
    ensures var after := CommitNext(db, slot, ch);
            Committed(end.db, end.x, Work.Write(slot, ch), NextOrderings(db, ch)) ==
            if x.job.Call? && x.job.message.Some? then Complete(after, x.job.message.value, x.job.cmd.hash) else after
  {
  }

  // ---------------------------------------------------------------------
  // What a call is specified to do
  // ---------------------------------------------------------------------

  ghost predicate EndsIn(db: Db, e: Error, end: Alone) {
    end.db == db && end.x.pc == Done(Err(e))
  }

  /** The error a call reports for a refused row. */
  function Reported(e: Error): Error {
    if e == Violation(ReversalIndex) then IdempotencyConflict else e
  }

  /** The state a call ends in, against the specification of the whole transaction. */
  ghost predicate Agrees(db: Db, job: Job, spec: Outcome<Answer, Error>, end: Alone)
    requires job.Call?
  {
    match spec
    case Err(e) => EndsIn(db, Reported(e), end)
    case Ok(answer) =>
      && end.x.job == job && Committable(end.db, end.x) && ResultOf(end.x.pc.work) == Some(answer.result)
      && Committed(end.db, end.x, end.x.pc.work, end.x.pc.orderings) ==
         if job.message.Some? then Complete(answer.db, job.message.value, job.cmd.hash) else answer.db
  }

  /** The change a call decides on, if it decides to write. */
  function Decision(db: Db, c: Command, now: int): Outcome<Change, Error>
    requires TypedMoney(c.amount) && c.wallet in db.wallets
  {
    match Decide(c, db.wallets[c.wallet], LookupExternal(db.txs, c.provider, c.ref))
    case Refuse(e) => Err(e)
    case Persist(result, move) => Ok(Settle(NewRow(c, result, now), result, db.wallets[c.wallet], move))
  }

  lemma DecisionShape(db: Db, c: Command, now: int)
    requires TypedMoney(c.amount) && c.wallet in db.wallets
    ensures match Decision(db, c, now)
            case Err(e) => Reported(e) == e
            case Ok(ch) =>
              && ch.Settle? && ch.wallet == db.wallets[c.wallet] && ch.row.wallet == c.wallet && ch.row.id == c.id
              && ch.row.provider == c.provider && ch.row.external == c.external && ch.row.key == c.key
  {
    DecideErrors(c, db.wallets[c.wallet], LookupExternal(db.txs, c.provider, c.ref));
  }

  /** A decided row, refused by a constraint or committed. */
  function Landed(db: Db, ch: Change): Outcome<Answer, Error>
    requires ch.Settle?
  {
    match InsertRefusal(db.wallets, db.txs, ch.row)
    case Some(e) => Err(e)
    case None => Ok(Answer(CommitNext(db, None, ch), ch.result))
  }

  /** CallTx once the lookup found nothing. */
  lemma CallTxFresh(db: Db, c: Command, now: int)
    requires FindExisting(db.txs, c).Missing? && TypedMoney(c.amount) && c.wallet in db.wallets
    ensures match Decision(db, c, now)
            case Err(e) => CallTx(db, c, now) == Err(e)
            case Ok(ch) => ch.Settle? && CallTx(db, c, now) == Landed(db, ch)
  {
  }

  lemma CallTxFound(db: Db, c: Command, now: int)
    requires TypedMoney(c.amount) && !FindExisting(db.txs, c).Missing?
    ensures CallTx(db, c, now) ==
            match FindExisting(db.txs, c)
            case Clash(e) => Err(e)
            case Hit(at) => (match ReplayResult(db.txs[at]) case Err(e) => Err(e) case Ok(r) => Ok(Answer(db, r)))
    ensures CallTx(db, c, now).Err? ==> Reported(CallTx(db, c, now).error) == CallTx(db, c, now).error
  {
    match FindExisting(db.txs, c)
    case Clash(e) =>
    case Hit(at) => assert ReplayResult(db.txs[at]).Err? ==> ReplayResult(db.txs[at]).error == ReplayUnavailable;
  }

  // ---------------------------------------------------------------------
  // Inserting the row of a call
  // ---------------------------------------------------------------------

  lemma Referenced(db: Db, x: Session, ch: Change) returns (end: Alone)
    requires x.job.Call? && x.pc == AtForeign(ch) && ch.Settle?
    ensures Leads(Alone(db, x), 5, end)
    ensures if ch.row.currency != ch.wallet.currency then EndsIn(db, ForeignKeyViolation, end) else Ready(db, x, None, ch, end)
  {
    if ch.row.currency != ch.wallet.currency {
      end := Alone(db, Ended(x, Err(ForeignKeyViolation)));
      Stops(db, x, ForeignKeyViolation);
      Longer(Alone(db, x), 1, 5, end);
    } else {
      var y := x.(pc := AtDraw(Work.Write(None, ch), []));
      end := DrawsAll(db, y, None, ch);
      Then(db, x, y, 4, end);
    }
  }

  lemma Slotted(db: Db, x: Session, ch: Change) returns (end: Alone)
    requires x.job.Call? && x.pc == AtSlot(None, ch) && ch.Settle?
    ensures Leads(Alone(db, x), 6, end)
    ensures if SlotTaken(db.txs, ch.row) then EndsIn(db, IdempotencyConflict, end)
            else if ch.row.currency != ch.wallet.currency then EndsIn(db, ForeignKeyViolation, end)
            else Ready(db, x, None, ch, end)
  {
    var y := InsertStatement(db, x);
    if SlotTaken(db.txs, ch.row) {
      end := Alone(db, y);
      Stops(db, x, IdempotencyConflict);
      Longer(Alone(db, x), 1, 6, end);
    } else {
      end := Referenced(db, y, ch);
      Then(db, x, y, 5, end);
    }
  }

  lemma EntersPk(db: Db, x: Session, y: Session, ch: Change, n: nat, end: Alone)
    requires x.pc == AtPk(ch) && IndexById(db.txs, ch.row.id).None? && Leads(Alone(db, y), n, end)
    requires y == x.(pc := AtExternal(ch), held := x.held + {TxPk(ch.row.id)})
    ensures Leads(Alone(db, x), n + 1, end)
  {
    Then(db, x, y, n, end);
  }

  lemma EntersExternal(db: Db, x: Session, y: Session, ch: Change, n: nat, end: Alone)
    requires x.pc == AtExternal(ch) && IndexByExternal(db.txs, ch.row.provider, ch.row.external).None? && Leads(Alone(db, y), n, end)
    requires y == x.(pc := AtKey(ch), held := x.held + {TxExternal(ch.row.provider, ch.row.external)})
    ensures Leads(Alone(db, x), n + 1, end)
  {
    Then(db, x, y, n, end);
  }

  lemma EntersKey(db: Db, x: Session, y: Session, ch: Change, n: nat, end: Alone)
    requires x.pc == AtKey(ch) && IndexByKey(db.txs, ch.row.provider, ch.row.key).None? && Leads(Alone(db, y), n, end)
    requires y == x.(pc := AtSlot(None, ch), held := x.held + {TxKey(ch.row.provider, ch.row.key)})
    ensures Leads(Alone(db, x), n + 1, end)
  {
    Then(db, x, y, n, end);
  }

  lemma Keyed(db: Db, x: Session, ch: Change) returns (end: Alone)
    requires x.job.Call? && x.pc == AtPk(ch) && ch.Settle?
    requires IndexById(db.txs, ch.row.id).None? && IndexByExternal(db.txs, ch.row.provider, ch.row.external).None?
    requires IndexByKey(db.txs, ch.row.provider, ch.row.key).None?
    ensures Leads(Alone(db, x), 9, end)
    ensures if SlotTaken(db.txs, ch.row) then EndsIn(db, IdempotencyConflict, end)
            else if ch.row.currency != ch.wallet.currency then EndsIn(db, ForeignKeyViolation, end)
            else Ready(db, x, None, ch, end)
  {
    var x1 := x.(pc := AtExternal(ch), held := x.held + {TxPk(ch.row.id)});
    var x2 := x1.(pc := AtKey(ch), held := x1.held + {TxExternal(ch.row.provider, ch.row.external)});
    var x3 := x2.(pc := AtSlot(None, ch), held := x2.held + {TxKey(ch.row.provider, ch.row.key)});
    end := Slotted(db, x3, ch);
    EntersKey(db, x2, x3, ch, 6, end);
    EntersExternal(db, x1, x2, ch, 7, end);
    EntersPk(db, x, x1, ch, 8, end);
  }

  lemma Inserted(db: Db, x: Session, ch: Change) returns (end: Alone)
    requires x.job.Call? && x.pc == AtPk(ch) && ch.Settle? && ch.row.wallet in db.wallets && db.wallets[ch.row.wallet] == ch.wallet
    requires IndexById(db.txs, ch.row.id).None? && IndexByExternal(db.txs, ch.row.provider, ch.row.external).None?
    requires IndexByKey(db.txs, ch.row.provider, ch.row.key).None?
    ensures Leads(Alone(db, x), 9, end) && Agrees(db, x.job, Landed(db, ch), end)
  {
    end := Keyed(db, x, ch);
    if InsertRefusal(db.wallets, db.txs, ch.row).None? {
      ReadyCommits(db, x, None, ch, end);
    }
  }

  // ---------------------------------------------------------------------
  // Calls
  // ---------------------------------------------------------------------

  lemma DecideStatement(db: Db, x: Session, w: Wallet)
    requires x.job.Call? && x.pc == AtDecide(w) && TypedMoney(x.job.cmd.amount)
    requires x.job.cmd.wallet in db.wallets && db.wallets[x.job.cmd.wallet] == w
    ensures match Decision(db, x.job.cmd, x.job.now)
            case Err(e) => Statement(db, x) == Ended(x, Err(e))
            case Ok(ch) => Statement(db, x) == x.(pc := AtPk(ch))
  {
  }

  /** A fresh call whose wallet is locked. */
  ghost predicate Undecided(db: Db, x: Session) {
    && x.job.Call? && TypedMoney(x.job.cmd.amount) && x.job.cmd.wallet in db.wallets && FindExisting(db.txs, x.job.cmd).Missing?
    && x.pc == AtDecide(db.wallets[x.job.cmd.wallet])
  }

  lemma Refused(db: Db, x: Session, e: Error) returns (end: Alone)
    requires Undecided(db, x) && Decision(db, x.job.cmd, x.job.now) == Err(e)
    ensures Leads(Alone(db, x), 10, end) && Agrees(db, x.job, CallTx(db, x.job.cmd, x.job.now), end)
  {
    DecideStatement(db, x, x.pc.w);
    Stops(db, x, e);
    end := Alone(db, Ended(x, Err(e)));
    Longer(Alone(db, x), 1, 10, end);
    CallTxFresh(db, x.job.cmd, x.job.now);
    DecisionShape(db, x.job.cmd, x.job.now);
  }

  lemma Accepted(db: Db, x: Session, ch: Change) returns (end: Alone)
    requires Undecided(db, x) && Decision(db, x.job.cmd, x.job.now) == Ok(ch)
    ensures Leads(Alone(db, x), 10, end) && Agrees(db, x.job, CallTx(db, x.job.cmd, x.job.now), end)
  {
    var y := x.(pc := AtPk(ch));
    DecisionShape(db, x.job.cmd, x.job.now);
    CallTxFresh(db, x.job.cmd, x.job.now);
    end := Inserted(db, y, ch);
    DecideStatement(db, x, x.pc.w);
    Then(db, x, y, 9, end);
  }

  lemma FromDecision(db: Db, x: Session) returns (end: Alone)
    requires Undecided(db, x)
    ensures Leads(Alone(db, x), 10, end) && Agrees(db, x.job, CallTx(db, x.job.cmd, x.job.now), end)
  {
    var decision := Decision(db, x.job.cmd, x.job.now);
    if decision.Err? {
      end := Refused(db, x, decision.error);
    } else {
      end := Accepted(db, x, decision.value);
    }
  }

  lemma EntersWallet(db: Db, x: Session, y: Session, n: nat, end: Alone)
    requires x.job.Call? && x.pc.AtWallet? && x.job.cmd.wallet in db.wallets && Leads(Alone(db, y), n, end)
    requires y == x.(pc := AtRecheck(db.wallets[x.job.cmd.wallet]), held := x.held + {WalletRow(x.job.cmd.wallet)})
    ensures Leads(Alone(db, x), n + 1, end)
  {
    Then(db, x, y, n, end);
  }

  lemma EntersDecision(db: Db, x: Session, y: Session, n: nat, end: Alone)
    requires x.job.Call? && x.pc.AtRecheck? && FindExisting(db.txs, x.job.cmd).Missing? && Leads(Alone(db, y), n, end)
    requires y == x.(pc := AtDecide(x.pc.w))
    ensures Leads(Alone(db, x), n + 1, end)
  {
    Then(db, x, y, n, end);
  }

  lemma Fresh(db: Db, x: Session) returns (end: Alone)
    requires x.job.Call? && x.pc.AtWallet? && FindExisting(db.txs, x.job.cmd).Missing? && TypedMoney(x.job.cmd.amount)
    requires x.job.cmd.wallet in db.wallets
    ensures Leads(Alone(db, x), 12, end) && Agrees(db, x.job, CallTx(db, x.job.cmd, x.job.now), end)
  {
    var w := db.wallets[x.job.cmd.wallet];
    var y := x.(pc := AtRecheck(w), held := x.held + {WalletRow(x.job.cmd.wallet)});
    var z := y.(pc := AtDecide(w));
    end := FromDecision(db, z);
    EntersDecision(db, y, z, 10, end);
    EntersWallet(db, x, y, 11, end);
  }

  lemma Homeless(db: Db, x: Session) returns (end: Alone)
    requires x.job.Call? && x.pc.AtWallet? && FindExisting(db.txs, x.job.cmd).Missing? && TypedMoney(x.job.cmd.amount)
    requires x.job.cmd.wallet !in db.wallets
    ensures Leads(Alone(db, x), 12, end) && Agrees(db, x.job, CallTx(db, x.job.cmd, x.job.now), end)
  {
    Stops(db, x, WalletNotFound);
    end := Alone(db, Ended(x, Err(WalletNotFound)));
    Longer(Alone(db, x), 1, 12, end);
  }

  lemma FoundStatement(db: Db, x: Session)
    requires x.job.Call? && x.pc.AtLookup?
    ensures match FindExisting(db.txs, x.job.cmd)
            case Missing => Statement(db, x) == x.(pc := AtWallet)
            case Clash(e) => Statement(db, x) == Ended(x, Err(e))
            case Hit(at) =>
              match ReplayResult(db.txs[at])
              case Err(e) => Statement(db, x) == Ended(x, Err(e))
              case Ok(r) => Statement(db, x) == x.(pc := AtComplete(Reply(r), []))
  {
  }

  lemma Found(db: Db, x: Session) returns (end: Alone)
    requires x.job.Call? && x.pc.AtLookup? && !FindExisting(db.txs, x.job.cmd).Missing? && TypedMoney(x.job.cmd.amount)
    ensures Leads(Alone(db, x), 13, end) && Agrees(db, x.job, CallTx(db, x.job.cmd, x.job.now), end)
  {
    FoundStatement(db, x);
    CallTxFound(db, x.job.cmd, x.job.now);
    match CallTx(db, x.job.cmd, x.job.now)
    case Err(e) =>
      Stops(db, x, e);
      end := Alone(db, Ended(x, Err(e)));
      Longer(Alone(db, x), 1, 13, end);
    case Ok(answer) =>
      var y := x.(pc := AtComplete(Reply(answer.result), []));
      var z := Completes(db, y);
      end := Alone(db, z);
      Then(db, x, y, 1, end);
      Longer(Alone(db, x), 2, 13, end);
  }

  lemma LookedUp(db: Db, x: Session) returns (end: Alone)
    requires x.job.Call? && x.pc.AtLookup? && TypedMoney(x.job.cmd.amount)
    ensures Leads(Alone(db, x), 13, end) && Agrees(db, x.job, CallTx(db, x.job.cmd, x.job.now), end)
  {
    if FindExisting(db.txs, x.job.cmd).Missing? {
      var y := x.(pc := AtWallet);
      if x.job.cmd.wallet in db.wallets {
        end := Fresh(db, y);
      } else {
        end := Homeless(db, y);
      }
      FoundStatement(db, x);
      Then(db, x, y, 12, end);
    } else {
      end := Found(db, x);
    }
  }

  /** From the identity lock on, a call run alone is its transaction. */
  lemma Identified(db: Db, x: Session) returns (end: Alone)
    requires x.job.Call? && x.pc.AtIdentity? && TypedMoney(x.job.cmd.amount)
    ensures Leads(Alone(db, x), 14, end) && Agrees(db, x.job, CallTx(db, x.job.cmd, x.job.now), end)
  {
    var y := x.(pc := AtLookup, held := x.held + {IdentityLock(x.job.cmd.provider, x.job.cmd.external)});
    end := LookedUp(db, y);
    Then(db, x, y, 13, end);
  }

  /** A session as a caller starts it. */
  function Started(job: Job): Session {
    Session(job, First(job), {}, false)
  }

  /** Process, run alone: fourteen statements at most, then the specified commit or the specified error. */
  lemma SoloProcess(db: Db, c: Command, now: int) returns (end: Alone)
    requires Prepared(c)
    ensures var job := Job.Call(c, None, now);
            Leads(Alone(db, Started(job)), 14, end) && Agrees(db, job, Operations.Call(db, c, now), end)
  {
    end := Identified(db, Started(Job.Call(c, None, now)));
    if CallTx(db, c, now).Err? && IdentityViolation(CallTx(db, c, now).error) {
      CallRefusals(db, c, now);
    }
  }

  // ---------------------------------------------------------------------
  // Messages
  // ---------------------------------------------------------------------

  /** ProcessMessage without its duplicate flag. */
  function MessageAnswer(db: Db, m: InboxKey, c: Command, now: int): Outcome<Answer, Error>
    requires TypedMoney(c.amount)
  {
    match Message(db, m, c.hash, c, now)
    case Err(e) => Err(e)
    case Ok(reply) => Ok(reply.0)
  }

  /** The state a message's session ends in, its inbox row included. */
  ghost predicate MessageAgrees(db: Db, job: Job, spec: Outcome<Answer, Error>, end: Alone) {
    match spec
    case Err(e) => EndsIn(db, e, end)
    case Ok(answer) =>
      && end.x.job == job && Committable(end.db, end.x) && ResultOf(end.x.pc.work) == Some(answer.result)
      && Committed(end.db, end.x, end.x.pc.work, end.x.pc.orderings) == answer.db
  }

  lemma MessageOfCall(db: Db, m: InboxKey, c: Command, now: int, end: Alone)
    requires Prepared(c) && (m in db.inbox ==> db.inbox[m].hash == c.hash)
    requires Agrees(db, Job.Call(c, Some(m), now), CallTx(db, c, now), end)
    ensures MessageAgrees(db, Job.Call(c, Some(m), now), MessageAnswer(db, m, c, now), end)
  {
    if CallTx(db, c, now).Err? && IdentityViolation(CallTx(db, c, now).error) {
      CallRefusals(db, c, now);
    }
  }

  lemma InboxStatement(db: Db, x: Session, m: InboxKey)
    requires x.job.Call? && x.pc.AtInbox? && x.job.message == Some(m)
    ensures var y := Statement(db, x);
            if m in db.inbox && db.inbox[m].hash != x.job.cmd.hash then y == Ended(x, Err(InboxPayloadMismatch))
            else y == x.(pc := AtIdentity, held := y.held, inserted := y.inserted)
  {
  }

  /** ProcessMessage, run alone: the inbox row, the command and the completion commit together, as specified. */
  lemma SoloMessage(db: Db, m: InboxKey, c: Command, now: int) returns (end: Alone)
    requires Prepared(c)
    ensures var job := Job.Call(c, Some(m), now);
            Leads(Alone(db, Started(job)), 15, end) && MessageAgrees(db, job, MessageAnswer(db, m, c, now), end)
  {
    var x := Started(Job.Call(c, Some(m), now));
    InboxStatement(db, x, m);
    if m in db.inbox && db.inbox[m].hash != c.hash {
      Stops(db, x, InboxPayloadMismatch);
      end := Alone(db, Ended(x, Err(InboxPayloadMismatch)));
      Longer(Alone(db, x), 1, 15, end);
    } else {
      var y := Statement(db, x);
      end := Identified(db, y);
      Then(db, x, y, 14, end);
      MessageOfCall(db, m, c, now, end);
    }
  }

  // ---------------------------------------------------------------------
  // The worker
  // ---------------------------------------------------------------------

  /** The state a worker's session ends in, against the specification of its step. */
  ghost predicate WorkerAgrees(db: Db, spec: Outcome<Advance, Error>, end: Alone) {
    match spec
    case Err(e) => EndsIn(db, e, end)
    case Ok(step) => Committable(end.db, end.x) && Committed(end.db, end.x, end.x.pc.work, end.x.pc.orderings) == step.db
  }

  /** A worker's written change: refused by the reversal slot, or committed. */
  function Rewritten(db: Db, at: nat, ch: Change): Outcome<Advance, Error>
    requires at < |db.txs|
  {
    match Operations.Write(db, Some(at), ch)
    case Err(e) => Err(e)
    case Ok(db') => Ok(Advance(db', ch.Postpone?))
  }

  lemma WorkerSlotted(db: Db, x: Session, at: nat, ch: Change) returns (end: Alone)
    requires x.job.Worker? && x.pc == AtSlot(Some(at), ch) && at < |db.txs|
    ensures Leads(Alone(db, x), 5, end) && WorkerAgrees(db, Rewritten(db, at, ch), end)
  {
    var y := InsertStatement(db, x);
    if SlotTaken(db.txs, ch.row) {
      end := Alone(db, y);
      Stops(db, x, Violation(ReversalIndex));
      Longer(Alone(db, x), 1, 5, end);
    } else {
      end := DrawsAll(db, y, Some(at), ch);
      Then(db, x, y, 4, end);
      ReadyCommits(db, y, Some(at), ch, end);
    }
  }

  lemma Touched(db: Db, x: Session, at: nat, t: Tx, ch: Change) returns (end: Alone)
    requires x.job.Worker? && x.pc == AtTouch(at, t, ch) && at < |db.txs|
    ensures Leads(Alone(db, x), 6, end) && WorkerAgrees(db, Rewritten(db, at, ch), end)
  {
    var y := WorkerStatement(db, x);
    end := WorkerSlotted(db, y, at, ch);
    Then(db, x, y, 5, end);
  }

  lemma SettleStatement(db: Db, x: Session, at: nat, t: Tx, resolution: Resolution)
    requires x.job.Worker? && x.pc == AtSettle(at, t, resolution) && at < |db.txs| && db.txs[at] == t
    ensures var y := Statement(db, x);
            if t.wallet !in db.wallets then y == Ended(x, Err(WalletNotFound)) && ConcludeTx(db, at, resolution) == Err(WalletNotFound)
            else match Conclude(t, db.wallets[t.wallet], resolution)
                 case Refuse(e) => y == Ended(x, Err(e)) && ConcludeTx(db, at, resolution) == Err(e)
                 case Persist(result, move) =>
                   var ch := Concluded(db, at, resolution, result, move);
                   y == x.(pc := AtTouch(at, t, ch), held := y.held) && ConcludeTx(db, at, resolution) == Rewritten(db, at, ch)
  {
  }

  lemma Settles(db: Db, x: Session, at: nat, t: Tx, resolution: Resolution) returns (end: Alone)
    requires x.job.Worker? && x.pc == AtSettle(at, t, resolution) && at < |db.txs| && db.txs[at] == t
    ensures Leads(Alone(db, x), 7, end) && WorkerAgrees(db, ConcludeTx(db, at, resolution), end)
  {
    SettleStatement(db, x, at, t, resolution);
    var y := Statement(db, x);
    if y.pc.Done? {
      end := Alone(db, y);
      Stops(db, x, y.pc.outcome.error);
      Longer(Alone(db, x), 1, 7, end);
    } else {
      end := Touched(db, y, at, t, y.pc.change);
      Then(db, x, y, 6, end);
    }
  }

  /** A postponed row meets no index, and draws no number. */
  lemma PostponeRewritten(db: Db, at: nat, row: Tx)
    requires at < |db.txs| && !row.state.Processed?
    ensures Rewritten(db, at, Postpone(row)) == Ok(Advance(Commit(db, Some(at), Postpone(row), []), true))
  {
    assert NextOrderings(db, Postpone(row)) == [];
    assert db.(nextOrdering := db.nextOrdering + 0) == db;
  }

  lemma ResolveStatement(db: Db, x: Session, at: nat, t: Tx)
    requires x.job.Worker? && x.pc == AtResolve(at, t) && at < |db.txs| && db.txs[at] == t
    ensures Waits(db, at, x.job.maxAttempts) ==>
              Statement(db, x) == x.(pc := AtTouch(at, t, Postpone(PostponedRow(t, x.job.now + WorkerDelay(x.job.backoff, t.attempts + 1)))))
    ensures !Waits(db, at, x.job.maxAttempts) ==>
              Statement(db, x) == x.(pc := AtSettle(at, t, Resolve(t, LookupExternal(db.txs, t.provider, t.ref))))
  {
  }

  lemma WaitingTx(db: Db, at: nat, now: int, max: nat, backoff: int)
    requires at < |db.txs| && FromMinor(db.txs[at].amount, db.txs[at].currency).Some? && Waits(db, at, max) && db.txs[at].state.PendingReference?
    ensures WorkerTx(db, at, now, max, backoff) ==
            Rewritten(db, at, Postpone(PostponedRow(db.txs[at], now + WorkerDelay(backoff, db.txs[at].attempts + 1))))
  {
    PostponeRewritten(db, at, PostponedRow(db.txs[at], now + WorkerDelay(backoff, db.txs[at].attempts + 1)));
  }

  lemma ResolvesTo(db: Db, x: Session, y: Session, at: nat, t: Tx, ch: Change) returns (end: Alone)
    requires x.job.Worker? && x.pc.AtResolve? && at < |db.txs| && y == x.(pc := AtTouch(at, t, ch)) && y == Statement(db, x)
    ensures Leads(Alone(db, x), 8, end) && WorkerAgrees(db, Rewritten(db, at, ch), end)
  {
    end := Touched(db, y, at, t, ch);
    Then(db, x, y, 6, end);
    Longer(Alone(db, x), 7, 8, end);
  }

  lemma ResolvesSettling(db: Db, x: Session, at: nat, t: Tx, resolution: Resolution) returns (end: Alone)
    requires x.job.Worker? && x.pc == AtResolve(at, t) && at < |db.txs| && db.txs[at] == t
    requires Statement(db, x) == x.(pc := AtSettle(at, t, resolution))
    ensures Leads(Alone(db, x), 8, end) && WorkerAgrees(db, ConcludeTx(db, at, resolution), end)
  {
    var y := x.(pc := AtSettle(at, t, resolution));
    end := Settles(db, y, at, t, resolution);
    Then(db, x, y, 7, end);
  }

  lemma ResolvesWaiting(db: Db, x: Session, at: nat, t: Tx) returns (end: Alone)
    requires x.job.Worker? && x.pc == AtResolve(at, t) && at < |db.txs| && db.txs[at] == t && Waits(db, at, x.job.maxAttempts)
    requires t.state.PendingReference? && FromMinor(t.amount, t.currency).Some?
    ensures Leads(Alone(db, x), 8, end) && WorkerAgrees(db, WorkerTx(db, at, x.job.now, x.job.maxAttempts, x.job.backoff), end)
  {
    var ch := WaitingChange(db, x, at, t);
    end := ResolvesTo(db, x, x.(pc := AtTouch(at, t, ch)), at, t, ch);
  }

  lemma WaitingChange(db: Db, x: Session, at: nat, t: Tx) returns (ch: Change)
    requires x.job.Worker? && x.pc == AtResolve(at, t) && at < |db.txs| && db.txs[at] == t && Waits(db, at, x.job.maxAttempts)
    requires t.state.PendingReference? && FromMinor(t.amount, t.currency).Some?
    ensures Statement(db, x) == x.(pc := AtTouch(at, t, ch))
    ensures WorkerTx(db, at, x.job.now, x.job.maxAttempts, x.job.backoff) == Rewritten(db, at, ch)
  {
    ch := Postpone(PostponedRow(t, x.job.now + WorkerDelay(x.job.backoff, t.attempts + 1)));
    ResolveStatement(db, x, at, t);
    WaitingTx(db, at, x.job.now, x.job.maxAttempts, x.job.backoff);
  }

  lemma Resolves(db: Db, x: Session, at: nat, t: Tx) returns (end: Alone)
    requires x.job.Worker? && x.pc == AtResolve(at, t) && at < |db.txs| && db.txs[at] == t
    requires t.state.PendingReference? && FromMinor(t.amount, t.currency).Some?
    ensures Leads(Alone(db, x), 8, end) && WorkerAgrees(db, WorkerTx(db, at, x.job.now, x.job.maxAttempts, x.job.backoff), end)
  {
    if Waits(db, at, x.job.maxAttempts) {
      end := ResolvesWaiting(db, x, at, t);
    } else {
      ResolveStatement(db, x, at, t);
      ConcludingStep(db, at, x.job.now, x.job.maxAttempts, x.job.backoff);
      end := ResolvesSettling(db, x, at, t, Resolve(t, LookupExternal(db.txs, t.provider, t.ref)));
    }
  }

  /** ProcessPendingReference after its claim, run alone: nine statements at most, then the specified commit or error. */
  lemma SoloWorker(db: Db, x: Session, at: nat) returns (end: Alone)
    requires x.job.Worker? && at < |db.txs| && x.pc == AtReference(at, db.txs[at]) && db.txs[at].state.PendingReference?
    ensures Leads(Alone(db, x), 9, end) && WorkerAgrees(db, WorkerTx(db, at, x.job.now, x.job.maxAttempts, x.job.backoff), end)
  {
    var t := db.txs[at];
    if FromMinor(t.amount, t.currency).None? {
      Stops(db, x, InvalidStoredMoney);
      end := Alone(db, Ended(x, Err(InvalidStoredMoney)));
      Longer(Alone(db, x), 1, 9, end);
    } else {
      var y := x.(pc := AtResolve(at, t), held := x.held + {IdentityLock(t.provider, t.ref)});
      end := Resolves(db, y, at, t);
      Then(db, x, y, 8, end);
    }
  }

  // ---------------------------------------------------------------------
  // Opening a wallet
  // ---------------------------------------------------------------------

  ghost predicate OpenAgrees(db: Db, spec: Outcome<Db, Error>, end: Alone) {
    match spec
    case Err(e) => EndsIn(db, e, end)
    case Ok(after) => Committable(end.db, end.x) && Committed(end.db, end.x, end.x.pc.work, end.x.pc.orderings) == after
  }

  /** A constraint that an opening's next index entry violates. */
  lemma OpenViolates(db: Db, x: Session, index: UniqueIndex) returns (end: Alone)
    requires x.job.Open? && !x.pc.AtCommit? && !x.pc.Done? && !x.pc.AtDraw? && Statement(db, x) == Violated(x, index)
    ensures Leads(Alone(db, x), 1, end) && EndsIn(db, Violation(index), end)
  {
    end := Alone(db, Ended(x, Err(Violation(index))));
    Stops(db, x, Violation(index));
  }

  lemma OpenReferenced(db: Db, x: Session, ch: Change) returns (end: Alone)
    requires x.job.Open? && x.pc == AtForeign(ch) && ch.Settle? && ch.row.currency == ch.wallet.currency
    ensures Leads(Alone(db, x), 5, end) && Ready(db, x, None, ch, end)
  {
    var y := x.(pc := AtDraw(Work.Write(None, ch), []));
    end := DrawsAll(db, y, None, ch);
    Then(db, x, y, 4, end);
  }

  lemma OpenSlotted(db: Db, x: Session, ch: Change) returns (end: Alone)
    requires x.job.Open? && x.pc == AtSlot(None, ch) && ch.Settle? && ch.row.ref == "" && ch.row.currency == ch.wallet.currency
    ensures Leads(Alone(db, x), 6, end) && Ready(db, x, None, ch, end)
  {
    var y := x.(pc := AtForeign(ch));
    end := OpenReferenced(db, y, ch);
    Then(db, x, y, 5, end);
  }

  /** The indexes and foreign keys of an opening row, once its keys are known to be free. */
  lemma OpenKeyed(db: Db, x: Session, ch: Change) returns (end: Alone)
    requires x.job.Open? && x.pc == AtKey(ch) && ch.Settle? && ch.row.ref == "" && ch.row.currency == ch.wallet.currency
    requires IndexByKey(db.txs, ch.row.provider, ch.row.key).None?
    ensures Leads(Alone(db, x), 7, end) && Ready(db, x, None, ch, end)
  {
    var x1 := x.(pc := AtSlot(None, ch), held := x.held + {TxKey(ch.row.provider, ch.row.key)});
    end := OpenSlotted(db, x1, ch);
    EntersKey(db, x, x1, ch, 6, end);
  }

  /** The refusal of an opening row: its wallet exists, so only its keys can be taken. */
  function KeyRefusal(txs: seq<Tx>, row: Tx): Option<Error> {
    if IndexById(txs, row.id).Some? then Some(Violation(TxPkey))
    else if IndexByExternal(txs, row.provider, row.external).Some? then Some(Violation(ExternalIndex))
    else if IndexByKey(txs, row.provider, row.key).Some? then Some(Violation(KeyIndex))
    else None
  }

  lemma OpenExternal(db: Db, x: Session, ch: Change) returns (end: Alone)
    requires x.job.Open? && x.pc == AtExternal(ch) && ch.Settle? && ch.row.ref == "" && ch.row.currency == ch.wallet.currency
    requires IndexById(db.txs, ch.row.id).None?
    ensures Leads(Alone(db, x), 8, end)
    ensures if KeyRefusal(db.txs, ch.row).Some? then EndsIn(db, KeyRefusal(db.txs, ch.row).value, end) else Ready(db, x, None, ch, end)
  {
    if IndexByExternal(db.txs, ch.row.provider, ch.row.external).Some? {
      end := OpenViolates(db, x, ExternalIndex);
      Longer(Alone(db, x), 1, 8, end);
    } else {
      var y := x.(pc := AtKey(ch), held := x.held + {TxExternal(ch.row.provider, ch.row.external)});
      if IndexByKey(db.txs, ch.row.provider, ch.row.key).Some? {
        end := OpenViolates(db, y, KeyIndex);
        Longer(Alone(db, y), 1, 7, end);
      } else {
        end := OpenKeyed(db, y, ch);
      }
      EntersExternal(db, x, y, ch, 7, end);
    }
  }

  lemma OpenInserted(db: Db, x: Session, ch: Change) returns (end: Alone)
    requires x.job.Open? && x.pc == AtPk(ch) && ch.Settle? && ch.row.ref == "" && ch.row.currency == ch.wallet.currency
    ensures Leads(Alone(db, x), 9, end)
    ensures if KeyRefusal(db.txs, ch.row).Some? then EndsIn(db, KeyRefusal(db.txs, ch.row).value, end) else Ready(db, x, None, ch, end)
  {
    if IndexById(db.txs, ch.row.id).Some? {
      end := OpenViolates(db, x, TxPkey);
      Longer(Alone(db, x), 1, 9, end);
    } else {
      var y := x.(pc := AtExternal(ch), held := x.held + {TxPk(ch.row.id)});
      end := OpenExternal(db, y, ch);
      EntersPk(db, x, y, ch, 8, end);
    }
  }

  /** What is specified once the wallet row itself is accepted. */
  function OpenRest(db: Db, id: Id, txId: Id, player: string, opening: Money): Outcome<Db, Error> {
    if opening.minor == 0 then Ok(CommitOpening(db, id, txId, player, opening, []))
    else
      match KeyRefusal(db.txs, OpeningRow(id, txId, player, opening))
      case Some(e) => Err(e)
      case None => Ok(CommitOpening(db, id, txId, player, opening, [db.nextOrdering, db.nextOrdering + 1]).(nextOrdering := db.nextOrdering + 2))
  }

  lemma OpenIs(db: Db, id: Id, txId: Id, player: string, opening: Money)
    requires ValidOpening(player, opening)
    ensures Operations.Open(db, id, txId, player, opening) ==
            match WalletRefusal(db.wallets, id, player, opening.currency)
            case Some(e) => Err(e)
            case None => OpenRest(db, id, txId, player, opening)
  {
  }

  lemma OpeningFacts(id: Id, txId: Id, player: string, opening: Money)
    ensures var ch := OpeningChange(id, txId, player, opening);
            ch.Settle? && ch.row.ref == "" && ch.row.currency == ch.wallet.currency && ch.row == OpeningRow(id, txId, player, opening)
  {
  }

  lemma OpenLands(db: Db, x: Session, id: Id, txId: Id, player: string, opening: Money, row: Tx, end: Alone)
    requires x.job == Job.Open(id, txId, player, opening) && opening.minor > 0 && row == OpeningRow(id, txId, player, opening)
    requires if KeyRefusal(db.txs, row).Some? then EndsIn(db, KeyRefusal(db.txs, row).value, end)
             else Ready(db, x, None, OpeningChange(id, txId, player, opening), end)
    ensures OpenAgrees(db, OpenRest(db, id, txId, player, opening), end)
  {
    if KeyRefusal(db.txs, row).None? {
      OpenCommits(db, x, id, txId, player, opening, end);
    }
  }

  lemma OpenFunded(db: Db, x: Session, id: Id, txId: Id, player: string, opening: Money) returns (end: Alone)
    requires x.job == Job.Open(id, txId, player, opening) && opening.minor > 0 && x.pc == AtPk(OpeningChange(id, txId, player, opening))
    ensures Leads(Alone(db, x), 9, end) && OpenAgrees(db, OpenRest(db, id, txId, player, opening), end)
  {
    OpeningFacts(id, txId, player, opening);
    end := OpenInserted(db, x, x.pc.change);
    OpenLands(db, x, id, txId, player, opening, x.pc.change.row, end);
  }

  lemma OpenCommits(db: Db, x: Session, id: Id, txId: Id, player: string, opening: Money, end: Alone)
    requires x.job == Job.Open(id, txId, player, opening) && opening.minor > 0
    requires Ready(db, x, None, OpeningChange(id, txId, player, opening), end)
    ensures Committable(end.db, end.x)
    ensures Committed(end.db, end.x, end.x.pc.work, end.x.pc.orderings) ==
            CommitOpening(db, id, txId, player, opening, [db.nextOrdering, db.nextOrdering + 1]).(nextOrdering := db.nextOrdering + 2)
  {
    assert NextOrderings(db, OpeningChange(id, txId, player, opening)) == [db.nextOrdering, db.nextOrdering + 1];
  }

  lemma OpenEmpty(db: Db, x: Session, id: Id, txId: Id, player: string, opening: Money) returns (end: Alone)
    requires x.job == Job.Open(id, txId, player, opening) && opening.minor == 0 && x.pc == AtDraw(Bare, [])
    ensures Leads(Alone(db, x), 9, end) && OpenAgrees(db, OpenRest(db, id, txId, player, opening), end)
  {
    var y := x.(pc := AtComplete(Bare, []));
    var z := Completes(db, y);
    end := Alone(db, z);
    assert db.(nextOrdering := db.nextOrdering + 0) == db;
    Prepend(Alone(db, x), Alone(db, y), 1, end);
    Longer(Alone(db, x), 2, 9, end);
  }

  lemma OpenOwned(db: Db, x: Session, id: Id, txId: Id, player: string, opening: Money) returns (end: Alone)
    requires x.job == Job.Open(id, txId, player, opening) && ValidOpening(player, opening) && x.pc.AtOwner?
    requires !OwnerTaken(db.wallets, player, opening.currency)
    ensures Leads(Alone(db, x), 10, end) && OpenAgrees(db, OpenRest(db, id, txId, player, opening), end)
  {
    hide Leads, OpenAgrees, OpenRest, OwnerTaken;
    var y := OpenStatement(db, x);
    if opening.minor == 0 {
      end := OpenEmpty(db, y, id, txId, player, opening);
    } else {
      end := OpenFunded(db, y, id, txId, player, opening);
    }
    Then(db, x, y, 9, end);
  }

  lemma OpenFromOwner(db: Db, x: Session, id: Id, txId: Id, player: string, opening: Money) returns (end: Alone)
    requires x.job == Job.Open(id, txId, player, opening) && ValidOpening(player, opening) && x.pc.AtOwner? && id !in db.wallets
    ensures Leads(Alone(db, x), 10, end) && OpenAgrees(db, Operations.Open(db, id, txId, player, opening), end)
  {
    OpenIs(db, id, txId, player, opening);
    if OwnerTaken(db.wallets, player, opening.currency) {
      end := OpenViolates(db, x, WalletOwnerIndex);
      Longer(Alone(db, x), 1, 10, end);
    } else {
      end := OpenOwned(db, x, id, txId, player, opening);
    }
  }

  lemma EntersOwner(db: Db, x: Session, y: Session, id: Id, n: nat, end: Alone)
    requires x.job.Open? && x.pc.AtNewWallet? && x.job.id == id && id !in db.wallets && Leads(Alone(db, y), n, end)
    requires y == x.(pc := AtOwner, held := x.held + {WalletPk(id)})
    ensures Leads(Alone(db, x), n + 1, end)
  {
    Then(db, x, y, n, end);
  }

  lemma OpenTaken(db: Db, x: Session, id: Id, txId: Id, player: string, opening: Money) returns (end: Alone)
    requires x.job == Job.Open(id, txId, player, opening) && ValidOpening(player, opening) && x.pc.AtNewWallet? && id in db.wallets
    ensures Leads(Alone(db, x), 11, end) && OpenAgrees(db, Operations.Open(db, id, txId, player, opening), end)
  {
    OpenIs(db, id, txId, player, opening);
    end := OpenViolates(db, x, WalletPkey);
    Longer(Alone(db, x), 1, 11, end);
  }

  /** OpenWallet, run alone: eleven statements at most, then the specified commit or the specified error. */
  lemma SoloOpen(db: Db, id: Id, txId: Id, player: string, opening: Money) returns (end: Alone)
    requires ValidOpening(player, opening)
    ensures Leads(Alone(db, Started(Job.Open(id, txId, player, opening))), 11, end)
    ensures OpenAgrees(db, Operations.Open(db, id, txId, player, opening), end)
  {
    var x := Started(Job.Open(id, txId, player, opening));
    if id in db.wallets {
      end := OpenTaken(db, x, id, txId, player, opening);
    } else {
      var y := x.(pc := AtOwner, held := x.held + {WalletPk(id)});
      end := OpenFromOwner(db, y, id, txId, player, opening);
      EntersOwner(db, x, y, id, 10, end);
    }
  }
}
