/**
 The service at the level of single SQL statements. Every open transaction is a
 session with a program counter; a statement reads the state committed so far,
 takes the locks PostgreSQL takes for it, and nothing is visible to others
 before the commit. Sessions interleave freely and may be cut off at any point.
 */
module Statements {
  import opened Prelude
  import opened Monetary
  import opened Tables
  import opened Domain
  import opened Engine
  import opened Backoff
  import opened Openings

  // ---------------------------------------------------------------------
  // Locks
  // ---------------------------------------------------------------------

  /** Everything a session can hold until it ends and another may have to wait for. */
  datatype Resource =
    | InboxInsert(inbox: InboxKey)                    // an uncommitted inbox row
    | PendingRow(at: nat)                             // FOR UPDATE SKIP LOCKED on a waiting row
    | Advisory(lock: int)                             // pg_advisory_xact_lock
    | WalletRow(id: Id)                               // FOR UPDATE on a wallet
    | WalletPk(id: Id)                                // uncommitted entries of unique indexes, in index order
    | WalletOwner(player: string, currency: string)
    | TxPk(id: Id)
    | TxExternal(provider: string, external: string)
    | TxKey(provider: string, key: string)
    | TxSlot(provider: string, ref: string)
    | InboxUpdate(inbox: InboxKey)                    // the update of a committed inbox row

  /** Any 64-bit number may be the hash of any text. */
  ghost predicate MayHash(text: string, n: int) {
    IsInt64(n)
  }

  /** hashtextextended: a number chosen text by text, so two identities may or may not share a lock. */
  ghost function HashText(text: string): int {
    assert MayHash(text, 0);
    var n: int :| MayHash(text, n);
    n
  }

  ghost function IdentityLock(provider: string, external: string): Resource {
    Advisory(HashText(provider + ['\U{1F}'] + external))
  }

  // ---------------------------------------------------------------------
  // Sessions
  // ---------------------------------------------------------------------

  datatype Job =
    | Call(cmd: Command, message: Option<InboxKey>, now: int)        // Process, or ProcessMessage with a message
    | Worker(maxAttempts: nat, backoff: int, now: int)               // ProcessPendingReference
    | Open(id: Id, txId: Id, player: string, opening: Money)         // OpenWallet

  /** What a session will have written when it commits. */
  datatype Work =
    | Reply(result: Result)                      // a replay writes nothing
    | Write(slot: Option<nat>, change: Change)
    | Bare                                       // a wallet opened at zero

  datatype Pc =
    | AtInbox
    | AtIdentity
    | AtLookup
    | AtWallet
    | AtRecheck(w: Wallet)
    | AtDecide(w: Wallet)
    | AtClaim
    | AtReference(at: nat, t: Tx)
    | AtResolve(at: nat, t: Tx)
    | AtSettle(at: nat, t: Tx, resolution: Resolution)
    | AtTouch(at: nat, t: Tx, change: Change)
    | AtNewWallet
    | AtOwner
    | AtPk(change: Change)
    | AtExternal(change: Change)
    | AtKey(change: Change)
    | AtSlot(slot: Option<nat>, change: Change)
    | AtForeign(change: Change)
    | AtDraw(work: Work, orderings: seq<nat>)
    | AtComplete(work: Work, orderings: seq<nat>)
    | AtCommit(work: Work, orderings: seq<nat>)
    | AtConflict
    | Done(outcome: Outcome<Option<Result>, Error>)

  /** `inserted` tells whether this session inserted its inbox row itself. */
  datatype Session = Session(job: Job, pc: Pc, held: set<Resource>, inserted: bool)

  /** A queue message that was deleted, with the command it carried. */
  datatype Deletion = Deletion(message: InboxKey, cmd: Command)

  datatype State = State(db: Db, sessions: map<nat, Session>, deleted: set<Deletion>)

  const Start := State(EmptyDb, map[], {})

  function First(job: Job): Pc {
    match job
    case Call(_, message, _) => if message.Some? then AtInbox else AtIdentity
    case Worker(_, _, _) => AtClaim
    case Open(_, _, _, _) => AtNewWallet
  }

  /** What a caller may ask for: the transports admit the five external kinds, prepareCommand and wallet.New accepted it. */
  ghost predicate Admissible(job: Job) {
    match job
    case Call(cmd, _, _) => Prepared(cmd) && ExternalKind(cmd.kind)
    case Worker(max, _, _) => max >= 1
    case Open(_, _, player, opening) => ValidOpening(player, opening)
  }

  // ---------------------------------------------------------------------
  // One statement
  // ---------------------------------------------------------------------

  predicate NeedsSlot(ch: Change) {
    ch.row.state.Processed? && ch.row.ref != ""
  }

  /** What the next statement has to wait for; the update of a waiting row takes its index entries without waiting. */
  ghost function Needs(db: Db, x: Session): set<Resource> {
    match x.pc
    case AtInbox => if x.job.Call? && x.job.message.Some? then {InboxInsert(x.job.message.value), InboxUpdate(x.job.message.value)} else {}
    case AtIdentity => if x.job.Call? then {IdentityLock(x.job.cmd.provider, x.job.cmd.external)} else {}
    case AtWallet => if x.job.Call? && x.job.cmd.wallet in db.wallets then {WalletRow(x.job.cmd.wallet)} else {}
    case AtReference(_, t) => {IdentityLock(t.provider, t.ref)}
    case AtSettle(_, t, _) => {WalletRow(t.wallet)}
    case AtNewWallet => if x.job.Open? then {WalletPk(x.job.id)} else {}
    case AtOwner => if x.job.Open? then {WalletOwner(x.job.player, x.job.opening.currency)} else {}
    case AtPk(ch) => {TxPk(ch.row.id)}
    case AtExternal(ch) => {TxExternal(ch.row.provider, ch.row.external)}
    case AtKey(ch) => {TxKey(ch.row.provider, ch.row.key)}
    case AtSlot(_, ch) => if NeedsSlot(ch) then {TxSlot(ch.row.provider, ch.row.ref)} else {}
    case AtComplete(_, _) =>
      if x.job.Call? && x.job.message.Some? && !x.inserted then {InboxUpdate(x.job.message.value)} else {}
    case _ => {}
  }

  function Ended(x: Session, outcome: Outcome<Option<Result>, Error>): Session {
    x.(pc := Done(outcome), held := {})
  }

  /** A unique violation: Process looks the winner up again, everything else gives up. */
  function Violated(x: Session, index: UniqueIndex): Session {
    match x.job
    case Call(_, message, _) =>
      if message.Some? || index.ReversalIndex? then Ended(x, Err(IdempotencyConflict)) else x.(pc := AtConflict, held := {})
    case _ => Ended(x, Err(Violation(index)))
  }

  function Found(x: Session, db: Db, lookup: Lookup, missing: Session): Session
    requires lookup.Hit? ==> lookup.at < |db.txs|
  {
    match lookup
    case Clash(e) => Ended(x, Err(e))
    case Missing => missing
    case Hit(at) =>
      match ReplayResult(db.txs[at])
      case Err(e) => Ended(x, Err(e))
      case Ok(r) => x.(pc := AtComplete(Reply(r), []))
  }

  /** The state a commit leaves, inbox included. */
  function Committed(db: Db, x: Session, work: Work, orderings: seq<nat>): Db
    requires work.Write? ==> |orderings| == EventCount(work.change) && (work.slot.Some? ==> work.slot.value < |db.txs|)
    requires x.job.Open? ==> |orderings| == if x.job.opening.minor == 0 then 0 else 2
  {
    var after :=
      match x.job
      case Open(id, txId, player, opening) => CommitOpening(db, id, txId, player, opening, orderings)
      case _ => if work.Write? then Commit(db, work.slot, work.change, orderings) else db;
    if x.job.Call? && x.job.message.Some?
    then after.(inbox := after.inbox[x.job.message.value := InboxRow(x.job.cmd.hash, true)])
    else after
  }

  function ResultOf(work: Work): Option<Result> {
    match work
    case Reply(r) => Some(r)
    case Write(_, ch) => if ch.Settle? then Some(ch.result) else None
    case Bare => None
  }

  /** A call with its decision made. */
  function Planned(x: Session, w: Wallet, plan: Plan): Session
    requires x.job.Call?
  {
    match plan
    case Refuse(e) => Ended(x, Err(e))
    case Persist(result, move) => x.(pc := AtPk(Settle(NewRow(x.job.cmd, result, x.job.now), result, w, move)))
  }

  /** A worker with its conclusion drawn under the wallet lock. */
  function Concluding(x: Session, at: nat, t: Tx, resolution: Resolution, w: Wallet, plan: Plan): Session {
    match plan
    case Refuse(e) => Ended(x, Err(e))
    case Persist(result, move) =>
      x.(pc := AtTouch(at, t, Settle(SettledRow(CountedRow(t, resolution), result), result, w, move)),
         held := x.held + {WalletRow(t.wallet)})
  }

  /** The statements of a call (processInTx, ProcessMessage, resolveIdentityConflict). */
  ghost function CallStatement(db: Db, x: Session): Session
    requires x.job.Call?
  {
    var c := x.job.cmd;
    match x.pc
    case AtInbox =>
      if x.job.message.None? then x.(pc := AtIdentity)
      else if x.job.message.value !in db.inbox then
        x.(pc := AtIdentity, held := x.held + {InboxInsert(x.job.message.value)}, inserted := true)
      else if db.inbox[x.job.message.value].hash != c.hash then Ended(x, Err(InboxPayloadMismatch))
      else x.(pc := AtIdentity)
    case AtIdentity => x.(pc := AtLookup, held := x.held + {IdentityLock(c.provider, c.external)})
    case AtLookup => Found(x, db, FindExisting(db.txs, c), x.(pc := AtWallet))
    case AtWallet =>
      if c.wallet !in db.wallets then Ended(x, Err(WalletNotFound))
      else x.(pc := AtRecheck(db.wallets[c.wallet]), held := x.held + {WalletRow(c.wallet)})
    case AtRecheck(w) => Found(x, db, FindExisting(db.txs, c), x.(pc := AtDecide(w)))
    case AtDecide(w) =>
      if !IsInt64(c.amount.minor) then Ended(x, Err(InvalidCommand))
      else Planned(x, w, Decide(c, w, LookupExternal(db.txs, c.provider, c.ref)))
    case AtConflict =>
      (match FindExisting(db.txs, c)
       case Clash(e) => Ended(x, Err(e))
       case Missing => Ended(x, Err(IdempotencyConflict))
       case Hit(at) =>
         match ReplayResult(db.txs[at])
         case Err(e) => Ended(x, Err(e))
         case Ok(r) => Ended(x, Ok(Some(r))))
    case _ => x
  }

  /** The statements of the pending-reference worker after its claim. */
  ghost function WorkerStatement(db: Db, x: Session): Session
    requires x.job.Worker?
  {
    match x.pc
    case AtClaim => Ended(x, Ok(None)) // nothing is due
    case AtReference(at, t) =>
      if FromMinor(t.amount, t.currency).None? then Ended(x, Err(InvalidStoredMoney))
      else x.(pc := AtResolve(at, t), held := x.held + {IdentityLock(t.provider, t.ref)})
    case AtResolve(at, t) =>
      var resolution := Resolve(t, LookupExternal(db.txs, t.provider, t.ref));
      if resolution.Wait? && t.attempts + 1 < x.job.maxAttempts then
        x.(pc := AtTouch(at, t, Postpone(PostponedRow(t, x.job.now + WorkerDelay(x.job.backoff, t.attempts + 1)))))
      else x.(pc := AtSettle(at, t, resolution))
    case AtSettle(at, t, resolution) =>
      if t.wallet !in db.wallets then Ended(x, Err(WalletNotFound))
      else Concluding(x, at, t, resolution, db.wallets[t.wallet], Conclude(t, db.wallets[t.wallet], resolution))
    case AtTouch(at, t, ch) =>
      x.(pc := AtSlot(Some(at), ch),
         held := x.held + {TxPk(t.id), TxExternal(t.provider, t.external), TxKey(t.provider, t.key)})
    case _ => x
  }

  /** The statements of OpenWallet up to its transaction row. */
  function OpenStatement(db: Db, x: Session): Session
    requires x.job.Open?
  {
    match x.pc
    case AtNewWallet =>
      if x.job.id in db.wallets then Violated(x, WalletPkey)
      else x.(pc := AtOwner, held := x.held + {WalletPk(x.job.id)})
    case AtOwner =>
      if OwnerTaken(db.wallets, x.job.player, x.job.opening.currency) then Violated(x, WalletOwnerIndex)
      else
        x.(pc := if x.job.opening.minor == 0 then AtDraw(Bare, []) else AtPk(OpeningChange(x.job.id, x.job.txId, x.job.player, x.job.opening)),
           held := x.held + {WalletOwner(x.job.player, x.job.opening.currency)})
    case _ => x
  }

  /** Inserting or updating the transaction row: one unique index after the other, then the foreign keys. */
  function InsertStatement(db: Db, x: Session): Session {
    match x.pc
    case AtPk(ch) =>
      if IndexById(db.txs, ch.row.id).Some? then Violated(x, TxPkey)
      else x.(pc := AtExternal(ch), held := x.held + {TxPk(ch.row.id)})
    case AtExternal(ch) =>
      if IndexByExternal(db.txs, ch.row.provider, ch.row.external).Some? then Violated(x, ExternalIndex)
      else x.(pc := AtKey(ch), held := x.held + {TxExternal(ch.row.provider, ch.row.external)})
    case AtKey(ch) =>
      if IndexByKey(db.txs, ch.row.provider, ch.row.key).Some? then Violated(x, KeyIndex)
      else x.(pc := AtSlot(None, ch), held := x.held + {TxKey(ch.row.provider, ch.row.key)})
    case AtSlot(slot, ch) =>
      var next := if slot.None? then AtForeign(ch) else AtDraw(Write(slot, ch), []);
      if !NeedsSlot(ch) then x.(pc := next)
      else if IndexBySlot(db.txs, ch.row.provider, ch.row.ref).Some? then Violated(x, ReversalIndex)
      else x.(pc := next, held := x.held + {TxSlot(ch.row.provider, ch.row.ref)})
    case AtForeign(ch) =>
      if !ch.Settle? || ch.row.currency != ch.wallet.currency then Ended(x, Err(ForeignKeyViolation))
      else x.(pc := AtDraw(Write(None, ch), []))
    case _ => x
  }

  function Wanted(work: Work): nat {
    if work.Write? then EventCount(work.change) else 0
  }

  /** Drawing sequence numbers, completing the inbox row: the last statements before the commit. */
  function FinalStatement(x: Session, next: nat): Session {
    match x.pc
    case AtDraw(work, orderings) =>
      if |orderings| < Wanted(work) then x.(pc := AtDraw(work, orderings + [next])) else x.(pc := AtComplete(work, orderings))
    case AtComplete(work, orderings) =>
      if x.job.Call? && x.job.message.Some? && !x.inserted
      then x.(pc := AtCommit(work, orderings), held := x.held + {InboxUpdate(x.job.message.value)})
      else x.(pc := AtCommit(work, orderings))
    case _ => x
  }

  predicate Inserting(pc: Pc) {
    pc.AtPk? || pc.AtExternal? || pc.AtKey? || pc.AtSlot? || pc.AtForeign?
  }

  predicate Finishing(pc: Pc) {
    pc.AtDraw? || pc.AtComplete?
  }

  /** Any statement but the commit. */
  ghost function Statement(db: Db, x: Session): Session {
    if Inserting(x.pc) then InsertStatement(db, x)
    else if Finishing(x.pc) then FinalStatement(x, db.nextOrdering)
    else
      match x.job
      case Call(_, _, _) => CallStatement(db, x)
      case Worker(_, _, _) => WorkerStatement(db, x)
      case Open(_, _, _, _) => OpenStatement(db, x)
  }

  /** nextval is never rolled back. */
  function Draws(x: Session): nat {
    if x.pc.AtDraw? && |x.pc.orderings| < Wanted(x.pc.work) then 1 else 0
  }

  // ---------------------------------------------------------------------
  // The machine
  // ---------------------------------------------------------------------

  datatype Action =
    | Begin(sid: nat, job: Job)
    | ClaimPending(sid: nat, at: nat)
    | Run(sid: nat)
    | CommitNow(sid: nat, seen: bool) // an unseen commit happens, but its caller learns of an error
    | CutOff(sid: nat)
    | DeleteMessage(sid: nat)

  /** Another session holds something this one needs. */
  ghost predicate Blocked(s: State, sid: nat)
    requires sid in s.sessions
  {
    exists other :: other != sid && other in s.sessions && !(Needs(s.db, s.sessions[sid]) !! s.sessions[other].held)
  }

  predicate Free(s: State, r: Resource) {
    forall other :: other in s.sessions ==> r !in s.sessions[other].held
  }

  /** A committed work fits the state it is committed to. */
  predicate Committable(db: Db, x: Session) {
    && x.pc.AtCommit?
    && (x.pc.work.Write? ==> |x.pc.orderings| == EventCount(x.pc.work.change) && (x.pc.work.slot.Some? ==> x.pc.work.slot.value < |db.txs|))
    && (x.job.Open? ==> |x.pc.orderings| == if x.job.opening.minor == 0 then 0 else 2)
  }

  ghost predicate Enabled(s: State, a: Action) {
    match a
    case Begin(sid, job) => sid !in s.sessions && Admissible(job)
    case ClaimPending(sid, at) =>
      && sid in s.sessions && s.sessions[sid].job.Worker? && s.sessions[sid].pc.AtClaim? && at < |s.db.txs|
      && DueRow(s.db.txs[at], s.sessions[sid].job.now) && Free(s, PendingRow(at))
    case Run(sid) =>
      sid in s.sessions && !s.sessions[sid].pc.AtCommit? && !s.sessions[sid].pc.Done? && !Blocked(s, sid)
    case CommitNow(sid, _) => sid in s.sessions && Committable(s.db, s.sessions[sid])
    case CutOff(sid) => sid in s.sessions && !s.sessions[sid].pc.Done?
    case DeleteMessage(sid) =>
      && sid in s.sessions && s.sessions[sid].job.Call? && s.sessions[sid].job.message.Some?
      && s.sessions[sid].pc.Done? && s.sessions[sid].pc.outcome.Ok?
  }

  ghost function Apply(s: State, a: Action): State
    requires Enabled(s, a)
  {
    match a
    case Begin(sid, job) => s.(sessions := s.sessions[sid := Session(job, First(job), {}, false)])
    case ClaimPending(sid, at) =>
      s.(sessions := s.sessions[sid := s.sessions[sid].(pc := AtReference(at, s.db.txs[at]), held := {PendingRow(at)})])
    case Run(sid) =>
      var x := s.sessions[sid];
      s.(db := s.db.(nextOrdering := s.db.nextOrdering + Draws(x)), sessions := s.sessions[sid := Statement(s.db, x)])
    case CommitNow(sid, seen) =>
      var x := s.sessions[sid];
      s.(db := Committed(s.db, x, x.pc.work, x.pc.orderings),
         sessions := s.sessions[sid := Ended(x, if seen then Ok(ResultOf(x.pc.work)) else Err(Interrupted))])
    case CutOff(sid) => s.(sessions := s.sessions[sid := Ended(s.sessions[sid], Err(Interrupted))])
    case DeleteMessage(sid) =>
      var job := s.sessions[sid].job;
      s.(deleted := s.deleted + {Deletion(job.message.value, job.cmd)})
  }

  ghost predicate Step(s: State, a: Action, s': State) {
    Enabled(s, a) && s' == Apply(s, a)
  }

  /** A run of the service: any interleaving of statements, commits, interruptions and deletions. */
  ghost predicate Runs(states: seq<State>, actions: seq<Action>) {
    && |states| == |actions| + 1 && states[0] == Start
    && forall i :: 0 <= i < |actions| ==> Step(states[i], actions[i], states[i + 1])
  }
}
