/** What every session may rely on at every point, whatever the others commit meanwhile. */
module SessionInv {
  import opened Prelude
  import opened Monetary
  import opened Tables
  import opened Domain
  import opened Engine
  import opened TxFacts
  import opened Invariants
  import opened Decisions
  import opened Openings
  import opened Statements

  // ---------------------------------------------------------------------
  // What holding a lock means
  // ---------------------------------------------------------------------

  /** The waiting row a worker session has claimed. */
  function Own(x: Session): Option<nat> {
    match x.pc
    case AtReference(at, _) => Some(at)
    case AtResolve(at, _) => Some(at)
    case AtSettle(at, _, _) => Some(at)
    case AtTouch(at, _, _) => Some(at)
    case AtSlot(slot, _) => slot
    case AtDraw(work, _) => if work.Write? then work.slot else None
    case AtComplete(work, _) => if work.Write? then work.slot else None
    case AtCommit(work, _) => if work.Write? then work.slot else None
    case _ => None
  }

  /** What the committed state owes to a held lock: index entries are not committed by anyone else. */
  ghost predicate Guarded(db: Db, r: Resource, own: Option<nat>) {
    match r
    case TxPk(id) => forall k :: 0 <= k < |db.txs| && db.txs[k].id == id ==> own == Some(k)
    case TxExternal(p, e) => forall k :: 0 <= k < |db.txs| && HasExternal(db.txs[k], p, e) ==> own == Some(k)
    case TxKey(p, key) => forall k :: 0 <= k < |db.txs| && HasKey(db.txs[k], p, key) ==> own == Some(k)
    case TxSlot(p, ref) => forall k :: 0 <= k < |db.txs| ==> !HoldsSlot(db.txs[k], p, ref)
    case WalletRow(id) => id in db.wallets
    case WalletPk(id) => id !in db.wallets
    case WalletOwner(player, currency) => OwnerFree(db.wallets, player, currency)
    case InboxInsert(m) => m !in db.inbox
    case _ => true
  }

  ghost predicate HeldOk(db: Db, x: Session) {
    && (forall r {:trigger Guarded(db, r, Own(x))} :: r in x.held ==> Guarded(db, r, Own(x)))
    && (forall at :: Own(x) == Some(at) ==> PendingRow(at) in x.held)
  }

  // ---------------------------------------------------------------------
  // Facts a session carries
  // ---------------------------------------------------------------------

  /** The wallet read under lock is the committed one. */
  ghost predicate WalletHeld(db: Db, x: Session, id: Id, w: Wallet) {
    WalletRow(id) in x.held && id in db.wallets && db.wallets[id] == w
  }

  /** The claimed row is still waiting, exactly as it was read. */
  ghost predicate RowHeld(db: Db, x: Session, at: nat, t: Tx) {
    PendingRow(at) in x.held && at < |db.txs| && db.txs[at] == t && t.state.PendingReference?
  }

  /** No row was created through a call under this identity. */
  ghost predicate NoneCreated(txs: seq<Tx>, provider: string, external: string) {
    forall k :: 0 <= k < |txs| && HasExternal(txs[k], provider, external) ==> txs[k].kind.Opening?
  }

  /** A committed row already has this command's id, key or external id, and it is another request's. */
  ghost predicate Contested(txs: seq<Tx>, c: Command) {
    exists k :: 0 <= k < |txs| && Contests(txs[k], c)
  }

  predicate Contests(t: Tx, c: Command) {
    (t.id == c.id || HasKey(t, c.provider, c.key) || HasExternal(t, c.provider, c.external)) && !SameBusiness(t, c)
  }

  /** The event that announced the waiting of transaction `id` carries this result. */
  predicate CarriesWait(e: Event, id: Id, r: Result) {
    e.aggregate == TxAggregate(id) && e.kind.TransactionPendingReference? && e.body.TxBody? && e.body.result == r
  }

  ghost predicate WaitedWith(outbox: seq<Event>, id: Id, r: Result) {
    exists e :: e in outbox && CarriesWait(e, id, r)
  }

  /**
   A call's result belongs to the one row of its identity: a terminal result is
   that row's result, and a waiting one is what the row's waiting event carries.
   */
  ghost predicate Answers(db: Db, c: Command, r: Result, k: nat) {
    && k < |db.txs| && Records(db.txs[k], c) && ExternalKind(db.txs[k].kind)
    && r.tx == db.txs[k].id && r.amount == c.amount
    && (if Terminal(r.state) then ReplayResult(db.txs[k]) == Ok(r) else r.state.PendingReference? && WaitedWith(db.outbox, r.tx, r))
  }

  ghost predicate Replied(db: Db, c: Command, r: Result) {
    exists k: nat :: Answers(db, c, r, k)
  }

  /** The message of a call: inserted by this session, or found with the same payload. */
  ghost predicate InboxPart(db: Db, x: Session)
    requires x.job.Call?
  {
    match x.job.message
    case None => !x.inserted
    case Some(m) => if x.inserted then InboxInsert(m) in x.held else m in db.inbox && db.inbox[m].hash == x.job.cmd.hash
  }

  ghost predicate Located(x: Session)
    requires x.job.Call?
  {
    IdentityLock(x.job.cmd.provider, x.job.cmd.external) in x.held
  }

  /** How many of a row's index entries the session has made. */
  ghost predicate Keys(x: Session, row: Tx, n: nat) {
    && (n >= 1 ==> TxPk(row.id) in x.held)
    && (n >= 2 ==> TxExternal(row.provider, row.external) in x.held)
    && (n >= 3 ==> TxKey(row.provider, row.key) in x.held)
    && (n >= 4 && row.state.Processed? && row.ref != "" ==> TxSlot(row.provider, row.ref) in x.held)
  }

  /** The sequence numbers drawn so far are behind everything the aggregates already show. */
  ghost predicate Drawn(outbox: seq<Event>, next: nat, ch: Change, orderings: seq<nat>) {
    && |orderings| <= EventCount(ch)
    && (forall i :: 0 <= i < |orderings| ==> orderings[i] < next)
    && (ch.Settle? ==> forall e :: e in outbox ==>
          && (|orderings| > 0 && e.aggregate == TxAggregate(ch.row.id) ==> e.ordering < orderings[0])
          && (|orderings| > 1 && e.aggregate == WalletAggregate(ch.row.wallet) ==> e.ordering < orderings[1]))
  }

  // ---------------------------------------------------------------------
  // Calls
  // ---------------------------------------------------------------------

  /** The row a call is about to insert; nobody created its identity since it was looked up. */
  ghost predicate CallWrite(db: Db, x: Session, ch: Change)
    requires x.job.Call?
  {
    var c := x.job.cmd;
    && InboxPart(db, x) && Located(x)
    && ch.Settle? && ch.row.id == c.id && ch.row.key == c.key && ch.row.hash == c.hash && SameBusiness(ch.row, c) && ch.row.attempts == 0
    && ExternalKind(ch.row.kind) && WalletHeld(db, x, c.wallet, ch.wallet) && NoneCreated(db.txs, c.provider, c.external)
    && (ch.row.currency == ch.wallet.currency ==> Sound(db.txs, ch))
  }

  ghost predicate CallWork(db: Db, x: Session, work: Work, orderings: seq<nat>)
    requires x.job.Call?
  {
    match work
    case Reply(r) => InboxPart(db, x) && Located(x) && Replied(db, x.job.cmd, r) && orderings == []
    case Write(slot, ch) =>
      && slot.None? && CallWrite(db, x, ch) && ch.row.currency == ch.wallet.currency && Keys(x, ch.row, 4)
      && Drawn(db.outbox, db.nextOrdering, ch, orderings)
    case Bare => false
  }

  ghost predicate CallOk(db: Db, x: Session)
    requires x.job.Call?
  {
    var facts := match x.pc
      case AtInbox => !x.inserted && x.job.message.Some?
      case AtIdentity => InboxPart(db, x)
      case AtLookup => InboxPart(db, x) && Located(x)
      case AtWallet => InboxPart(db, x) && Located(x)
      case AtRecheck(w) => InboxPart(db, x) && Located(x) && WalletHeld(db, x, x.job.cmd.wallet, w)
      case AtDecide(w) =>
        && InboxPart(db, x) && Located(x) && WalletHeld(db, x, x.job.cmd.wallet, w)
        && NoneCreated(db.txs, x.job.cmd.provider, x.job.cmd.external)
      case AtPk(ch) => CallWrite(db, x, ch)
      case AtExternal(ch) => CallWrite(db, x, ch) && Keys(x, ch.row, 1)
      case AtKey(ch) => CallWrite(db, x, ch) && Keys(x, ch.row, 2)
      case AtSlot(slot, ch) => slot.None? && CallWrite(db, x, ch) && Keys(x, ch.row, 3)
      case AtForeign(ch) => CallWrite(db, x, ch) && Keys(x, ch.row, 4)
      case AtDraw(work, orderings) => work.Write? && CallWork(db, x, work, orderings)
      case AtComplete(work, orderings) => CallWork(db, x, work, orderings) && |orderings| == Wanted(work)
      case AtCommit(work, orderings) => CallWork(db, x, work, orderings) && |orderings| == Wanted(work)
      case AtConflict => x.job.message.None? && Contested(db.txs, x.job.cmd)
      case Done(outcome) => outcome.Ok? ==>
        && outcome.value.Some? && Replied(db, x.job.cmd, outcome.value.value)
        && (x.job.message.Some? ==> x.job.message.value in db.inbox && db.inbox[x.job.message.value] == InboxRow(x.job.cmd.hash, true))
      case _ => false;
    facts
  }

  // ---------------------------------------------------------------------
  // The worker
  // ---------------------------------------------------------------------

  /** The rewritten row of a worker; a row given up as not found has no created reference. */
  ghost predicate WorkerWrite(db: Db, x: Session, at: nat, ch: Change)
    requires x.job.Worker?
  {
    && PendingRow(at) in x.held && at < |db.txs| && db.txs[at].state.PendingReference?
    && Identity(ch.row, db.txs[at]) && IdentityLock(ch.row.provider, ch.row.ref) in x.held
    && match ch
       case Postpone(row) =>
         && row == db.txs[at].(attempts := db.txs[at].attempts + 1, nextAttempt := row.nextAttempt)
         && row.attempts < x.job.maxAttempts
       case Settle(row, _, w, _) =>
         && Terminal(row.state) && WalletHeld(db, x, row.wallet, w) && Sound(db.txs, ch)
         && (row.code == ReferenceNotFound ==> NoneCreated(db.txs, row.provider, row.ref))
  }

  ghost predicate WorkerWork(db: Db, x: Session, work: Work, orderings: seq<nat>)
    requires x.job.Worker?
  {
    && work.Write? && work.slot.Some? && WorkerWrite(db, x, work.slot.value, work.change) && Keys(x, work.change.row, 4)
    && Drawn(db.outbox, db.nextOrdering, work.change, orderings)
  }

  ghost predicate WorkerOk(db: Db, x: Session)
    requires x.job.Worker?
  {
    var facts := match x.pc
      case AtClaim => x.held == {}
      case AtReference(at, t) => RowHeld(db, x, at, t)
      case AtResolve(at, t) => RowHeld(db, x, at, t) && IdentityLock(t.provider, t.ref) in x.held
      case AtSettle(at, t, resolution) =>
        && RowHeld(db, x, at, t) && IdentityLock(t.provider, t.ref) in x.held && Promised(db.txs, t, resolution)
        && (resolution == Wait(ReferenceNotFound) ==> NoneCreated(db.txs, t.provider, t.ref))
        && (resolution.Turn? ==> resolution.code != ReferenceNotFound)
      case AtTouch(at, t, ch) => RowHeld(db, x, at, t) && WorkerWrite(db, x, at, ch)
      case AtSlot(slot, ch) => slot.Some? && WorkerWrite(db, x, slot.value, ch) && Keys(x, ch.row, 3)
      case AtDraw(work, orderings) => WorkerWork(db, x, work, orderings)
      case AtComplete(work, orderings) => WorkerWork(db, x, work, orderings) && |orderings| == Wanted(work)
      case AtCommit(work, orderings) => WorkerWork(db, x, work, orderings) && |orderings| == Wanted(work)
      case Done(_) => true
      case _ => false;
    facts
  }

  // ---------------------------------------------------------------------
  // Openings
  // ---------------------------------------------------------------------

  ghost predicate OpenWrite(x: Session, ch: Change)
    requires x.job.Open?
  {
    && x.job.opening.minor > 0 && ch == OpeningChange(x.job.id, x.job.txId, x.job.player, x.job.opening)
    && WalletPk(x.job.id) in x.held && WalletOwner(x.job.player, x.job.opening.currency) in x.held
  }

  ghost predicate OpenWork(db: Db, x: Session, work: Work, orderings: seq<nat>)
    requires x.job.Open?
  {
    match work
    case Reply(_) => false
    case Bare =>
      && x.job.opening.minor == 0 && orderings == [] && WalletPk(x.job.id) in x.held
      && WalletOwner(x.job.player, x.job.opening.currency) in x.held
    case Write(slot, ch) => slot.None? && OpenWrite(x, ch) && Keys(x, ch.row, 4) && Drawn(db.outbox, db.nextOrdering, ch, orderings)
  }

  ghost predicate OpenOk(db: Db, x: Session)
    requires x.job.Open?
  {
    var facts := match x.pc
      case AtNewWallet => true
      case AtOwner => WalletPk(x.job.id) in x.held
      case AtPk(ch) => OpenWrite(x, ch)
      case AtExternal(ch) => OpenWrite(x, ch) && Keys(x, ch.row, 1)
      case AtKey(ch) => OpenWrite(x, ch) && Keys(x, ch.row, 2)
      case AtSlot(slot, ch) => slot.None? && OpenWrite(x, ch) && Keys(x, ch.row, 3)
      case AtForeign(ch) => OpenWrite(x, ch) && Keys(x, ch.row, 4)
      case AtDraw(work, orderings) => OpenWork(db, x, work, orderings)
      case AtComplete(work, orderings) => OpenWork(db, x, work, orderings) && |orderings| == Wanted(work)
      case AtCommit(work, orderings) => OpenWork(db, x, work, orderings) && |orderings| == Wanted(work)
      case Done(_) => true
      case _ => false;
    facts
  }

  ghost predicate JobOk(db: Db, x: Session) {
    var facts := match x.job
      case Call(_, _, _) => CallOk(db, x)
      case Worker(_, _, _) => WorkerOk(db, x)
      case Open(_, _, _, _) => OpenOk(db, x);
    facts
  }

  ghost predicate SessionOk(db: Db, x: Session) {
    var admitted := Admissible(x.job);
    var locks := HeldOk(db, x);
    var facts := JobOk(db, x);
    admitted && locks && facts
  }

  // ---------------------------------------------------------------------
  // What one session's step may change for the others
  // ---------------------------------------------------------------------

  /** Every change of the committed state is covered by a lock its author holds. */
  ghost predicate TxEffects(txs: seq<Tx>, txs': seq<Tx>, held: set<Resource>) {
    && Extends(txs, txs') && UniqueKeys(txs')
    && (forall k :: 0 <= k < |txs| && txs'[k] != txs[k] ==> PendingRow(k) in held)
    && (forall k :: |txs| <= k < |txs'| ==>
          && TxPk(txs'[k].id) in held && TxExternal(txs'[k].provider, txs'[k].external) in held
          && TxKey(txs'[k].provider, txs'[k].key) in held
          && (ExternalKind(txs'[k].kind) ==> IdentityLock(txs'[k].provider, txs'[k].external) in held))
    && (forall k :: 0 <= k < |txs'| && HoldsSlot(txs'[k], txs'[k].provider, txs'[k].ref) ==>
          (k < |txs| && txs'[k] == txs[k]) || TxSlot(txs'[k].provider, txs'[k].ref) in held)
  }

  ghost predicate WalletEffects(wallets: map<Id, Wallet>, wallets': map<Id, Wallet>, held: set<Resource>) {
    && (forall w :: w in wallets ==> w in wallets' && wallets'[w].player == wallets[w].player && wallets'[w].currency == wallets[w].currency)
    && (forall w :: w in wallets && wallets'[w] != wallets[w] ==> WalletRow(w) in held)
    && (forall w :: w in wallets' && w !in wallets ==> WalletPk(w) in held && WalletOwner(wallets'[w].player, wallets'[w].currency) in held)
    && (forall w :: WalletPk(w) in held ==> w !in wallets)
    && (forall w :: WalletRow(w) in held ==> w in wallets)
  }

  ghost predicate InboxEffects(inbox: map<InboxKey, InboxRow>, inbox': map<InboxKey, InboxRow>, held: set<Resource>) {
    && (forall m :: m in inbox ==> m in inbox' && inbox'[m].hash == inbox[m].hash && (inbox[m].completed ==> inbox'[m].completed))
    && (forall m :: m in inbox' && m !in inbox ==> InboxInsert(m) in held)
  }

  ghost predicate OutboxEffects(outbox: seq<Event>, outbox': seq<Event>, held: set<Resource>) {
    && (forall e :: e in outbox ==> e in outbox')
    && (forall e :: e in outbox' && e !in outbox ==>
          match e.aggregate
          case TxAggregate(id) => TxPk(id) in held
          case WalletAggregate(w) => WalletRow(w) in held || WalletPk(w) in held)
  }

  ghost predicate Effects(db: Db, db': Db, held: set<Resource>) {
    var rows := TxEffects(db.txs, db'.txs, held);
    var wallets := WalletEffects(db.wallets, db'.wallets, held);
    var inbox := InboxEffects(db.inbox, db'.inbox, held);
    var outbox := OutboxEffects(db.outbox, db'.outbox, held);
    rows && wallets && inbox && outbox && db.nextOrdering <= db'.nextOrdering
  }
}
