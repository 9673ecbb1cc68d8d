/** Facts about the transaction table: identity, references and the meaning of reversals. */
module TxFacts {
  import opened Prelude
  import opened Monetary
  import opened Tables
  import opened Domain
  import opened Engine

  // ---------------------------------------------------------------------
  // How the table may change
  // ---------------------------------------------------------------------

  /** A row reduced to the columns no statement updates. */
  function Fixed(t: Tx): Tx {
    t.(state := Pending, attempts := 0, nextAttempt := None, code := NoCode, result := None)
  }

  predicate Identity(a: Tx, b: Tx) {
    Fixed(a) == Fixed(b)
  }

  /** Rows are never removed, keep their identity, and never change once terminal. */
  ghost predicate Extends(txs: seq<Tx>, txs': seq<Tx>) {
    && |txs| <= |txs'|
    && forall i :: 0 <= i < |txs| ==> Identity(txs'[i], txs[i]) && (Terminal(txs[i].state) ==> txs'[i] == txs[i])
  }

  lemma ExtendsTransitive(a: seq<Tx>, b: seq<Tx>, c: seq<Tx>)
    requires Extends(a, b) && Extends(b, c)
    ensures Extends(a, c)
  {
    forall i | 0 <= i < |a|
      ensures Identity(c[i], a[i]) && (Terminal(a[i].state) ==> c[i] == a[i])
    {
      assert Identity(b[i], a[i]) && Identity(c[i], b[i]);
    }
  }

  /** Under the unique index a lookup answers with the only match. */
  lemma ExternalIs(txs: seq<Tx>, provider: string, external: string, k: nat)
    requires UniqueKeys(txs) && k < |txs| && HasExternal(txs[k], provider, external)
    ensures IndexByExternal(txs, provider, external) == Some(k)
  {
    var j := IndexByExternal(txs, provider, external).value;
    assert HasExternal(txs[j], provider, external);
  }

  // ---------------------------------------------------------------------
  // References
  // ---------------------------------------------------------------------

  /** The row a reversal names. */
  function RefIndex(txs: seq<Tx>, t: Tx): Option<nat> {
    IndexByExternal(txs, t.provider, t.ref)
  }

  predicate RefersTo(txs: seq<Tx>, t: Tx) {
    match RefIndex(txs, t)
    case None => false
    case Some(k) => ValidReference(CommandOf(t), txs[k])
  }

  /** Every processed reversal names a processed row it may reverse. */
  ghost predicate RefsOk(txs: seq<Tx>) {
    forall j :: 0 <= j < |txs| && txs[j].state.Processed? && IsReversal(txs[j].kind) ==> RefersTo(txs, txs[j])
  }

  lemma RefersToExtends(txs: seq<Tx>, txs': seq<Tx>, t: Tx)
    requires Extends(txs, txs') && UniqueKeys(txs') && RefersTo(txs, t)
    ensures RefersTo(txs', t) && RefIndex(txs', t) == RefIndex(txs, t)
  {
    var k := RefIndex(txs, t).value;
    assert txs'[k] == txs[k];
    ExternalIs(txs', t.provider, t.ref, k);
  }

  /** The movement of a processed row: a rollback moves against what it reverses. */
  function DirectionOf(txs: seq<Tx>, t: Tx): Direction {
    DirectionFor(t.kind, match RefIndex(txs, t) case Some(k) => txs[k].kind case None => t.kind)
  }

  // ---------------------------------------------------------------------
  // Replacing one row
  // ---------------------------------------------------------------------

  /** The new row does not meet any unique index: the checks the insert or update makes. */
  ghost predicate KeysFree(txs: seq<Tx>, row: Tx) {
    forall k :: 0 <= k < |txs| ==>
      txs[k].id != row.id && !HasExternal(txs[k], row.provider, row.external) && !HasKey(txs[k], row.provider, row.key)
  }

  ghost predicate SlotFree(txs: seq<Tx>, row: Tx) {
    row.state.Processed? && row.ref != "" ==> forall k :: 0 <= k < |txs| ==> !HoldsSlot(txs[k], row.provider, row.ref)
  }

  /** A write at `slot` meets every unique index: a fresh row, or a waiting row rewritten. */
  ghost predicate Fits(txs: seq<Tx>, slot: Option<nat>, row: Tx) {
    && SlotFree(txs, row)
    && match slot
       case None => KeysFree(txs, row)
       case Some(i) => i < |txs| && !Terminal(txs[i].state) && Identity(row, txs[i])
  }

  function Position(txs: seq<Tx>, slot: Option<nat>): nat {
    match slot case None => |txs| case Some(i) => i
  }

  lemma PutKeeps(txs: seq<Tx>, slot: Option<nat>, row: Tx)
    requires UniqueKeys(txs) && Fits(txs, slot, row)
    ensures UniqueKeys(Put(txs, slot, row)) && Extends(txs, Put(txs, slot, row))
    ensures Position(txs, slot) < |Put(txs, slot, row)| && Put(txs, slot, row)[Position(txs, slot)] == row
  {
    var txs' := Put(txs, slot, row);
    var n := Position(txs, slot);
    forall i, j | 0 <= i < j < |txs'|
      ensures txs'[i].id != txs'[j].id && !HasExternal(txs'[j], txs'[i].provider, txs'[i].external)
      ensures !HasKey(txs'[j], txs'[i].provider, txs'[i].key)
      ensures !(HoldsSlot(txs'[i], txs'[i].provider, txs'[i].ref) && HoldsSlot(txs'[j], txs'[i].provider, txs'[i].ref))
    {
      if i != n && j != n {
        assert txs'[i] == txs[i] && txs'[j] == txs[j];
      } else if slot.Some? {
        assert Identity(txs'[i], txs[i]) && Identity(txs'[j], txs[j]);
      }
    }
  }

  /** Rows other than the written one are as before. */
  lemma PutOthers(txs: seq<Tx>, slot: Option<nat>, row: Tx)
    requires Fits(txs, slot, row)
    ensures var txs' := Put(txs, slot, row);
            && |txs| <= |txs'| && (forall k :: 0 <= k < |txs'| && k != Position(txs, slot) ==> k < |txs| && txs'[k] == txs[k])
  {
    var txs' := Put(txs, slot, row);
    var n := Position(txs, slot);
    forall k | 0 <= k < |txs'| && k != n
      ensures k < |txs| && txs'[k] == txs[k]
    {
      assert slot.None? ==> txs' == txs + [row] && n == |txs|;
      assert slot.Some? ==> txs' == txs[slot.value := row];
    }
  }

  lemma PutRefs(txs: seq<Tx>, slot: Option<nat>, row: Tx)
    requires UniqueKeys(txs) && RefsOk(txs) && Fits(txs, slot, row)
    requires row.state.Processed? && IsReversal(row.kind) ==> RefersTo(txs, row)
    ensures RefsOk(Put(txs, slot, row))
  {
    var txs' := Put(txs, slot, row);
    PutKeeps(txs, slot, row);
    PutOthers(txs, slot, row);
    forall j | 0 <= j < |txs'| && txs'[j].state.Processed? && IsReversal(txs'[j].kind)
      ensures RefersTo(txs', txs'[j])
    {
      RefersToExtends(txs, txs', txs'[j]);
    }
  }

  /** Nothing processed refers to a row that was not processed yet. */
  lemma Unreferenced(txs: seq<Tx>, j: nat, row: Tx)
    requires UniqueKeys(txs) && RefsOk(txs) && j < |txs| && txs[j].state.Processed? && IsReversal(txs[j].kind)
    requires forall k :: 0 <= k < |txs| && HasExternal(txs[k], row.provider, row.external) ==> !txs[k].state.Processed?
    ensures !HasExternal(row, txs[j].provider, txs[j].ref)
  {
    assert RefersTo(txs, txs[j]);
    var k := RefIndex(txs, txs[j]).value;
    assert HasExternal(txs[k], txs[j].provider, txs[j].ref);
  }

  // ---------------------------------------------------------------------
  // Who reverses whom
  // ---------------------------------------------------------------------

  /** Row j is a processed refund or rollback of row k. */
  ghost predicate Reverses(txs: seq<Tx>, j: nat, k: nat) {
    && j < |txs| && k < |txs| && txs[j].state.Processed? && IsReversal(txs[j].kind)
    && txs[j].ref != "" && HasExternal(txs[k], txs[j].provider, txs[j].ref)
  }

  ghost predicate Reversed(txs: seq<Tx>, k: nat) {
    exists j :: Reverses(txs, j, k)
  }

  ghost predicate RolledBackBy(txs: seq<Tx>, j: nat, k: nat) {
    Reverses(txs, j, k) && txs[j].kind.Rollback?
  }

  ghost predicate RolledBack(txs: seq<Tx>, k: nat) {
    exists j :: RolledBackBy(txs, j, k)
  }

  /** A refund of k that was itself rolled back. */
  ghost predicate UndoneRefund(txs: seq<Tx>, j: nat, k: nat) {
    Reverses(txs, j, k) && txs[j].kind.Refund? && RolledBack(txs, j)
  }

  /** A bet still stands: nothing reverses it, or its refund was itself rolled back. */
  ghost predicate Standing(txs: seq<Tx>, k: nat) {
    !Reversed(txs, k) || exists j :: UndoneRefund(txs, j, k)
  }

  /** The unique slot: a row has at most one processed reversal. */
  lemma OneReversal(txs: seq<Tx>, j: nat, j': nat, k: nat)
    requires UniqueKeys(txs) && Reverses(txs, j, k) && Reverses(txs, j', k)
    ensures j == j'
  {
    assert HoldsSlot(txs[j], txs[j].provider, txs[j].ref) && HoldsSlot(txs[j'], txs[j].provider, txs[j].ref);
  }

  lemma OneReversed(txs: seq<Tx>, j: nat, k: nat, k': nat)
    requires UniqueKeys(txs) && Reverses(txs, j, k) && Reverses(txs, j, k')
    ensures k == k'
  {
    assert HasExternal(txs[k], txs[k'].provider, txs[k'].external);
  }

  /** Row k is not processed, and another processed row already reverses what it names. */
  ghost predicate Superseded(txs: seq<Tx>, k: nat) {
    && k < |txs| && !txs[k].state.Processed? && txs[k].ref != ""
    && exists j :: 0 <= j < |txs| && HoldsSlot(txs[j], txs[k].provider, txs[k].ref)
  }

  /** The slot of a processed reversal is never given back, so the row it superseded is never processed. */
  lemma SupersededExtends(txs: seq<Tx>, txs': seq<Tx>, k: nat)
    requires Superseded(txs, k) && Extends(txs, txs') && UniqueKeys(txs')
    ensures Superseded(txs', k)
  {
    var j :| 0 <= j < |txs| && HoldsSlot(txs[j], txs[k].provider, txs[k].ref);
    assert txs'[j] == txs[j] && Identity(txs'[k], txs[k]);
    assert Fixed(txs'[k]).ref == txs[k].ref && Fixed(txs'[k]).provider == txs[k].provider;
    assert HoldsSlot(txs'[j], txs'[k].provider, txs'[k].ref);
    assert txs'[k].state.Processed? ==> HoldsSlot(txs'[k], txs'[j].provider, txs'[j].ref);
  }

  // ---------------------------------------------------------------------
  // Finding the row of a command again
  // ---------------------------------------------------------------------

  /** The same request again: same key, same business fields, any id. */
  predicate SameRequest(c: Command, d: Command) {
    c.key == d.key && PayloadOf(c) == PayloadOf(d)
  }

  /** The one row of a command: its key, its business fields and its hash. */
  predicate Records(t: Tx, c: Command) {
    t.key == c.key && SameBusiness(t, c) && t.hash == c.hash
  }

  /** Another row than k already has this id. */
  ghost predicate IdTaken(txs: seq<Tx>, id: Id, k: nat) {
    exists j :: 0 <= j < |txs| && j != k && txs[j].id == id
  }

  /** The lookup finds the command's row, unless its id belongs to another row. */
  lemma RecordIsFound(txs: seq<Tx>, c: Command, k: nat)
    requires UniqueKeys(txs) && k < |txs| && Records(txs[k], c)
    ensures FindExisting(txs, c) == if IdTaken(txs, c.id, k) then Clash(IdempotencyConflict) else Hit(k)
  {
    assert HasKey(txs[k], c.provider, c.key);
    match IndexById(txs, c.id)
    case Some(i) =>
      assert i != k ==> !HasKey(txs[i], c.provider, c.key);
    case None =>
      var i := IndexByKey(txs, c.provider, c.key).value;
      assert HasKey(txs[i], c.provider, c.key);
  }

  /** The committed answer of a command: a terminal row with its key, its business fields and its hash. */
  ghost predicate Answered(txs: seq<Tx>, c: Command, k: nat, r: Result) {
    k < |txs| && Records(txs[k], c) && Terminal(txs[k].state) && ReplayResult(txs[k]) == Ok(r)
  }

  lemma AnsweredLater(txs: seq<Tx>, txs': seq<Tx>, c: Command, k: nat, r: Result)
    requires Answered(txs, c, k, r) && Extends(txs, txs')
    ensures Answered(txs', c, k, r)
  {
    assert txs'[k] == txs[k];
  }
}
