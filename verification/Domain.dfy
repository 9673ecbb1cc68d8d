/**
 The domain objects: wallet (internal/domain/wallet/wallet.go), wager transaction
 (internal/domain/wager/wager.go) and ledger entry (internal/domain/ledger/ledger.go).
 */
module Domain {
  import opened Prelude
  import opened Monetary
  import opened Tables

  datatype WalletError = InvalidWallet | InsufficientFunds | Arithmetic(error: MoneyError)

  /** What a debit leaves, or why it is refused. */
  function Debited(balance: Money, amount: Money): (r: Outcome<Money, WalletError>)
    requires IsInt64(balance.minor) && IsInt64(amount.minor)
    ensures r.Ok? <==> amount.minor >= 0 && balance.currency == amount.currency != ""
                       && (amount.minor == 0 || amount.minor <= balance.minor)
    ensures r.Ok? ==> r.value == Money(balance.minor - amount.minor, balance.currency)
  {
    if amount.minor < 0 then Err(InvalidWallet)
    else if Compatible(balance, amount).Some? then Err(Arithmetic(Compatible(balance, amount).value))
    else if amount.minor == 0 then Ok(balance)
    else if balance.minor < amount.minor then Err(InsufficientFunds)
    else
      match Sub(balance, amount)
      case Ok(next) => Ok(next)
      case Err(e) => Err(Arithmetic(e))
  }

  /** What a credit leaves, or why it is refused. */
  function Credited(balance: Money, amount: Money): (r: Outcome<Money, WalletError>)
    requires IsInt64(balance.minor) && IsInt64(amount.minor)
    ensures r.Ok? <==> amount.minor >= 0 && balance.currency == amount.currency != ""
                       && balance.minor + amount.minor <= MAX_INT64
    ensures r.Ok? ==> r.value == Money(balance.minor + amount.minor, balance.currency)
  {
    if amount.minor < 0 then Err(InvalidWallet)
    else if Compatible(balance, amount).Some? then Err(Arithmetic(Compatible(balance, amount).value))
    else if amount.minor == 0 then Ok(balance)
    else
      match Add(balance, amount)
      case Ok(next) => Ok(next)
      case Err(e) => Err(Arithmetic(e))
  }

  /** The wallet object the program mutates in place. */
  class WalletObject {
    const id: Id
    const player: string
    var balance: Money
    var version: nat

    ghost predicate Valid()
      reads this
    {
      0 <= balance.minor <= MAX_INT64 && balance.currency != ""
    }

    constructor (id: Id, player: string, opening: Money)
      requires 0 <= opening.minor <= MAX_INT64 && opening.currency != ""
      ensures Valid() && balance == opening && version == 1 && this.id == id && this.player == player
    {
      this.id, this.player, this.balance, this.version := id, player, opening, 1;
    }

    /** A refused or empty debit changes nothing; an effective one bumps the version once. */
    method Debit(amount: Money) returns (r: Option<WalletError>)
      requires Valid() && IsInt64(amount.minor)
      modifies this
      ensures Valid()
      ensures r.None? <==> Debited(old(balance), amount).Ok?
      ensures balance == (if r.None? then Debited(old(balance), amount).value else old(balance))
      ensures version == old(version) + if balance != old(balance) then 1 else 0
    {
      if amount.minor < 0 {
        return Some(InvalidWallet);
      }
      var incompatible := Compatible(balance, amount);
      if incompatible.Some? {
        return Some(Arithmetic(incompatible.value));
      }
      if amount.minor == 0 {
        return None;
      }
      if balance.minor < amount.minor {
        return Some(InsufficientFunds);
      }
      match Sub(balance, amount)
      case Err(e) => return Some(Arithmetic(e));
      case Ok(next) =>
        balance, version := next, version + 1;
        return None;
    }

    method Credit(amount: Money) returns (r: Option<WalletError>)
      requires Valid() && IsInt64(amount.minor)
      modifies this
      ensures Valid()
      ensures r.None? <==> Credited(old(balance), amount).Ok?
      ensures balance == (if r.None? then Credited(old(balance), amount).value else old(balance))
      ensures version == old(version) + if balance != old(balance) then 1 else 0
    {
      if amount.minor < 0 {
        return Some(InvalidWallet);
      }
      var incompatible := Compatible(balance, amount);
      if incompatible.Some? {
        return Some(Arithmetic(incompatible.value));
      }
      if amount.minor == 0 {
        return None;
      }
      match Add(balance, amount)
      case Err(e) => return Some(Arithmetic(e));
      case Ok(next) =>
        balance, version := next, version + 1;
        return None;
    }
  }

  /** wallet.New; the text form of a UUID is never empty. */
  method NewWallet(id: Id, player: string, opening: Money) returns (r: Outcome<WalletObject, WalletError>)
    requires IsInt64(opening.minor)
    ensures r.Ok? <==> player != "" && opening.minor >= 0 && opening.currency != ""
    ensures r.Ok? ==> fresh(r.value) && r.value.Valid() && r.value.balance == opening && r.value.version == 1
                      && r.value.id == id && r.value.player == player
    ensures r.Err? ==> r.error == InvalidWallet
  {
    if player == "" || opening.minor < 0 || opening.currency == "" {
      return Err(InvalidWallet);
    }
    var w := new WalletObject(id, player, opening);
    return Ok(w);
  }

  /** Debit and credit undo each other, and both refuse amounts the other could not have produced. */
  lemma CreditUndoesDebit(balance: Money, amount: Money)
    requires 0 <= balance.minor <= MAX_INT64 && IsInt64(amount.minor) && Debited(balance, amount).Ok?
    ensures Credited(Debited(balance, amount).value, amount) == Ok(balance)
    ensures 0 <= Debited(balance, amount).value.minor <= balance.minor
  {
    var left := Debited(balance, amount).value;
    assert left.minor + amount.minor == balance.minor;
    assert Credited(left, amount).value == Money(balance.minor, balance.currency);
  }

  // ---------------------------------------------------------------------
  // Wager transactions
  // ---------------------------------------------------------------------

  predicate ExternalKind(kind: Kind) {
    !kind.Opening?
  }

  predicate IsReversal(kind: Kind) {
    kind.Refund? || kind.Rollback?
  }

  predicate ValidAmount(kind: Kind, amount: Money) {
    amount.currency != "" && amount.minor >= 0 && if kind.Loss? then amount.minor == 0 else amount.minor > 0
  }

  /** The state machine of a transaction. */
  predicate MayMove(from: Status, to: Status) {
    || (from.Pending? && (to.Processed? || to.Rejected? || to.Failed? || to.PendingReference?))
    || (from.PendingReference? && (to.Processed? || to.Rejected?))
  }

  predicate Terminal(s: Status) {
    s.Processed? || s.Rejected? || s.Failed?
  }

  class TransactionObject {
    const kind: Kind
    const amount: Money
    var state: Status

    constructor (kind: Kind, amount: Money)
      ensures state == Pending && this.kind == kind && this.amount == amount
    {
      this.kind, this.amount, this.state := kind, amount, Pending;
    }

    /** Moves exactly when the state machine allows it. */
    method Transition(next: Status) returns (ok: bool)
      modifies this
      ensures ok <==> MayMove(old(state), next)
      ensures ok <==> if old(state) == Pending then next != Pending else old(state) == PendingReference && (next == Processed || next == Rejected)
      ensures state == if ok then next else old(state)
    {
      if state.Pending? {
        match next
        case Processed | Rejected | Failed | PendingReference =>
          state := next;
          return true;
        case Pending =>
      }
      if state.PendingReference? && (next.Processed? || next.Rejected?) {
        state := next;
        return true;
      }
      return false;
    }
  }

  /** wager.New: the external kinds, with an amount that suits the kind. */
  method NewTransaction(external: string, provider: string, kind: Kind, amount: Money) returns (r: Option<TransactionObject>)
    ensures r.Some? <==> external != "" && provider != "" && kind != Opening && amount.currency != ""
                         && if kind == Loss then amount.minor == 0 else amount.minor > 0
    ensures r.Some? ==> fresh(r.value) && r.value.state.Pending? && r.value.kind == kind && r.value.amount == amount
  {
    if external == "" || provider == "" || !ExternalKind(kind) || !ValidAmount(kind, amount) {
      return None;
    }
    var t := new TransactionObject(kind, amount);
    return Some(t);
  }

  /** No sequence of allowed moves leaves a terminal state, and none is longer than two. */
  lemma {:induction false} TransitionsAreShort(path: seq<Status>)
    requires forall i :: 0 < i < |path| ==> MayMove(path[i - 1], path[i])
    ensures |path| <= 3
    ensures forall i :: 0 <= i < |path| - 1 ==> !Terminal(path[i])
  {
    forall i | 0 <= i < |path| - 1
      ensures !Terminal(path[i])
    {
      assert MayMove(path[i + 1 - 1], path[i + 1]);
    }
    assert forall i :: 0 < i < |path| - 1 ==> path[i].PendingReference? by {
      forall i | 0 < i < |path| - 1
        ensures path[i].PendingReference?
      {
        assert MayMove(path[i - 1], path[i]);
      }
    }
    assert |path| > 3 ==> MayMove(path[2 - 1], path[2]);
  }

  // ---------------------------------------------------------------------
  // Ledger entries
  // ---------------------------------------------------------------------

  datatype EntryError = InvalidEntry | MixedCurrencies | InvalidBalance | EntryArithmetic(error: MoneyError)

  /** The entry equation. */
  predicate Balances(direction: Direction, value: int, before: int, after: int) {
    value > 0 && before >= 0 && after >= 0 && after == if direction.Credit? then before + value else before - value
  }

  /** A ledger entry is built exactly when its currencies agree and its equation holds. */
  function NewEntry(wallet: Id, tx: Id, direction: Direction, value: Money, before: Money, after: Money): (r: Outcome<Entry, EntryError>)
    requires IsInt64(value.minor) && IsInt64(before.minor) && IsInt64(after.minor)
    ensures r.Ok? <==> value.currency == before.currency == after.currency != "" && value.minor > 0 && before.minor >= 0 && after.minor >= 0
                       && after.minor - before.minor == if direction == Credit then value.minor else -value.minor
    ensures r.Ok? ==> r.value == Entry(wallet, tx, direction, value.minor, value.currency, before.minor, after.minor)
  {
    if value.minor <= 0 then Err(InvalidEntry)
    else if value.currency == "" || before.currency == "" || after.currency == ""
            || value.currency != before.currency || value.currency != after.currency then Err(MixedCurrencies)
    else if before.minor < 0 || after.minor < 0 then Err(InvalidBalance)
    else
      match if direction.Credit? then Add(before, value) else Sub(before, value)
      case Err(e) => Err(EntryArithmetic(e))
      case Ok(expected) =>
        if expected.minor != after.minor then Err(InvalidBalance)
        else Ok(Entry(wallet, tx, direction, value.minor, value.currency, before.minor, after.minor))
  }
}
