/**
 The service and the publishers together: what the one commits is what the
 others may assume, and what the broker shows is what the service committed.
 */
module Feed {
  import opened Prelude
  import Tables
  import Invariants
  import Statements
  import Interleavings
  import RunTheorems
  import WalletTheorems
  import OutboxProofs
  import opened Outbox

  /** Wallets and transactions as the publishers see them: one number each. */
  function Number(a: Tables.Aggregate): nat {
    match a
    case WalletAggregate(w) => 2 * w
    case TxAggregate(t) => 2 * t + 1
  }

  /** Row number k of the outbox as it is inserted: pending, never attempted, under an event id of its own. */
  function InsertedRow(outbox: seq<Tables.Event>, k: nat, encode: Tables.Event -> Content): Row
    requires k < |outbox|
  {
    Row(k, outbox[k].ordering, Number(outbox[k].aggregate), encode(outbox[k]), Pending, 0, 0, None, None)
  }

  lemma NumbersDiffer(a: Tables.Aggregate, b: Tables.Aggregate)
    requires Number(a) == Number(b)
    ensures a == b
  {
  }

  /**
   In every state of every run of the service, however its transactions
   interleaved: when the publishers already have the first k rows, whatever they
   have done with them, the next committed event is a fresh row for them.
   */
  lemma CommittedEventsAreFresh(states: seq<Statements.State>, actions: seq<Statements.Action>, i: nat, k: nat, rows: seq<Row>, encode: Tables.Event -> Content)
    requires Statements.Runs(states, actions) && i < |states| && k < |states[i].db.outbox| && |rows| == k
    requires forall j :: 0 <= j < k ==> SameEvent(rows[j], InsertedRow(states[i].db.outbox, j, encode))
    ensures FreshRow(rows, InsertedRow(states[i].db.outbox, k, encode))
  {
    RunTheorems.EveryStateSound(states, actions, i);
    OrderedEventsAreFresh(states[i].db.outbox, states[i].db.nextOrdering, k, rows, encode);
  }

  lemma OrderedEventsAreFresh(outbox: seq<Tables.Event>, next: nat, k: nat, rows: seq<Row>, encode: Tables.Event -> Content)
    requires Invariants.OrderingInv(outbox, next) && k < |outbox| && |rows| == k
    requires forall j :: 0 <= j < k ==> SameEvent(rows[j], InsertedRow(outbox, j, encode))
    ensures FreshRow(rows, InsertedRow(outbox, k, encode))
  {
    var row := InsertedRow(outbox, k, encode);
    forall j | 0 <= j < |rows|
      ensures rows[j].event != row.event && (rows[j].aggregate == row.aggregate ==> rows[j].ordering < row.ordering)
    {
      assert SameEvent(rows[j], InsertedRow(outbox, j, encode));
      if rows[j].aggregate == row.aggregate {
        NumbersDiffer(outbox[j].aggregate, outbox[k].aggregate);
      }
    }
  }

  // ---------------------------------------------------------------------
  // Both machines at once
  // ---------------------------------------------------------------------

  datatype Both = Both(service: Statements.State, publishers: State)

  /** A step of the service, or one of the publishers and the network; rows are inserted by the service only. */
  datatype Move = Serve(serves: Statements.Action) | Publishes(publishes: Action)

  /** The publishers' table with a row for every committed event it does not have yet. */
  function Shown(rows: seq<Row>, outbox: seq<Tables.Event>, encode: Tables.Event -> Content): seq<Row>
    decreases |outbox| - |rows|
  {
    if |rows| >= |outbox| then rows else Shown(rows + [InsertedRow(outbox, |rows|, encode)], outbox, encode)
  }

  ghost predicate Moves(max: nat, encode: Tables.Event -> Content, s: Both, m: Move, s': Both) {
    match m
    case Serve(a) =>
      && Statements.Step(s.service, a, s'.service)
      && s'.publishers == s.publishers.(rows := Shown(s.publishers.rows, s'.service.db.outbox, encode))
    case Publishes(a) =>
      !a.Insert? && Enabled(s.publishers, a) && s'.publishers == Apply(max, s.publishers, a) && s'.service == s.service
  }

  ghost predicate RunsTogether(max: nat, encode: Tables.Event -> Content, states: seq<Both>, moves: seq<Move>) {
    && |states| == |moves| + 1 && states[0] == Both(Statements.Start, Start)
    && forall i :: 0 <= i < |moves| ==> Moves(max, encode, states[i], moves[i], states[i + 1])
  }

  /** Row for row, the publishers' table is the service's outbox. */
  ghost predicate Mirrors(rows: seq<Row>, outbox: seq<Tables.Event>, encode: Tables.Event -> Content) {
    |rows| <= |outbox| && forall j :: 0 <= j < |rows| ==> SameEvent(rows[j], InsertedRow(outbox, j, encode))
  }

  ghost predicate Together(max: nat, encode: Tables.Event -> Content, s: Both) {
    && Interleavings.MachineInv(s.service) && Inv(max, s.publishers)
    && |s.publishers.rows| == |s.service.db.outbox| && Mirrors(s.publishers.rows, s.service.db.outbox, encode)
  }

  lemma {:induction false} ShownKeeps(max: nat, s: State, outbox: seq<Tables.Event>, next: nat, encode: Tables.Event -> Content)
    requires max > 0 && Inv(max, s) && Invariants.OrderingInv(outbox, next) && Mirrors(s.rows, outbox, encode)
    ensures var rows' := Shown(s.rows, outbox, encode); Inv(max, s.(rows := rows')) && |rows'| == |outbox| && Mirrors(rows', outbox, encode)
    decreases |outbox| - |s.rows|
  {
    hide Inv;
    if |s.rows| < |outbox| {
      var row := InsertedRow(outbox, |s.rows|, encode);
      OrderedEventsAreFresh(outbox, next, |s.rows|, s.rows, encode);
      OutboxProofs.InsertKeeps(max, s, row);
      var s' := s.(rows := s.rows + [row]);
      ShownKeeps(max, s', outbox, next, encode);
      assert s'.(rows := Shown(s'.rows, outbox, encode)) == s.(rows := Shown(s.rows, outbox, encode));
    } else {
      assert s.(rows := s.rows) == s;
    }
  }

  lemma MirrorsLonger(rows: seq<Row>, outbox: seq<Tables.Event>, outbox': seq<Tables.Event>, encode: Tables.Event -> Content)
    requires Mirrors(rows, outbox, encode) && outbox <= outbox'
    ensures Mirrors(rows, outbox', encode)
  {
    forall j | 0 <= j < |rows|
      ensures SameEvent(rows[j], InsertedRow(outbox', j, encode))
    {
      assert SameEvent(rows[j], InsertedRow(outbox, j, encode)) && outbox'[j] == outbox[j];
    }
  }

  /** Publishers never add a row and never change what identifies one. */
  lemma PublishersKeepRows(max: nat, s: State, a: Action)
    requires Enabled(s, a) && !a.Insert?
    ensures var rows' := Apply(max, s, a).rows; |rows'| == |s.rows| && forall i :: 0 <= i < |s.rows| ==> SameEvent(rows'[i], s.rows[i])
  {
  }

  lemma OutboxSound(s: Statements.State)
    requires Interleavings.MachineInv(s)
    ensures Invariants.OrderingInv(s.db.outbox, s.db.nextOrdering) && Invariants.Inv(s.db)
  {
  }

  lemma ServeKeeps(max: nat, encode: Tables.Event -> Content, s: Both, a: Statements.Action, s': Both)
    requires max > 0 && Together(max, encode, s) && Moves(max, encode, s, Serve(a), s')
    ensures Together(max, encode, s')
  {
    hide Interleavings.MachineInv, Inv, Mirrors, Statements.Step, Invariants.Inv;
    Interleavings.StepKeeps(s.service, a, s'.service);
    RunTheorems.StepGrows(s.service, a, s'.service);
    OutboxSound(s'.service);
    MirrorsLonger(s.publishers.rows, s.service.db.outbox, s'.service.db.outbox, encode);
    ShownKeeps(max, s.publishers, s'.service.db.outbox, s'.service.db.nextOrdering, encode);
  }

  lemma PublishKeeps(max: nat, encode: Tables.Event -> Content, s: Both, a: Action, s': Both)
    requires max > 0 && Together(max, encode, s) && Moves(max, encode, s, Publishes(a), s')
    ensures Together(max, encode, s')
  {
    hide Interleavings.MachineInv, Inv, Apply, Enabled;
    OutboxProofs.StepKeeps(max, s.publishers, a);
    PublishersKeepRows(max, s.publishers, a);
    var outbox := s.service.db.outbox;
    forall j | 0 <= j < |s'.publishers.rows|
      ensures SameEvent(s'.publishers.rows[j], InsertedRow(outbox, j, encode))
    {
      assert SameEvent(s.publishers.rows[j], InsertedRow(outbox, j, encode)) && SameEvent(s'.publishers.rows[j], s.publishers.rows[j]);
    }
  }

  lemma {:induction false} TogetherAlways(max: nat, encode: Tables.Event -> Content, states: seq<Both>, moves: seq<Move>, n: nat)
    requires max > 0 && RunsTogether(max, encode, states, moves) && n < |states|
    ensures Together(max, encode, states[n])
  {
    hide Together, Moves;
    if n == 0 {
      StartTogether(max, encode);
    } else {
      TogetherAlways(max, encode, states, moves, n - 1);
      match moves[n - 1]
      case Serve(a) => ServeKeeps(max, encode, states[n - 1], a, states[n - 1 + 1]);
      case Publishes(a) => PublishKeeps(max, encode, states[n - 1], a, states[n - 1 + 1]);
    }
  }

  lemma StartTogether(max: nat, encode: Tables.Event -> Content)
    ensures Together(max, encode, Both(Statements.Start, Start))
  {
    hide Interleavings.MachineInv;
    Interleavings.StartOk();
  }

  // ---------------------------------------------------------------------
  // What the broker shows of an aggregate
  // ---------------------------------------------------------------------

  /** The rows of an aggregate name its committed events, in order. */
  lemma {:induction false} RowsNameEvents(rows: seq<Row>, outbox: seq<Tables.Event>, encode: Tables.Event -> Content, a: Tables.Aggregate)
    requires |rows| == |outbox| && Mirrors(rows, outbox, encode)
    ensures var ids, events := EventsOf(rows, Number(a)), Invariants.EventsFor(outbox, a);
            |ids| == |events| && forall p :: 0 <= p < |ids| ==> ids[p] < |outbox| && outbox[ids[p]] == events[p]
  {
    if rows != [] {
      var n := |rows| - 1;
      forall j | 0 <= j < n
        ensures SameEvent(rows[..n][j], InsertedRow(outbox[..n], j, encode))
      {
        assert SameEvent(rows[j], InsertedRow(outbox, j, encode));
      }
      RowsNameEvents(rows[..n], outbox[..n], encode, a);
      assert SameEvent(rows[n], InsertedRow(outbox, n, encode));
      if rows[n].aggregate == Number(a) {
        NumbersDiffer(outbox[n].aggregate, a);
      }
    }
  }

  /** The committed events that these ids name. */
  function Named(outbox: seq<Tables.Event>, ids: seq<nat>): seq<Tables.Event>
    requires forall p :: 0 <= p < |ids| ==> ids[p] < |outbox|
  {
    seq(|ids|, p requires 0 <= p < |ids| => outbox[ids[p]])
  }

  /** What reached the broker of an aggregate, repeats dropped, are the first of its committed events, each under its own content. */
  ghost predicate Shows(log: seq<Message>, outbox: seq<Tables.Event>, encode: Tables.Event -> Content, a: Tables.Aggregate) {
    var ids := FirstSeen(log, Number(a));
    && (forall p :: 0 <= p < |ids| ==> ids[p] < |outbox|) && Named(outbox, ids) <= Invariants.EventsFor(outbox, a)
    && (forall k :: 0 <= k < |log| && log[k].group == Number(a) ==>
          log[k].deduplication in ids && log[k].body.content == encode(outbox[log[k].deduplication]))
  }

  lemma LogContent(max: nat, s: State, outbox: seq<Tables.Event>, encode: Tables.Event -> Content, k: nat)
    requires Inv(max, s) && |s.rows| == |outbox| && Mirrors(s.rows, outbox, encode) && k < |s.log|
    ensures s.log[k].deduplication < |outbox| && s.log[k].body.content == encode(outbox[s.log[k].deduplication])
  {
    assert s.log[k] in s.wire;
    var i: nat :| Carries(s.rows, i, s.log[k]);
    assert SameEvent(s.rows[i], InsertedRow(outbox, i, encode));
  }

  lemma SeenIsOrdered(max: nat, s: State, a: nat)
    requires Inv(max, s)
    ensures FirstSeen(s.log, a) <= EventsOf(s.rows, a)
  {
  }

  /** In every state of every run of service, publishers and network together, and for every wallet and transaction. */
  lemma BrokerShowsCommitted(max: nat, encode: Tables.Event -> Content, states: seq<Both>, moves: seq<Move>, n: nat, a: Tables.Aggregate)
    requires max > 0 && RunsTogether(max, encode, states, moves) && n < |states|
    ensures Shows(states[n].publishers.log, states[n].service.db.outbox, encode, a)
  {
    hide Inv, Interleavings.MachineInv, RunsTogether;
    TogetherAlways(max, encode, states, moves, n);
    var s, outbox := states[n].publishers, states[n].service.db.outbox;
    SeenIsOrdered(max, s, Number(a));
    RowsNameEvents(s.rows, outbox, encode, a);
    forall k | 0 <= k < |s.log| && s.log[k].group == Number(a)
      ensures s.log[k].deduplication in FirstSeen(s.log, Number(a)) && s.log[k].body.content == encode(outbox[s.log[k].deduplication])
    {
      OutboxProofs.FirstSeenMember(s.log, Number(a), k);
      LogContent(max, s, outbox, encode, k);
    }
  }

  /**
   Whatever the service, the publishers and the network did: the balance events
   the broker shows of a wallet, repeats dropped, carry consecutive versions and
   each starts from the balance the one before it ended with.
   */
  lemma BrokerFollowsBalance(max: nat, encode: Tables.Event -> Content, states: seq<Both>, moves: seq<Move>, n: nat, w: Tables.Id)
    requires max > 0 && RunsTogether(max, encode, states, moves) && n < |states|
    ensures var outbox := states[n].service.db.outbox; var ids := FirstSeen(states[n].publishers.log, Number(Tables.WalletAggregate(w)));
            && Shows(states[n].publishers.log, outbox, encode, Tables.WalletAggregate(w))
            && WalletTheorems.BalanceChain(Named(outbox, ids))
  {
    hide Inv, Interleavings.MachineInv, RunsTogether, Invariants.Inv;
    BrokerShowsCommitted(max, encode, states, moves, n, Tables.WalletAggregate(w));
    TogetherAlways(max, encode, states, moves, n);
    OutboxSound(states[n].service);
    WalletChain(states[n].service.db, w);
  }

  lemma WalletChain(db: Tables.Db, w: Tables.Id)
    requires Invariants.Inv(db)
    ensures WalletTheorems.BalanceChain(Invariants.EventsFor(db.outbox, Tables.WalletAggregate(w)))
  {
    if w in db.wallets {
      WalletTheorems.BalanceEventsChain(db, w);
    }
  }
}
