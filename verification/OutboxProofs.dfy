/** Every run of the outbox publishers keeps the order of each aggregate. */
module OutboxProofs {
  import opened Prelude
  import opened Outbox

  // ---------------------------------------------------------------------
  // How the table may change
  // ---------------------------------------------------------------------

  /** Rows keep their identity, their claims count up, and published rows stay published. */
  ghost predicate Evolves(rows: seq<Row>, rows': seq<Row>) {
    && |rows| <= |rows'|
    && forall i :: 0 <= i < |rows| ==>
        && SameEvent(rows'[i], rows[i]) && rows[i].attempts <= rows'[i].attempts
        && (rows[i].status.Published? ==> rows'[i].status.Published?)
  }

  lemma {:induction false} EventsOfSame(rows: seq<Row>, rows': seq<Row>, a: nat)
    requires |rows| == |rows'| && forall i :: 0 <= i < |rows| ==> SameEvent(rows'[i], rows[i])
    ensures EventsOf(rows', a) == EventsOf(rows, a)
  {
    if rows != [] {
      EventsOfSame(rows[..|rows| - 1], rows'[..|rows| - 1], a);
      assert SameEvent(rows'[|rows| - 1], rows[|rows| - 1]);
    }
  }

  lemma {:induction false} EventsOfPrefix(rows: seq<Row>, k: nat, a: nat)
    requires k <= |rows|
    ensures EventsOf(rows[..k], a) <= EventsOf(rows, a)
  {
    if k < |rows| {
      EventsOfPrefix(rows[..|rows| - 1], k, a);
      assert rows[..|rows| - 1][..k] == rows[..k];
    } else {
      assert rows[..k] == rows;
    }
  }

  lemma EventsOfEvolves(rows: seq<Row>, rows': seq<Row>, a: nat)
    requires Evolves(rows, rows')
    ensures EventsOf(rows, a) <= EventsOf(rows', a)
  {
    EventsOfSame(rows, rows'[..|rows|], a);
    EventsOfPrefix(rows', |rows|, a);
  }

  lemma {:induction false} EventsOfMember(rows: seq<Row>, a: nat, e: nat) returns (i: nat)
    requires e in EventsOf(rows, a)
    ensures i < |rows| && rows[i].event == e && rows[i].aggregate == a
  {
    var n := |rows| - 1;
    if rows[n].aggregate == a && rows[n].event == e {
      i := n;
    } else {
      i := EventsOfMember(rows[..n], a, e);
    }
  }

  /** Row i sits in its aggregate's list right behind the rows before it. */
  lemma EventsOfPosition(rows: seq<Row>, i: nat)
    requires i < |rows|
    ensures var a := rows[i].aggregate; var before := EventsOf(rows[..i], a);
            before + [rows[i].event] <= EventsOf(rows, a)
  {
    assert rows[..i + 1][..i] == rows[..i];
    EventsOfPrefix(rows, i + 1, rows[i].aggregate);
  }

  lemma {:induction false} EventsOfDistinct(rows: seq<Row>, a: nat, p: nat, q: nat)
    requires forall i, j :: 0 <= i < j < |rows| ==> rows[i].event != rows[j].event
    requires p < q < |EventsOf(rows, a)|
    ensures EventsOf(rows, a)[p] != EventsOf(rows, a)[q]
  {
    var n := |rows| - 1;
    var rest := EventsOf(rows[..n], a);
    if q < |rest| {
      EventsOfDistinct(rows[..n], a, p, q);
    } else {
      var i := EventsOfMember(rows[..n], a, rest[p]);
    }
  }

  lemma {:induction false} FirstSeenMember(log: seq<Message>, a: nat, k: nat)
    requires k < |log| && log[k].group == a
    ensures log[k].deduplication in FirstSeen(log, a)
  {
    if k < |log| - 1 {
      FirstSeenMember(log[..|log| - 1], a, k);
    }
  }

  // ---------------------------------------------------------------------
  // What carries over when the table evolves
  // ---------------------------------------------------------------------

  /** The part of the invariant that is about the table alone. */
  ghost predicate TableInv(max: nat, rows: seq<Row>, tokens: set<nat>) {
    && TableOk(rows) && InOrder(rows) && (forall i :: 0 <= i < |rows| ==> RowOk(max, tokens, rows[i]))
  }

  lemma InsertTable(max: nat, s: State, row: Row)
    requires max > 0 && TableInv(max, s.rows, s.tokens) && FreshRow(s.rows, row)
    ensures TableInv(max, s.rows + [row], s.tokens) && Evolves(s.rows, s.rows + [row])
  {
  }

  lemma ClaimTable(max: nat, s: State, i: nat, now: int, lease: int, token: nat)
    requires TableInv(max, s.rows, s.tokens) && i < |s.rows| && Eligible(s.rows, i, now, lease)
    ensures TableInv(max, Claim(s.rows, i, now, token), s.tokens + {token}) && Evolves(s.rows, Claim(s.rows, i, now, token))
  {
    var rows' := Claim(s.rows, i, now, token);
    forall p, q | 0 <= p < q < |rows'| && rows'[p].aggregate == rows'[q].aggregate && rows'[q].attempts > 0
      ensures rows'[p].status.Published?
    {
      if q == i {
        assert s.rows[p].ordering < s.rows[i].ordering;
      }
    }
  }

  lemma PublishTable(max: nat, s: State, event: nat, token: nat)
    requires TableInv(max, s.rows, s.tokens)
    ensures TableInv(max, MarkPublished(s.rows, event, token), s.tokens) && Evolves(s.rows, MarkPublished(s.rows, event, token))
  {
  }

  /** Retrying keeps the lifecycle because a worker that still owns the claim saw the current attempts. */
  lemma RetryTable(max: nat, s: State, record: Row, next: int)
    requires TableInv(max, s.rows, s.tokens) && record.token.Some? && exists i :: Backs(s.rows, i, record)
    ensures var rows' := MarkRetry(s.rows, record.event, record.token.value, record.attempts, next, max);
            TableInv(max, rows', s.tokens) && Evolves(s.rows, rows')
  {
    var rows' := MarkRetry(s.rows, record.event, record.token.value, record.attempts, next, max);
    var i :| Backs(s.rows, i, record);
    forall j | 0 <= j < |rows'|
      ensures RowOk(max, s.tokens, rows'[j])
    {
      if Owns(s.rows[j], record.event, record.token.value) {
        assert j == i;
      }
    }
  }

  /** A worker's record stays backed when the table evolves and its own claim is not touched. */
  lemma BacksEvolves(rows: seq<Row>, rows': seq<Row>, record: Row)
    requires Evolves(rows, rows') && exists i :: Backs(rows, i, record)
    requires forall i :: 0 <= i < |rows| && rows'[i].token == record.token ==> rows'[i] == rows[i]
    ensures exists i :: Backs(rows', i, record)
  {
    var i :| Backs(rows, i, record);
    assert Backs(rows', i, record);
  }

  lemma WorkersEvolve(s: State, s': State)
    requires Evolves(s.rows, s'.rows) && s.tokens <= s'.tokens && s'.log == s.log
    requires forall w :: w in s.workers ==> WorkerOk(s, s.workers[w])
    requires forall i :: 0 <= i < |s.rows| && s'.rows[i].token.Some? && s'.rows[i].token.value in s.tokens
               ==> s'.rows[i] == s.rows[i]
    ensures forall w :: w in s.workers ==> WorkerOk(s', s.workers[w])
  {
    forall w | w in s.workers && !s.workers[w].Idle?
      ensures WorkerOk(s', s.workers[w])
    {
      BacksEvolves(s.rows, s'.rows, s.workers[w].record);
    }
  }

  lemma WireEvolves(s: State, rows': seq<Row>)
    requires Evolves(s.rows, rows') && WireOk(s)
    requires forall i :: 0 <= i < |rows'| && rows'[i].status.Published? ==> MessageOf(rows'[i]) in s.log
    ensures WireOk(s.(rows := rows'))
  {
    forall m | m in s.wire
      ensures exists i :: Carries(rows', i, m)
    {
      var i :| Carries(s.rows, i, m);
      assert Carries(rows', i, m);
    }
  }

  lemma OrderEvolves(s: State, rows': seq<Row>)
    requires Evolves(s.rows, rows') && Ordered(s)
    ensures Ordered(s.(rows := rows'))
  {
    forall a
      ensures FirstSeen(s.log, a) <= EventsOf(rows', a)
    {
      EventsOfEvolves(s.rows, rows', a);
    }
  }

  // ---------------------------------------------------------------------
  // The broker's order
  // ---------------------------------------------------------------------

  /** Everything before a row that was ever claimed has already reached the broker. */
  lemma PredecessorsSeen(max: nat, s: State, i: nat, e: nat)
    requires TableInv(max, s.rows, s.tokens) && WireOk(s) && i < |s.rows| && s.rows[i].attempts > 0
    requires e in EventsOf(s.rows[..i], s.rows[i].aggregate)
    ensures e in FirstSeen(s.log, s.rows[i].aggregate)
  {
    var a := s.rows[i].aggregate;
    var j := EventsOfMember(s.rows[..i], a, e);
    assert s.rows[j].status.Published?;
    var k :| 0 <= k < |s.log| && s.log[k] == MessageOf(s.rows[j]);
    FirstSeenMember(s.log, a, k);
  }

  /** Delivering any message ever sent, however late, keeps the broker's view a prefix. */
  lemma DeliverKeepsOrder(max: nat, s: State, m: Message)
    requires TableInv(max, s.rows, s.tokens) && WireOk(s) && Ordered(s) && m in s.wire
    ensures Ordered(s.(log := s.log + [m]))
  {
    var log' := s.log + [m];
    assert log'[..|log'| - 1] == s.log;
    var i :| Carries(s.rows, i, m);
    forall a
      ensures FirstSeen(log', a) <= EventsOf(s.rows, a)
    {
      if m.group == a && m.deduplication !in FirstSeen(s.log, a) {
        ExtendsPrefix(max, s, i);
      }
    }
  }

  /** A first delivery of row i extends the broker's view by exactly the next event. */
  lemma ExtendsPrefix(max: nat, s: State, i: nat)
    requires TableInv(max, s.rows, s.tokens) && WireOk(s) && Ordered(s) && i < |s.rows| && s.rows[i].attempts > 0
    requires s.rows[i].event !in FirstSeen(s.log, s.rows[i].aggregate)
    ensures FirstSeen(s.log, s.rows[i].aggregate) + [s.rows[i].event] <= EventsOf(s.rows, s.rows[i].aggregate)
  {
    var a := s.rows[i].aggregate;
    var all, seen, before := EventsOf(s.rows, a), FirstSeen(s.log, a), EventsOf(s.rows[..i], a);
    EventsOfPosition(s.rows, i);
    var k := |before|;
    assert all[k] == s.rows[i].event;
    if |seen| < k {
      var e := before[|seen|];
      assert e == all[|seen|];
      PredecessorsSeen(max, s, i, e);
      var p :| 0 <= p < |seen| && seen[p] == e;
      assert seen[p] == all[p];
      EventsOfDistinct(s.rows, a, p, |seen|);
    }
  }

  // ---------------------------------------------------------------------
  // Every step keeps the invariant
  // ---------------------------------------------------------------------

  lemma InsertKeeps(max: nat, s: State, row: Row)
    requires max > 0 && Inv(max, s) && FreshRow(s.rows, row)
    ensures Inv(max, s.(rows := s.rows + [row]))
  {
    var s' := s.(rows := s.rows + [row]);
    InsertTable(max, s, row);
    WorkersEvolve(s, s');
    WireEvolves(s, s'.rows);
    OrderEvolves(s, s'.rows);
  }

  lemma ClaimKeeps(max: nat, s: State, a: Action)
    requires Inv(max, s) && a.ClaimRow? && Enabled(s, a)
    ensures Inv(max, Apply(max, s, a))
  {
    var s' := Apply(max, s, a);
    ClaimTable(max, s, a.at, a.now, a.lease, a.token);
    WorkersEvolve(s, s');
    WireEvolves(s, s'.rows);
    OrderEvolves(s, s'.rows);
    assert Backs(s'.rows, a.at, s'.rows[a.at]);
    assert WorkerOk(s', Holding(s'.rows[a.at]));
  }

  lemma PublishKeeps(max: nat, s: State, a: Action)
    requires Inv(max, s) && a.Publish? && Enabled(s, a)
    ensures Inv(max, Apply(max, s, a))
  {
    var s' := Apply(max, s, a);
    var record := s.workers[a.worker].record;
    PublishTable(max, s, record.event, record.token.value);
    WorkersEvolve(s, s');
    forall i | 0 <= i < |s'.rows| && s'.rows[i].status.Published?
      ensures MessageOf(s'.rows[i]) in s.log
    {
      if Owns(s.rows[i], record.event, record.token.value) {
        var j :| Backs(s.rows, j, record);
        assert i == j;
      }
    }
    WireEvolves(s, s'.rows);
    OrderEvolves(s, s'.rows);
  }

  lemma RetryKeeps(max: nat, s: State, a: Action)
    requires Inv(max, s) && a.Retry? && Enabled(s, a)
    ensures Inv(max, Apply(max, s, a))
  {
    var s' := Apply(max, s, a);
    RetryTable(max, s, s.workers[a.worker].record, a.next);
    WorkersEvolve(s, s');
    WireEvolves(s, s'.rows);
    OrderEvolves(s, s'.rows);
  }

  lemma SendKeeps(max: nat, s: State, a: Action)
    requires Inv(max, s) && a.Send? && Enabled(s, a)
    ensures Inv(max, Apply(max, s, a))
  {
    var s' := Apply(max, s, a);
    var record := s.workers[a.worker].record;
    var i :| Backs(s.rows, i, record);
    assert Carries(s'.rows, i, MessageOf(record));
    assert WorkerOk(s', Sending(record));
    forall w | w in s'.workers
      ensures WorkerOk(s', s'.workers[w])
    {
      assert w != a.worker ==> WorkerOk(s, s.workers[w]);
    }
    forall m | m in s'.wire
      ensures exists i :: Carries(s'.rows, i, m)
    {
      assert m in s.wire || m == MessageOf(record);
    }
  }

  lemma DeliverKeeps(max: nat, s: State, m: Message)
    requires Inv(max, s) && m in s.wire
    ensures Inv(max, s.(log := s.log + [m]))
  {
    var s' := s.(log := s.log + [m]);
    DeliverKeepsOrder(max, s, m);
    forall w | w in s'.workers
      ensures WorkerOk(s', s'.workers[w])
    {
      assert WorkerOk(s, s.workers[w]);
    }
  }

  /** Answers and crashes only move one worker. */
  lemma WorkerMoveKeeps(max: nat, s: State, w: nat, next: Worker)
    requires Inv(max, s) && w in s.workers && WorkerOk(s, next)
    ensures Inv(max, s.(workers := s.workers[w := next]))
  {
    var s' := s.(workers := s.workers[w := next]);
    forall v | v in s'.workers
      ensures WorkerOk(s', s'.workers[v])
    {
      assert v != w ==> WorkerOk(s, s.workers[v]);
      assert WorkerOk(s, next);
    }
  }

  lemma StepKeeps(max: nat, s: State, a: Action)
    requires max > 0 && Inv(max, s) && Enabled(s, a)
    ensures Inv(max, Apply(max, s, a))
  {
    match a
    case Insert(row) => InsertKeeps(max, s, row);
    case ClaimRow(_, _, _, _, _) => ClaimKeeps(max, s, a);
    case Send(_) => SendKeeps(max, s, a);
    case Deliver(m) => DeliverKeeps(max, s, m);
    case SendOk(w) => WorkerMoveKeeps(max, s, w, Accepted(s.workers[w].record));
    case SendError(w) => WorkerMoveKeeps(max, s, w, Refused(s.workers[w].record));
    case Publish(_) => PublishKeeps(max, s, a);
    case Retry(_, _) => RetryKeeps(max, s, a);
    case Crash(w) => WorkerMoveKeeps(max, s, w, Idle);
  }

  lemma {:induction false} RunKeeps(max: nat, states: seq<State>, actions: seq<Action>, n: nat)
    requires max > 0 && Run(max, states, actions) && n < |states|
    ensures Inv(max, states[n])
  {
    if n > 0 {
      RunKeeps(max, states, actions, n - 1);
      StepKeeps(max, states[n - 1], actions[n - 1]);
      assert states[n] == Apply(max, states[n - 1], actions[n - 1]);
    }
  }

  // ---------------------------------------------------------------------
  // Main results
  // ---------------------------------------------------------------------

  /**
   In every run, for every aggregate: the broker's log with repeats dropped is a
   prefix of the aggregate's rows in ordering order, and every repeat of an
   event carries the same message.
   */
  lemma BrokerOrder(max: nat, states: seq<State>, actions: seq<Action>, n: nat)
    requires max > 0 && Run(max, states, actions) && n < |states|
    ensures forall a :: FirstSeen(states[n].log, a) <= EventsOf(states[n].rows, a)
    ensures forall j, k | 0 <= j < |states[n].log| && 0 <= k < |states[n].log| ::
              states[n].log[j].deduplication == states[n].log[k].deduplication ==> states[n].log[j] == states[n].log[k]
  {
    RunKeeps(max, states, actions, n);
    var s := states[n];
    forall j, k | 0 <= j < |s.log| && 0 <= k < |s.log| && s.log[j].deduplication == s.log[k].deduplication
      ensures s.log[j] == s.log[k]
    {
      assert s.log[j] in s.wire && s.log[k] in s.wire;
      var p :| Carries(s.rows, p, s.log[j]);
      var q :| Carries(s.rows, q, s.log[k]);
      assert p == q;
    }
  }

  /** A row no worker has claimed yet. */
  predicate Untouched(r: Row) {
    r.status.Pending? && r.attempts == 0
  }

  /**
   In every run each aggregate's rows are a block of published rows, at most one
   row under way, and then untouched rows; a row waits below the maximum of
   attempts, and fails at or above it.
   */
  lemma AggregateShape(max: nat, states: seq<State>, actions: seq<Action>, n: nat, i: nat, j: nat)
    requires max > 0 && Run(max, states, actions) && n < |states|
    requires i < j < |states[n].rows| && states[n].rows[i].aggregate == states[n].rows[j].aggregate
    ensures states[n].rows[i].ordering < states[n].rows[j].ordering
    ensures states[n].rows[i].status.Published? || Untouched(states[n].rows[j])
  {
    RunKeeps(max, states, actions, n);
    assert RowOk(max, states[n].tokens, states[n].rows[j]);
  }

  /** A token and a claim time exactly while claimed; waiting below the maximum, failed at or above it. */
  lemma RowLifecycle(max: nat, states: seq<State>, actions: seq<Action>, n: nat, i: nat)
    requires max > 0 && Run(max, states, actions) && n < |states| && i < |states[n].rows|
    ensures var r := states[n].rows[i];
            && (r.status.Pending? ==> r.attempts < max)
            && (r.status.Failed? ==> r.attempts >= max)
            && (r.status.Published? ==> MessageOf(r) in states[n].log)
            && (r.status.Claimed? <==> r.token.Some?) && (r.status.Claimed? <==> r.claimedAt.Some?)
  {
    RunKeeps(max, states, actions, n);
    assert RowOk(max, states[n].tokens, states[n].rows[i]);
  }

  /** No row is claimed under a token. */
  ghost predicate Lost(s: State, token: nat) {
    token in s.tokens && forall i :: 0 <= i < |s.rows| ==> s.rows[i].token != Some(token)
  }

  /** Tokens are never reissued, so a claim that was taken over stays lost for the rest of the run. */
  lemma {:induction false} LostStaysLost(max: nat, states: seq<State>, actions: seq<Action>, n: nat, m: nat, token: nat)
    requires Run(max, states, actions) && n <= m < |states| && Lost(states[n], token)
    ensures Lost(states[m], token)
  {
    if n < m {
      LostStaysLost(max, states, actions, n, m - 1, token);
      assert Enabled(states[m - 1], actions[m - 1]) && states[m] == Apply(max, states[m - 1], actions[m - 1]);
    }
  }

  /**
   From the moment a worker's claim is lost, no step it can still take changes a
   row, whatever else runs in between.
   */
  lemma StaleHolderHarmless(max: nat, states: seq<State>, actions: seq<Action>, n: nat, m: nat, w: Worker, worker: nat)
    requires Run(max, states, actions) && n <= m < |actions|
    requires !w.Idle? && w.record.token.Some? && Lost(states[n], w.record.token.value)
    requires worker in states[m].workers && !states[m].workers[worker].Idle? && states[m].workers[worker].record == w.record
    requires actions[m].Publish? || actions[m].Retry?
    requires actions[m].worker == worker
    ensures states[m + 1].rows == states[m].rows
  {
    LostStaysLost(max, states, actions, n, m, w.record.token.value);
    assert Enabled(states[m], actions[m]) && states[m + 1] == Apply(max, states[m], actions[m]);
    assert forall i :: 0 <= i < |states[m].rows| ==> states[m + 1].rows[i] == states[m].rows[i];
  }
}
