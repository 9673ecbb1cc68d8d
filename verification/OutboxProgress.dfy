/** What the publishers can still do: which rows may be claimed, how a crashed worker's row recovers, and which aggregates can be emptied. */
module OutboxProgress {
  import opened Prelude
  import opened Outbox
  import opened OutboxProofs

  // ---------------------------------------------------------------------
  // Claims
  // ---------------------------------------------------------------------

  /** Everything before row i in its aggregate is published. */
  ghost predicate Leading(rows: seq<Row>, i: nat) {
    && i < |rows|
    && forall k :: 0 <= k < |rows| && rows[k].aggregate == rows[i].aggregate && rows[k].ordering < rows[i].ordering ==> rows[k].status == Published
  }

  /** The time from which row i may be claimed: its next attempt, or the end of the lease it is claimed under. */
  function ReadyAt(row: Row, lease: int): int {
    if row.status == Claimed && row.claimedAt.Some? then row.claimedAt.value + lease else row.nextAttempt
  }

  /**
   In every reachable state the claim may take row i exactly when it leads its
   aggregate and either is PENDING and due or is CLAIMED under a lease that ran
   out; the workers' own state does not matter.
   */
  lemma ClaimExactly(max: nat, states: seq<State>, actions: seq<Action>, n: nat, i: nat, w: nat, now: int, lease: int, token: nat)
    requires max > 0 && Run(max, states, actions) && n < |states|
    ensures Enabled(states[n], ClaimRow(w, i, now, lease, token)) <==>
            && (w in states[n].workers ==> states[n].workers[w] == Idle) && token !in states[n].tokens
            && Leading(states[n].rows, i)
            && (states[n].rows[i].status == Pending || states[n].rows[i].status == Claimed) && ReadyAt(states[n].rows[i], lease) <= now
  {
    RunKeeps(max, states, actions, n);
    assert i < |states[n].rows| ==> RowOk(max, states[n].tokens, states[n].rows[i]);
  }

  // ---------------------------------------------------------------------
  // One round
  // ---------------------------------------------------------------------

  function PublishedRow(row: Row): Row {
    row.(status := Published, attempts := row.attempts + 1, claimedAt := None, token := None)
  }

  /** The steps of one undisturbed round on row i. */
  function Round(w: nat, i: nat, row: Row, now: int, lease: int, token: nat): seq<Action> {
    [ClaimRow(w, i, now, lease, token), Send(w), Deliver(MessageOf(row)), SendOk(w), Publish(w)]
  }

  /** Executing steps one after the other. */
  ghost predicate Leads(max: nat, s: State, actions: seq<Action>, s': State)
    decreases |actions|
  {
    if actions == [] then s' == s else Enabled(s, actions[0]) && Leads(max, Apply(max, s, actions[0]), actions[1..], s')
  }

  /** The state one round leaves: the row published, its message accepted, the worker idle again. */
  function AfterRound(s: State, w: nat, i: nat, token: nat): State
    requires i < |s.rows|
  {
    State(rows := s.rows[i := PublishedRow(s.rows[i])], workers := s.workers[w := Idle], wire := s.wire + {MessageOf(s.rows[i])},
          log := s.log + [MessageOf(s.rows[i])], tokens := s.tokens + {token})
  }

  /** The first four steps: the claimed row is on the broker and its worker knows. */
  function BeforeMark(s: State, w: nat, i: nat, now: int, token: nat): State
    requires i < |s.rows|
  {
    var rows := Claim(s.rows, i, now, token);
    State(rows := rows, workers := s.workers[w := Accepted(rows[i])], wire := s.wire + {MessageOf(s.rows[i])},
          log := s.log + [MessageOf(s.rows[i])], tokens := s.tokens + {token})
  }

  lemma RoundSends(max: nat, s: State, i: nat, w: nat, now: int, lease: int, token: nat)
    requires i < |s.rows| && Enabled(s, ClaimRow(w, i, now, lease, token))
    ensures var round := Round(w, i, s.rows[i], now, lease, token);
            var s1 := Apply(max, s, round[0]);
            Enabled(s1, round[1]) && (
              var s2 := Apply(max, s1, round[1]);
              Enabled(s2, round[2]) && (
                var s3 := Apply(max, s2, round[2]);
                Enabled(s3, round[3]) && Apply(max, s3, round[3]) == BeforeMark(s, w, i, now, token)))
  {
  }

  lemma RoundMarks(max: nat, s: State, i: nat, w: nat, now: int, token: nat)
    requires TableOk(s.rows) && i < |s.rows|
    ensures var s4 := BeforeMark(s, w, i, now, token); Enabled(s4, Publish(w)) && Apply(max, s4, Publish(w)) == AfterRound(s, w, i, token)
  {
    var s4 := BeforeMark(s, w, i, now, token);
    assert Enabled(s4, Publish(w));
    var marked := Apply(max, s4, Publish(w)).rows;
    forall k | 0 <= k < |s.rows|
      ensures marked[k] == AfterRound(s, w, i, token).rows[k]
    {
      assert k != i ==> s.rows[k].event != s.rows[i].event;
    }
  }

  lemma Chains(max: nat, s: State, a: Action, s1: State, actions: seq<Action>, s': State)
    requires Enabled(s, a) && s1 == Apply(max, s, a) && Leads(max, s1, actions, s')
    ensures Leads(max, s, [a] + actions, s')
  {
    assert ([a] + actions)[1..] == actions;
  }

  /** A round that is not disturbed publishes the row and touches no other. */
  lemma RoundPublishes(max: nat, s: State, i: nat, w: nat, now: int, lease: int, token: nat)
    requires Inv(max, s) && i < |s.rows| && Enabled(s, ClaimRow(w, i, now, lease, token))
    ensures Leads(max, s, Round(w, i, s.rows[i], now, lease, token), AfterRound(s, w, i, token))
  {
    hide Enabled, Apply, BeforeMark, AfterRound, Inv;
    var round, end := Round(w, i, s.rows[i], now, lease, token), AfterRound(s, w, i, token);
    RoundSends(max, s, i, w, now, lease, token);
    InvTable(max, s);
    RoundMarks(max, s, i, w, now, token);
    var s1 := Apply(max, s, round[0]);
    var s2 := Apply(max, s1, round[1]);
    var s3 := Apply(max, s2, round[2]);
    var s4 := Apply(max, s3, round[3]);
    assert Leads(max, end, [], end);
    Chains(max, s4, round[4], end, [], end);
    Chains(max, s3, round[3], s4, [round[4]] + [], end);
    Chains(max, s2, round[2], s3, [round[3]] + ([round[4]] + []), end);
    Chains(max, s1, round[1], s2, [round[2]] + ([round[3]] + ([round[4]] + [])), end);
    Chains(max, s, round[0], s1, [round[1]] + ([round[2]] + ([round[3]] + ([round[4]] + []))), end);
    assert round == [round[0]] + ([round[1]] + ([round[2]] + ([round[3]] + ([round[4]] + []))));
  }

  lemma InvTable(max: nat, s: State)
    requires Inv(max, s)
    ensures TableOk(s.rows)
  {
  }

  // ---------------------------------------------------------------------
  // Recovery
  // ---------------------------------------------------------------------

  lemma {:induction false} LeadsKeeps(max: nat, s: State, actions: seq<Action>, s': State)
    requires max > 0 && Inv(max, s) && Leads(max, s, actions, s')
    ensures Inv(max, s')
    decreases |actions|
  {
    if actions != [] {
      StepKeeps(max, s, actions[0]);
      LeadsKeeps(max, Apply(max, s, actions[0]), actions[1..], s');
    }
  }

  lemma {:induction false} LeadsOn(max: nat, s: State, a: seq<Action>, s1: State, b: seq<Action>, s2: State)
    requires Leads(max, s, a, s1) && Leads(max, s1, b, s2)
    ensures Leads(max, s, a + b, s2)
    decreases |a|
  {
    if a == [] {
      assert a + b == b;
    } else {
      LeadsOn(max, Apply(max, s, a[0]), a[1..], s1, b, s2);
      assert (a + b)[1..] == a[1..] + b;
    }
  }

  /** Numbers never run out. */
  lemma {:induction false} Unused(used: set<nat>) returns (n: nat)
    ensures forall x :: x in used ==> x < n
    decreases used
  {
    if used == {} {
      n := 0;
    } else {
      var x :| x in used;
      var m := Unused(used - {x});
      n := if x < m then m else x + 1;
      assert forall y :: y in used ==> y == x || y in used - {x};
    }
  }

  /**
   A row that leads its aggregate and did not fail, whatever its workers went
   through, is claimed at every time from which it is ready, and one undisturbed
   round publishes it without touching another row.
   */
  lemma RowRecovers(max: nat, states: seq<State>, actions: seq<Action>, n: nat, i: nat, now: int, lease: int) returns (round: seq<Action>, after: State)
    requires max > 0 && Run(max, states, actions) && n < |states| && Leading(states[n].rows, i)
    requires states[n].rows[i].status != Failed && states[n].rows[i].status != Published && ReadyAt(states[n].rows[i], lease) <= now
    ensures Leads(max, states[n], round, after) && after.rows == states[n].rows[i := PublishedRow(states[n].rows[i])]
    ensures after.log == states[n].log + [MessageOf(states[n].rows[i])]
  {
    RunKeeps(max, states, actions, n);
    round, after := Recovers(max, states[n], i, now, lease);
  }

  lemma Recovers(max: nat, s: State, i: nat, now: int, lease: int) returns (round: seq<Action>, after: State)
    requires max > 0 && Inv(max, s) && Leading(s.rows, i)
    requires s.rows[i].status != Failed && s.rows[i].status != Published && ReadyAt(s.rows[i], lease) <= now
    ensures Leads(max, s, round, after) && after.rows == s.rows[i := PublishedRow(s.rows[i])] && after.log == s.log + [MessageOf(s.rows[i])]
  {
    hide Leads, Round;
    var w := Unused(s.workers.Keys);
    var token := Unused(s.tokens);
    assert RowOk(max, s.tokens, s.rows[i]);
    assert Enabled(s, ClaimRow(w, i, now, lease, token));
    round, after := Round(w, i, s.rows[i], now, lease, token), AfterRound(s, w, i, token);
    RoundPublishes(max, s, i, w, now, lease, token);
  }

  // ---------------------------------------------------------------------
  // Emptying an aggregate
  // ---------------------------------------------------------------------

  ghost predicate Emptied(rows: seq<Row>, a: nat) {
    forall i :: 0 <= i < |rows| && rows[i].aggregate == a ==> rows[i].status == Published
  }

  ghost predicate Poisoned(rows: seq<Row>, a: nat) {
    exists i :: 0 <= i < |rows| && rows[i].aggregate == a && rows[i].status == Failed
  }

  /** The first unpublished row of an aggregate from position `from` on. */
  lemma FirstUnpublished(rows: seq<Row>, a: nat, from: nat) returns (i: nat)
    requires TableOk(rows) && from <= |rows| && forall k :: 0 <= k < from && rows[k].aggregate == a ==> rows[k].status == Published
    ensures from <= i <= |rows| && forall k :: 0 <= k < i && rows[k].aggregate == a ==> rows[k].status == Published
    ensures i < |rows| ==> rows[i].aggregate == a && rows[i].status != Published && Leading(rows, i)
    decreases |rows| - from
  {
    i := from;
    if from < |rows| && (rows[from].aggregate != a || rows[from].status == Published) {
      i := FirstUnpublished(rows, a, from + 1);
    }
  }

  lemma {:induction false} Empties(max: nat, s: State, a: nat, from: nat) returns (actions: seq<Action>, after: State)
    requires max > 0 && Inv(max, s) && !Poisoned(s.rows, a)
    requires from <= |s.rows| && forall k :: 0 <= k < from && s.rows[k].aggregate == a ==> s.rows[k].status == Published
    ensures Leads(max, s, actions, after) && Emptied(after.rows, a)
    decreases |s.rows| - from
  {
    hide Leads, Inv;
    InvTable(max, s);
    var i := FirstUnpublished(s.rows, a, from);
    if i == |s.rows| {
      actions, after := [], s;
      StandsStill(max, s);
    } else {
      var round, s1 := Recovers(max, s, i, ReadyAt(s.rows[i], 0), 0);
      LeadsKeeps(max, s, round, s1);
      assert !Poisoned(s1.rows, a);
      var rest, end := Empties(max, s1, a, i + 1);
      LeadsOn(max, s, round, s1, rest, end);
      actions, after := round + rest, end;
    }
  }

  lemma StandsStill(max: nat, s: State)
    ensures Leads(max, s, [], s)
  {
  }

  /** No statement touches a failed row, and none claims a row behind it. */
  lemma {:induction false} FailedForever(max: nat, s: State, actions: seq<Action>, s': State, i: nat)
    requires max > 0 && Inv(max, s) && Leads(max, s, actions, s') && i < |s.rows| && s.rows[i].status == Failed
    ensures i < |s'.rows| && s'.rows[i] == s.rows[i]
    ensures forall k :: i < k < |s'.rows| && s'.rows[k].aggregate == s.rows[i].aggregate ==> s'.rows[k].status == Pending && s'.rows[k].attempts == 0
    decreases |actions|
  {
    if actions == [] {
      forall k | i < k < |s.rows| && s.rows[k].aggregate == s.rows[i].aggregate
        ensures s.rows[k].status == Pending && s.rows[k].attempts == 0
      {
        assert RowOk(max, s.tokens, s.rows[k]);
      }
    } else {
      StepKeeps(max, s, actions[0]);
      FailedStays(max, s, actions[0], i);
      FailedForever(max, Apply(max, s, actions[0]), actions[1..], s', i);
    }
  }

  lemma FailedStays(max: nat, s: State, a: Action, i: nat)
    requires Enabled(s, a) && i < |s.rows| && s.rows[i].status == Failed
    ensures i < |Apply(max, s, a).rows| && Apply(max, s, a).rows[i] == s.rows[i]
  {
  }

  /**
   From a reachable state every row of an aggregate can still be published
   exactly when none of them has failed: one failed row blocks the rows behind
   it for good.
   */
  lemma EmptiesExactly(max: nat, states: seq<State>, actions: seq<Action>, n: nat, a: nat)
    requires max > 0 && Run(max, states, actions) && n < |states|
    ensures (exists more, after :: Leads(max, states[n], more, after) && Emptied(after.rows, a)) <==> !Poisoned(states[n].rows, a)
  {
    hide Leads;
    RunKeeps(max, states, actions, n);
    var s := states[n];
    if Poisoned(s.rows, a) {
      var i :| 0 <= i < |s.rows| && s.rows[i].aggregate == a && s.rows[i].status == Failed;
      forall more, after | Leads(max, s, more, after)
        ensures !Emptied(after.rows, a)
      {
        FailedForever(max, s, more, after, i);
      }
    } else {
      var more, after := Empties(max, s, a, 0);
    }
  }

  /** Steps from a state of a run make a longer run. */
  lemma {:induction false} LeadsIsRun(max: nat, states: seq<State>, actions: seq<Action>, more: seq<Action>, after: State) returns (longer: seq<State>)
    requires Run(max, states, actions) && Leads(max, states[|states| - 1], more, after)
    ensures Run(max, longer, actions + more) && states <= longer && longer[|longer| - 1] == after
    decreases |more|
  {
    if more == [] {
      longer := states;
      assert actions + more == actions;
    } else {
      var next := Apply(max, states[|states| - 1], more[0]);
      longer := LeadsIsRun(max, states + [next], actions + [more[0]], more[1..], after);
      assert actions + [more[0]] + more[1..] == actions + more;
    }
  }
}
