/** The queue consumer (internal/transport/messaging/consumer.go): at-least-once delivery, deletion only after the commit. */
module Consumer {
  import opened Prelude
  import opened Tables
  import opened Engine
  import opened Backoff
  import opened Operations
  import opened AtomicRuns
  import opened Service

  /** A decoded message body. */
  datatype Decoded = Decoded(message: string, hash: string, cmd: Command)

  /** A received message: its receipt handle, how often it was received, and what decoding its body gave. */
  datatype Received = Received(handle: string, attempt: int, decoded: Option<Decoded>)

  /** The queue as the consumer can change it; a visibility of zero makes a message available at once. */
  class Queue {
    var present: set<string>
    var visibility: map<string, int>

    constructor (present: set<string>)
      ensures this.present == present && visibility == map[]
    {
      this.present, this.visibility := present, map[];
    }

    method Delete(handle: string, fails: bool) returns (ok: bool)
      modifies this`present
      ensures ok == !fails && present == if fails then old(present) else old(present) - {handle}
    {
      if !fails {
        present := present - {handle};
      }
      return !fails;
    }

    /** A failed call is logged at most; the message then stays hidden until its own timeout. */
    method ChangeVisibility(handle: string, seconds: int, fails: bool)
      modifies this`visibility
      ensures visibility == if fails then old(visibility) else old(visibility)[handle := seconds]
    {
      if !fails {
        visibility := visibility[handle := seconds];
      }
    }
  }

  /** The visibility retry asks for, in whole seconds; a positive delay is never rounded down to nothing. */
  function RetrySeconds(base: int, attempt: int, timeout: int): int {
    var delay := RetryDelay(base, attempt, timeout);
    if delay > 0 && delay / SECOND == 0 then 1 else delay / SECOND
  }

  /** A retried message always becomes visible again, and at the latest when its own timeout would have ended. */
  lemma RetrySecondsBounded(base: int, attempt: int, timeout: int)
    requires IsInt64(base) && IsInt64(timeout)
    ensures 0 <= RetrySeconds(base, attempt, timeout)
    ensures timeout >= 2 * SECOND ==> RetrySeconds(base, attempt, timeout) * SECOND <= timeout - SECOND
    ensures RetryDelay(base, attempt, timeout) > 0 ==> RetrySeconds(base, attempt, timeout) >= 1
  {
    RetryDelayBounded(base, attempt, timeout);
  }

  /**
   How long a failed message is hidden, in arithmetic alone: the backoff doubled
   for every earlier attempt, cut to 64 bits, capped one second below the
   timeout, in whole seconds but at least one.
   */
  function HiddenFor(backoff: int, attempt: int, timeout: int): int {
    var low := backoff * Pow2(if attempt < 1 then 0 else if attempt > 31 then 30 else attempt - 1) % 0x1_0000_0000_0000_0000;
    var cap := if timeout > 1_000_000_000 then timeout - 1_000_000_000 else 0;
    var delay := if backoff <= 0 then 0 else if low < 0x8000_0000_0000_0000 && low < cap then low else cap;
    if 0 < delay < 1_000_000_000 then 1 else delay / 1_000_000_000
  }

  lemma RetryHides(backoff: int, attempt: int, timeout: int)
    ensures RetrySeconds(backoff, attempt, timeout) == HiddenFor(backoff, attempt, timeout)
  {
    hide RetryDelay;
    RetryDelayAlways(backoff, attempt, timeout);
  }

  /** When the largest product fits, the hidden time is the doubled backoff or the cap, whichever is less. */
  lemma HiddenExactly(backoff: int, attempt: int, timeout: int)
    requires 0 <= backoff && backoff * 0x4000_0000 <= MAX_INT64 && 1 <= attempt
    ensures var cap := if timeout > 1_000_000_000 then timeout - 1_000_000_000 else 0;
            var exact := backoff * Pow2(if attempt > 31 then 30 else attempt - 1);
            var delay := if exact < cap then exact else cap;
            HiddenFor(backoff, attempt, timeout) == if 0 < delay < 1_000_000_000 then 1 else delay / 1_000_000_000
  {
    hide Pow2;
    Pow2Of30();
    FitsShift(backoff, attempt);
  }

  /** It never shrinks from one receipt to a later one, unless a product that wrapped falls below the cap. */
  lemma HiddenGrows(backoff: int, earlier: int, later: int, timeout: int)
    requires IsInt64(backoff) && IsInt64(timeout) && earlier <= later
    requires backoff <= 0 || NeverDrops(backoff, if timeout > 1_000_000_000 then timeout - 1_000_000_000 else 0)
    ensures HiddenFor(backoff, earlier, timeout) <= HiddenFor(backoff, later, timeout)
  {
    hide HiddenFor, RetryDelay, NeverDrops;
    RetryHides(backoff, earlier, timeout);
    RetryHides(backoff, later, timeout);
    RetryDelayMonotoneIff(backoff, timeout);
    assert RetryDelay(backoff, earlier, timeout) <= RetryDelay(backoff, later, timeout);
    RetryDelayBounded(backoff, earlier, timeout);
  }

  lemma FitsShift(backoff: int, attempt: int)
    requires 0 <= backoff && backoff * Pow2(30) <= MAX_INT64
    ensures 0 <= backoff * Pow2(ClampShift(attempt)) <= MAX_INT64
  {
    Pow2Monotone(ClampShift(attempt), 30);
    ScaleMonotone(backoff, Pow2(ClampShift(attempt)), Pow2(30));
    ScaleMonotone(backoff, 0, Pow2(ClampShift(attempt)));
  }

  predicate Typed(m: Received) {
    m.decoded.Some? ==> TypedMoney(m.decoded.value.cmd.amount)
  }

  /** The operation a message asks for; one without a handle or that cannot be decoded asks for none. */
  function Requested(name: string, now: int, m: Received): seq<Operation> {
    if m.handle == "" || m.decoded.None? then []
    else [Receives(InboxKey(name, m.decoded.value.message), m.decoded.value.hash, m.decoded.value.cmd, now)]
  }

  function RequestedAll(name: string, now: int, batch: seq<Received>): seq<Operation> {
    if batch == [] then [] else RequestedAll(name, now, batch[..|batch| - 1]) + Requested(name, now, batch[|batch| - 1])
  }

  /** The tables after one message. */
  function AfterMessage(db: Db, name: string, now: int, m: Received): Db
    requires Typed(m)
  {
    if m.handle == "" || m.decoded.None? then db
    else After(db, Receives(InboxKey(name, m.decoded.value.message), m.decoded.value.hash, m.decoded.value.cmd, now))
  }

  function AfterBatch(db: Db, name: string, now: int, batch: seq<Received>): Db
    requires forall i :: 0 <= i < |batch| ==> Typed(batch[i])
  {
    if batch == [] then db else AfterMessage(AfterBatch(db, name, now, batch[..|batch| - 1]), name, now, batch[|batch| - 1])
  }

  /** Handling a message commits its transaction. */
  predicate Commits(db: Db, name: string, now: int, m: Received)
    requires Typed(m)
  {
    && m.handle != "" && m.decoded.Some?
    && Message(db, InboxKey(name, m.decoded.value.message), m.decoded.value.hash, m.decoded.value.cmd, now).Ok?
  }

  /** The handles left in the queue after a batch: a handle goes exactly when its message commits and the deletion succeeds. */
  function LeftAfter(present: set<string>, db: Db, name: string, now: int, batch: seq<Received>, deleteFails: set<nat>): set<string>
    requires forall i :: 0 <= i < |batch| ==> Typed(batch[i])
  {
    if batch == [] then present
    else
      var n := |batch| - 1;
      var left := LeftAfter(present, db, name, now, batch[..n], deleteFails);
      if Commits(AfterBatch(db, name, now, batch[..n]), name, now, batch[n]) && n !in deleteFails then left - {batch[n].handle} else left
  }

  /** Handling a batch is a run of whole operations, so everything proved about such runs holds for it. */
  lemma {:induction false} BatchIsARun(db: Db, name: string, now: int, batch: seq<Received>)
    requires forall i :: 0 <= i < |batch| ==> Typed(batch[i])
    ensures var ops := RequestedAll(name, now, batch);
            (forall i :: 0 <= i < |ops| ==> TypedOperation(ops[i])) && AfterBatch(db, name, now, batch) == AfterAll(db, ops)
  {
    hide After, TypedMoney;
    if batch != [] {
      var n := |batch| - 1;
      BatchIsARun(db, name, now, batch[..n]);
      var ops, more := RequestedAll(name, now, batch[..n]), Requested(name, now, batch[n]);
      assert Typed(batch[n]);
      if more == [] {
        assert ops + more == ops;
      } else {
        assert (ops + more)[..|ops + more| - 1] == ops;
      }
    }
  }

  class MessageConsumer {
    const name: string
    const backoff: int
    const timeout: int
    const queue: Queue
    const service: FinancialService

    constructor (name: string, backoff: int, timeout: int, queue: Queue, service: FinancialService)
      ensures this.name == name && this.backoff == backoff && this.timeout == timeout && this.queue == queue && this.service == service
    {
      this.name, this.backoff, this.timeout, this.queue, this.service := name, backoff, timeout, queue, service;
    }

    /**
     handleMessage. The handle leaves the queue only if the transaction
     committed; a failed one is scheduled again, or released at once during a
     shutdown; a committed one that could not be deleted is released only then;
     and whatever calls to the queue fail, the tables are what ProcessMessage says.
     */
    method HandleMessage(m: Received, now: int, stopping: bool, deleteFails: bool, hideFails: bool) returns (committed: bool)
      requires Typed(m)
      modifies queue, service
      ensures committed <==> Commits(old(service.Contents()), name, now, m)
      ensures service.Contents() == AfterMessage(old(service.Contents()), name, now, m)
      ensures committed ==>
                var key := InboxKey(name, m.decoded.value.message);
                key in service.inbox && service.inbox[key] == InboxRow(m.decoded.value.hash, true)
      ensures queue.present == if committed && !deleteFails then old(queue.present) - {m.handle} else old(queue.present)
      ensures m.handle == "" || hideFails || (committed && !(deleteFails && stopping)) ==> queue.visibility == old(queue.visibility)
      ensures m.handle != "" && !hideFails && !committed ==>
                queue.visibility == old(queue.visibility)[m.handle :=
                  if m.decoded.Some? && stopping then 0 else HiddenFor(backoff, m.attempt, timeout)]
      ensures committed && !hideFails && deleteFails && stopping ==> queue.visibility == old(queue.visibility)[m.handle := 0]
    {
      var attempt := if m.attempt < 1 then 1 else m.attempt;
      RetryHides(backoff, attempt, timeout);
      if m.handle == "" {
        return false;
      }
      if m.decoded.None? {
        queue.ChangeVisibility(m.handle, RetrySeconds(backoff, attempt, timeout), hideFails);
        return false;
      }
      var d := m.decoded.value;
      var r := service.ProcessMessage(InboxKey(name, d.message), d.hash, d.cmd, now);
      if r.Err? {
        queue.ChangeVisibility(m.handle, if stopping then 0 else RetrySeconds(backoff, attempt, timeout), hideFails);
        return false;
      }
      var ok := queue.Delete(m.handle, deleteFails);
      if !ok && stopping {
        queue.ChangeVisibility(m.handle, 0, hideFails);
      }
      return true;
    }

    /**
     The batch of run: messages are handled one after the other until a shutdown
     is noticed before message `stop`, having come between two messages or
     during the last one; the rest are released and untouched. The tables are
     those of the handled messages in order.
     */
    method HandleBatch(batch: seq<Received>, stop: nat, during: bool, now: int, deleteFails: set<nat>, hideFails: set<nat>)
      requires forall i :: 0 <= i < |batch| ==> Typed(batch[i])
      modifies queue, service
      ensures var n := if stop < |batch| then stop else |batch|;
              && service.Contents() == AfterBatch(old(service.Contents()), name, now, batch[..n])
              && queue.present == LeftAfter(old(queue.present), old(service.Contents()), name, now, batch[..n], deleteFails)
              && (forall i :: n <= i < |batch| && batch[i].handle != "" && i !in hideFails ==> batch[i].handle in queue.visibility && queue.visibility[batch[i].handle] == 0)
    {
      hide Message, AfterMessage, Commits;
      var i := 0;
      while i < |batch| && i < stop
        invariant 0 <= i <= |batch| && i <= stop
        invariant service.Contents() == AfterBatch(old(service.Contents()), name, now, batch[..i])
        invariant queue.present == LeftAfter(old(queue.present), old(service.Contents()), name, now, batch[..i], deleteFails)
      {
        assert batch[..i + 1][..i] == batch[..i];
        var committed := HandleMessage(batch[i], now, during && i + 1 == stop, i in deleteFails, i in hideFails);
        i := i + 1;
      }
      var j := i;
      label Handled:
      while j < |batch|
        invariant i <= j <= |batch| && queue.present == old@Handled(queue.present) && service.Contents() == old@Handled(service.Contents())
        invariant forall k :: i <= k < j && batch[k].handle != "" && k !in hideFails ==> batch[k].handle in queue.visibility && queue.visibility[batch[k].handle] == 0
      {
        if batch[j].handle != "" {
          queue.ChangeVisibility(batch[j].handle, 0, j in hideFails);
        }
        j := j + 1;
      }
    }
  }
}
