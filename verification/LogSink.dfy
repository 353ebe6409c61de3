/** AsyncLogSink as the source writes it: one method per critical section. */
module LogSinkClass {
  import opened Arithmetic
  import opened Wrappers
  import opened LogModel
  import opened LogLaws

  class AsyncLogSink {
    var pending: seq<Record>
    var pendingBytes: int
    var inFlight: bool
    var dropped: nat
    ghost var accepted: seq<Record>      // every record ever accepted
    ghost var served: seq<Record>        // those whose turn at the sink is over
    ghost var current: Option<Record>    // the one the worker is at

    function State(): Handoff
      reads this
    {
      Handoff(pending, pendingBytes, inFlight, dropped)
    }

    ghost function AtSink(): seq<Record>
      reads this
    {
      if current.Some? then [current.value] else []
    }

    /** The bounds hold, and every accepted record was served, is at the sink or is pending, in this order. */
    ghost predicate Valid()
      reads this
    {
      && Bounded(State())
      && served + AtSink() + pending == accepted
      && (inFlight <==> current.Some?)
    }

    constructor ()
      ensures Valid() && State() == EMPTY_HANDOFF && accepted == []
    {
      pending, pendingBytes, inFlight, dropped := [], 0, false, 0;
      accepted, served, current := [], [], None;
    }

    /** True when the caller goes on to notify the worker. */
    method Enqueue(level: LogLevel, line: string) returns (ok: bool)
      requires Valid()
      modifies this
      ensures Valid()
      ensures (State(), ok) == Offer(old(State()), Record(level, line))
      ensures accepted == (if ok then old(accepted) + [Record(level, line)] else old(accepted)) && served == old(served)
    {
      AcceptedIffItFits(State(), Record(level, line));
      if |pending| >= MAX_PENDING_LINES || |line| > MAX_PENDING_BYTES - Min(pendingBytes, MAX_PENDING_BYTES) {
        dropped := dropped + 1;
        return false;
      }
      pendingBytes := pendingBytes + |line|;
      pending := pending + [Record(level, line)];
      accepted := accepted + [Record(level, line)];
      return true;
    }

    /** The one worker's wait and take; None while there is nothing to do. */
    method TakeNext() returns (record: Option<Record>)
      requires Valid() && !inFlight
      modifies this
      ensures Valid() && accepted == old(accepted) && served == old(served) && current == record
      ensures old(pending) == [] ==> record == None && State() == old(State())
      ensures old(pending) != [] ==> record == Some(old(pending)[0]) && State() == Take(old(State()))
    {
      if pending == [] {
        return None;
      }
      record := Some(pending[0]);
      assert served + [pending[0]] + pending[1..] == served + pending;
      pendingBytes := pendingBytes - |pending[0].line|;
      pending := pending[1..];
      inFlight := true;
      current := record;
    }

    method CountFailure()
      modifies this`dropped
      ensures State() == old(State()).(dropped := old(dropped) + 1)
    {
      dropped := dropped + 1;
    }

    /** The record's turn is over; true when every flusher is notified. */
    method Finish() returns (drained: bool)
      requires Valid() && inFlight
      modifies this
      ensures Valid() && accepted == old(accepted) && served == old(served + AtSink())
      ensures (State(), drained) == Complete(old(State()))
      ensures drained <==> served == accepted
    {
      served, current := served + AtSink(), None;
      inFlight := false;
      return pending == [];
    }

    /** What flush waits for: every record accepted so far has been through the sink. */
    method MayReturn() returns (drained: bool)
      requires Valid()
      ensures drained <==> served == accepted
    {
      assert |accepted| == |served| + |AtSink()| + |pending|;
      return pending == [] && !inFlight;
    }

    /** One turn of the worker's loop; `fails` says for which records the sink throws. */
    method ServeOne(fails: Record -> bool) returns (record: Record)
      requires Valid() && !inFlight && pending != []
      modifies this
      ensures Valid() && !inFlight && accepted == old(accepted) && served == old(served) + [record]
      ensures record == old(pending)[0] && pending == old(pending)[1..]
      ensures dropped == old(dropped) + if fails(record) then 1 else 0
    {
      var taken := TakeNext();
      record := taken.value;
      if fails(record) {
        CountFailure();
      }
      var _ := Finish();
    }

    /** The worker's loop while nobody else gets in: it serves the queue in order and counts each failure. */
    method WorkOff(fails: Record -> bool) returns (attempted: seq<Record>)
      requires Valid() && !inFlight
      modifies this
      ensures Valid() && attempted == old(pending)
      ensures accepted == old(accepted) && served == accepted && Drained(State()) && pendingBytes == 0
      ensures dropped == old(dropped) + Failures(attempted, fails)
    {
      attempted := [];
      FailuresOfNone(fails);
      hide Failures, Bounded;
      while pending != []
        invariant Valid() && !inFlight && accepted == old(accepted)
        invariant attempted + pending == old(pending)
        invariant dropped == old(dropped) + Failures(attempted, fails)
        decreases |pending|
      {
        var record := ServeOne(fails);
        FailuresAppend(attempted, record, fails);
        attempted := attempted + [record];
      }
      NothingPending(State());
    }
  }

  lemma NothingPending(h: Handoff)
    requires Bounded(h) && h.pending == []
    ensures h.pendingBytes == 0
  {
  }

  function Failures(records: seq<Record>, fails: Record -> bool): nat {
    if records == [] then 0 else (if fails(records[0]) then 1 else 0) + Failures(records[1..], fails)
  }

  lemma FailuresOfNone(fails: Record -> bool)
    ensures Failures([], fails) == 0
  {
  }

  lemma {:induction false} FailuresAppend(records: seq<Record>, record: Record, fails: Record -> bool)
    ensures Failures(records + [record], fails) == Failures(records, fails) + if fails(record) then 1 else 0
    decreases |records|
  {
    if records == [] {
      assert records + [record] == [record];
    } else {
      FailuresAppend(records[1..], record, fails);
      assert (records + [record])[1..] == records[1..] + [record];
    }
  }
}
