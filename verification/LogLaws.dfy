/** What the diagnostic hand-off keeps over every interleaving, and that flush comes back. */
module LogLaws {
  import opened LogModel

  // ---------------------------------------------------------------- the invariant

  predicate Bounded(h: Handoff) {
    && h.pendingBytes == TotalBytes(h.pending) <= MAX_PENDING_BYTES
    && |h.pending| <= MAX_PENDING_LINES
  }

  predicate Busy(worker: Worker) {
    worker.Writing? || worker.Throwing? || worker.Written?
  }

  /** Records whose turn at the sink is completely over. */
  function Processed(s: System): int {
    |s.log.attempted| - if s.shared.inFlight then 1 else 0
  }

  /** Every record offered is in exactly one account, in order. */
  predicate Accounted(s: System) {
    && s.log.attempted + s.shared.pending == s.log.accepted
    && s.log.writes == |s.log.accepted| + s.log.refused
    && |s.log.attempted| == |s.log.sunk| + s.log.failed + (if s.worker.Writing? then 1 else 0)
    && s.shared.dropped + (if s.worker.Throwing? then 1 else 0) == s.log.refused + s.log.failed
    && (s.worker.Writing? ==> s.log.attempted != [] && s.log.attempted[|s.log.attempted| - 1] == s.worker.record)
  }

  /** Nobody sleeps through work: a blocked worker with something to do is about to be notified. */
  predicate Awakened(s: System) {
    && (s.worker.Blocked? && s.shared.pending != [] ==> s.owed > 0)
    && (forall i | 0 <= i < |s.flushers| :: s.flushers[i].Waiting? ==> !Drained(s.shared))
  }

  /** A flush that came back has seen everything accepted before it was called processed. */
  predicate Flushed(s: System) {
    forall i | 0 <= i < |s.flushers| ::
      && s.flushers[i].mark <= |s.log.accepted|
      && (s.flushers[i].Back? ==> s.flushers[i].mark <= Processed(s))
  }

  predicate SystemOk(s: System) {
    && Bounded(s.shared) && Accounted(s) && Awakened(s) && Flushed(s)
    && (s.shared.inFlight <==> Busy(s.worker))
  }

  lemma {:induction false} TotalOfAppend(records: seq<Record>, record: Record)
    ensures TotalBytes(records + [record]) == TotalBytes(records) + |record.line|
    decreases |records|
  {
    if records == [] {
      assert records + [record] == [record];
    } else {
      TotalOfAppend(records[1..], record);
      assert (records + [record])[1..] == records[1..] + [record];
    }
  }

  /** Under the invariant the overflow-proof test in enqueue means: the line count and the byte sum fit. */
  lemma AcceptedIffItFits(h: Handoff, record: Record)
    requires Bounded(h)
    ensures var (h1, accepted) := Offer(h, record);
            && (accepted <==> |h.pending| + 1 <= 1024 && TotalBytes(h.pending + [record]) <= 1048576)
            && h1.pending == (if accepted then h.pending + [record] else h.pending)
            && h1.dropped == h.dropped + (if accepted then 0 else 1)
            && Bounded(h1)
  {
    TotalOfAppend(h.pending, record);
  }

  lemma ApplyKeepsOk(s: System, step: Step)
    requires SystemOk(s)
    ensures SystemOk(Apply(s, step))
  {
    if Enabled(s, step) {
      match step
      case Offering(record) => OfferingKeeps(s, record);
      case Checking => CheckingKeeps(s);
      case Finishing => FinishingKeeps(s);
      case Notifying =>
      case WorkerSpurious =>
      case SinkReturns(_) =>
      case Counting =>
      case Flushing =>
      case FlusherChecking(_) =>
      case FlusherSpurious(_) =>
    }
  }

  lemma OfferingKeeps(s: System, record: Record)
    requires SystemOk(s)
    ensures SystemOk(Apply(s, Offering(record)))
  {
    AcceptedIffItFits(s.shared, record);
    assert s.log.attempted + (s.shared.pending + [record]) == s.log.attempted + s.shared.pending + [record];
  }

  lemma CheckingKeeps(s: System)
    requires SystemOk(s) && s.worker.Awake?
    ensures SystemOk(Apply(s, Checking))
  {
    var pending := s.shared.pending;
    if pending != [] {
      assert s.log.attempted + [pending[0]] + pending[1..] == s.log.attempted + pending;
    }
  }

  lemma FinishingKeeps(s: System)
    requires SystemOk(s) && s.worker.Written?
    ensures SystemOk(Apply(s, Finishing))
  {
  }

  lemma {:induction false} RunKeepsOk(s: System, steps: seq<Step>)
    requires SystemOk(s)
    ensures SystemOk(Run(s, steps))
    decreases |steps|
  {
    hide SystemOk, Apply;
    if steps != [] {
      ApplyKeepsOk(s, steps[0]);
      RunKeepsOk(Apply(s, steps[0]), steps[1..]);
    }
  }

  lemma StartIsOk()
    ensures SystemOk(START)
  {
  }

  /** The invariant holds after every schedule. */
  lemma Reachable(steps: seq<Step>)
    ensures SystemOk(Run(START, steps))
  {
    hide SystemOk, Run;
    StartIsOk();
    RunKeepsOk(START, steps);
  }

  // ---------------------------------------------------------------- guarantees

  /** The queue is bounded in lines and bytes after every schedule, and the byte count is the true sum. */
  lemma HandoffIsBounded(steps: seq<Step>)
    ensures var h := Run(START, steps).shared;
            && |h.pending| <= 1024
            && h.pendingBytes == TotalBytes(h.pending) <= 1048576
  {
    hide Run;
    Reachable(steps);
  }

  /**
   * Nothing is lost uncounted: writes = delivered + sink-failed + pending + in the sink + refused, and
   * whenever the sink is not just throwing, dropped = refused + sink-failed.
   */
  lemma EveryWriteIsAccounted(steps: seq<Step>)
    ensures var s := Run(START, steps);
            && s.log.writes == |s.log.sunk| + s.log.failed + |s.shared.pending|
                               + (if s.worker.Writing? then 1 else 0) + s.log.refused
            && (!s.worker.Throwing? ==> s.shared.dropped == s.log.refused + s.log.failed)
  {
    hide Run;
    Reachable(steps);
  }

  /** Records are handed to the sink in the order they were accepted, each once. */
  lemma SinkSeesAcceptanceOrder(steps: seq<Step>)
    ensures var s := Run(START, steps); s.log.attempted + s.shared.pending == s.log.accepted
  {
    hide Run;
    Reachable(steps);
  }

  /** A flush that returned: everything accepted before the call has been through the sink. */
  lemma FlushWaitsForAll(steps: seq<Step>, id: nat)
    requires id < |Run(START, steps).flushers| && Run(START, steps).flushers[id].Back?
    ensures var s := Run(START, steps);
            var mark := s.flushers[id].mark;
            && mark <= |s.log.attempted| <= |s.log.accepted|
            && s.log.accepted[..mark] == s.log.attempted[..mark]
            && (s.shared.inFlight ==> mark < |s.log.attempted|)
  {
    hide Run;
    Reachable(steps);
  }

  // ---------------------------------------------------------------- no lost wake-up

  /** Steps of the hand-off itself: no new record, no new flush, no spurious wake-up. */
  predicate Advancing(s: System, step: Step) {
    Enabled(s, step) && !step.Offering? && !step.Flushing? && !step.WorkerSpurious? && !step.FlusherSpurious?
  }

  function WokenCount(flushers: seq<Flusher>): (n: nat)
    ensures n <= |flushers|
  {
    if flushers == [] then 0 else (if flushers[0].Woken? then 1 else 0) + WokenCount(flushers[1..])
  }

  function WorkerWeight(worker: Worker, flushers: nat): nat {
    match worker
    case Blocked => 0
    case Awake => 1
    case Written => flushers + 2
    case Throwing => flushers + 3
    case Writing(_) => flushers + 4
  }

  /** An upper bound on how many steps the hand-off still has to make. */
  function Work(s: System): nat {
    (|s.flushers| + 5) * |s.shared.pending| + WorkerWeight(s.worker, |s.flushers|) + 2 * s.owed + WokenCount(s.flushers)
  }

  lemma {:induction false} WokenUpdate(flushers: seq<Flusher>, id: nat, flusher: Flusher)
    requires id < |flushers| && flushers[id].Woken? && !flusher.Woken?
    ensures WokenCount(flushers[id := flusher]) + 1 == WokenCount(flushers)
    decreases |flushers|
  {
    var updated := flushers[id := flusher];
    if id == 0 {
      assert updated[1..] == flushers[1..];
    } else {
      WokenUpdate(flushers[1..], id - 1, flusher);
      assert updated[1..] == flushers[1..][id - 1 := flusher];
    }
  }

  lemma AdvancingWorks(s: System, step: Step)
    requires Advancing(s, step)
    ensures Work(Apply(s, step)) < Work(s)
  {
    match step
    case FlusherChecking(id) => WokenUpdate(s.flushers, id, Look(s.shared, s.flushers[id].mark));
    case Checking =>
      if s.shared.pending != [] {
        var f, n := |s.flushers| + 5, |s.shared.pending|;
        assert f * (n - 1) == f * n - f;
      }
    case _ =>
  }

  ghost predicate AllAdvancing(s: System, steps: seq<Step>)
    decreases |steps|
  {
    steps != [] ==> Advancing(s, steps[0]) && AllAdvancing(Apply(s, steps[0]), steps[1..])
  }

  lemma {:induction false} WorkBounds(s: System, steps: seq<Step>)
    requires AllAdvancing(s, steps)
    ensures |steps| + Work(Run(s, steps)) <= Work(s)
    decreases |steps|
  {
    hide Work, Apply;
    if steps != [] {
      AdvancingWorks(s, steps[0]);
      WorkBounds(Apply(s, steps[0]), steps[1..]);
    }
  }

  predicate AllBack(s: System) {
    forall i | 0 <= i < |s.flushers| :: s.flushers[i].Back?
  }

  /** When the hand-off cannot make a step, there is no work and nobody waits: no wake-up was lost. */
  lemma StuckMeansDone(s: System)
    requires SystemOk(s) && forall step :: !Advancing(s, step)
    ensures s.shared.pending == [] && !s.shared.inFlight && s.worker.Blocked? && AllBack(s)
  {
    assert !Advancing(s, Notifying) && !Advancing(s, Checking) && !Advancing(s, Counting) && !Advancing(s, Finishing);
    assert !Advancing(s, SinkReturns(true));
    forall i | 0 <= i < |s.flushers| ensures s.flushers[i].Back? {
      assert !Advancing(s, FlusherChecking(i));
    }
  }

  /**
   * flush comes back. From any reachable state, if nothing more is written and the sink keeps
   * returning or throwing, the hand-off stops after at most Work(s) steps, whatever their order; and
   * where it stops, every record has been through the sink and every flush has returned.
   */
  lemma FlushComesBack(before: seq<Step>, steps: seq<Step>)
    requires AllAdvancing(Run(START, before), steps)
    ensures var s, v := Run(START, before), Run(Run(START, before), steps);
            && |steps| <= Work(s)
            && ((forall step :: !Advancing(v, step)) ==> AllBack(v) && v.log.attempted == v.log.accepted && !v.shared.inFlight)
  {
    hide Run, Work, Advancing, AllAdvancing;
    var s := Run(START, before);
    var v := Run(s, steps);
    WorkBounds(s, steps);
    assert SystemOk(v) by {
      hide SystemOk;
      Reachable(before);
      RunKeepsOk(s, steps);
    }
    if forall step :: !Advancing(v, step) {
      StuckMeansDone(v);
    }
  }
}
