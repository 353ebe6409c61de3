/**
 * The diagnostic hand-off as a state machine: callers, one worker and any number of flushers,
 * interleaved critical section by critical section and wake-up by wake-up.
 */
module LogModel {
  import opened Arithmetic

  datatype LogLevel = Trace | Debug | Info | Warn | Error | Off

  datatype Record = Record(level: LogLevel, line: string)

  const MAX_PENDING_LINES: nat := 1024
  const MAX_PENDING_BYTES: nat := 1024 * 1024

  // ---------------------------------------------------------------- under the queue mutex

  /** The shared fields. `pendingBytes` is an int here: that it never wraps below zero is proved. */
  datatype Handoff = Handoff(pending: seq<Record>, pendingBytes: int, inFlight: bool, dropped: nat)

  const EMPTY_HANDOFF := Handoff([], 0, false, 0)

  /** enqueue; true means accepted, and that a notification is owed. */
  function Offer(h: Handoff, record: Record): (Handoff, bool) {
    if |h.pending| >= MAX_PENDING_LINES || |record.line| > MAX_PENDING_BYTES - Min(h.pendingBytes, MAX_PENDING_BYTES) then
      (h.(dropped := h.dropped + 1), false)
    else (h.(pendingBytes := h.pendingBytes + |record.line|, pending := h.pending + [record]), true)
  }

  /** The worker takes the front record. */
  function Take(h: Handoff): Handoff
    requires h.pending != []
  {
    h.(pending := h.pending[1..], pendingBytes := h.pendingBytes - |h.pending[0].line|, inFlight := true)
  }

  /** The worker is done with its record; true means it notifies all flushers. */
  function Complete(h: Handoff): (Handoff, bool) {
    (h.(inFlight := false), h.pending == [])
  }

  /** What flush waits for. */
  predicate Drained(h: Handoff) {
    h.pending == [] && !h.inFlight
  }

  function TotalBytes(records: seq<Record>): nat {
    if records == [] then 0 else |records[0].line| + TotalBytes(records[1..])
  }

  // ---------------------------------------------------------------- threads

  datatype Worker =
    | Blocked                  // waiting for _changed
    | Awake                    // about to lock and look
    | Writing(record: Record)  // in the sink, lock released
    | Throwing                 // the sink threw; not counted yet
    | Written                  // about to lock and complete

  /** A call of flush; `mark` is how many records had been accepted when it was made. */
  datatype Flusher = Waiting(mark: nat) | Woken(mark: nat) | Back(mark: nat)

  /** Not in the program: what was offered, accepted, handed to the sink, and how that went. */
  datatype Log = Log(writes: nat, refused: nat, accepted: seq<Record>, attempted: seq<Record>, sunk: seq<Record>, failed: nat)

  /** `owed` counts callers that have unlocked but not yet notified. */
  datatype System = System(shared: Handoff, worker: Worker, owed: nat, flushers: seq<Flusher>, log: Log)

  const START := System(EMPTY_HANDOFF, Awake, 0, [], Log(0, 0, [], [], [], 0))

  datatype Step =
    | Offering(record: Record)
    | Notifying
    | WorkerSpurious
    | Checking
    | SinkReturns(ok: bool)
    | Counting
    | Finishing
    | Flushing
    | FlusherChecking(id: nat)
    | FlusherSpurious(id: nat)

  predicate Enabled(s: System, step: Step) {
    match step
    case Offering(_) => true
    case Notifying => s.owed > 0
    case WorkerSpurious => s.worker.Blocked?
    case Checking => s.worker.Awake?
    case SinkReturns(_) => s.worker.Writing?
    case Counting => s.worker.Throwing?
    case Finishing => s.worker.Written?
    case Flushing => true
    case FlusherChecking(id) => id < |s.flushers| && s.flushers[id].Woken?
    case FlusherSpurious(id) => id < |s.flushers| && s.flushers[id].Waiting?
  }

  function WakeAll(flushers: seq<Flusher>): (woken: seq<Flusher>)
    ensures |woken| == |flushers|
    ensures forall i | 0 <= i < |flushers| ::
              woken[i] == if flushers[i].Waiting? then Woken(flushers[i].mark) else flushers[i]
  {
    seq(|flushers|, i requires 0 <= i < |flushers| => if flushers[i].Waiting? then Woken(flushers[i].mark) else flushers[i])
  }

  /** `_drained.wait` evaluating its predicate with the lock held: return, or block in the same step. */
  function Look(h: Handoff, mark: nat): Flusher {
    if Drained(h) then Back(mark) else Waiting(mark)
  }

  function Apply(s: System, step: Step): System {
    if !Enabled(s, step) then s
    else
      match step
      case Offering(record) =>
        var (shared, accepted) := Offer(s.shared, record);
        var log := s.log.(writes := s.log.writes + 1);
        if accepted then s.(shared := shared, owed := s.owed + 1, log := log.(accepted := log.accepted + [record]))
        else s.(shared := shared, log := log.(refused := log.refused + 1))
      case Notifying =>
        s.(owed := s.owed - 1, worker := if s.worker.Blocked? then Awake else s.worker)
      case WorkerSpurious => s.(worker := Awake)
      case Checking =>
        if s.shared.pending == [] then s.(worker := Blocked)
        else
          var record := s.shared.pending[0];
          s.(shared := Take(s.shared), worker := Writing(record), log := s.log.(attempted := s.log.attempted + [record]))
      case SinkReturns(ok) =>
        if ok then s.(worker := Written, log := s.log.(sunk := s.log.sunk + [s.worker.record]))
        else s.(worker := Throwing, log := s.log.(failed := s.log.failed + 1))
      case Counting =>
        s.(worker := Written, shared := s.shared.(dropped := s.shared.dropped + 1))
      case Finishing =>
        var (shared, drained) := Complete(s.shared);
        s.(shared := shared, worker := Awake, flushers := if drained then WakeAll(s.flushers) else s.flushers)
      case Flushing =>
        s.(flushers := s.flushers + [Look(s.shared, |s.log.accepted|)])
      case FlusherChecking(id) =>
        s.(flushers := s.flushers[id := Look(s.shared, s.flushers[id].mark)])
      case FlusherSpurious(id) =>
        s.(flushers := s.flushers[id := Woken(s.flushers[id].mark)])
  }

  /** The state after a schedule: every interleaving is one. */
  function Run(s: System, steps: seq<Step>): System
    decreases |steps|
  {
    if steps == [] then s else Run(Apply(s, steps[0]), steps[1..])
  }
}
