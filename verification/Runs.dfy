/** Runs, jobs, audit events and what the repositories keep about one run. */
module Runs {
  import opened Values
  import opened Engine
  import opened Backoff

  datatype RunStatus =
    | RunQueued
    | RunRunning
    | RunWaitingApproval
    | RunCompleted
    | RunFailed
    | RunDeadLetter

  datatype Trigger = Sync | Async

  datatype Run = Run(
    id: string,
    tenantID: string,
    workflowID: string,
    status: RunStatus,
    trigger: Trigger,
    attempt: int,
    maxAttempts: int,
    input: Fields,
    output: Value,
    error: string)

  datatype Job = Job(
    runID: string,
    tenantID: string,
    workflowID: string,
    attempt: int,
    maxAttempts: int,
    input: Fields)

  datatype Event =
    | RunQueuedEvent
    | RunStartedEvent
    | StepCompletedEvent(nodeID: string)
    | StepFailedEvent(nodeID: string)
    | StepWaitingEvent(nodeID: string)
    | RunCompletedEvent
    | RunFailedEvent
    | RunWaitingEvent
    | ApprovalResolvedEvent(nodeID: string)
    | RetryScheduledEvent(delay: int)
    | RunDeadLetteredEvent

  /** Everything keyed by one run: the run, its steps and pending record, and its audit events in order. */
  datatype Record = Record(run: Run, steps: seq<Step>, pending: Option<Pending>, log: seq<Event>)

  // Repository writes, each atomic in the source

  function CreateRun(run: Run): Record {
    Record(run, [], None, [])
  }

  function UpdateRun(rec: Record, run: Run): Record {
    rec.(run := run)
  }

  function CompleteRun(rec: Record, run: Run, steps: seq<Step>): Record {
    rec.(run := run, steps := steps, pending := None)
  }

  function SavePending(rec: Record, run: Run, steps: seq<Step>, pending: Pending): Record {
    rec.(run := run, steps := steps, pending := Some(pending))
  }

  function RecordEvent(rec: Record, e: Event): Record {
    rec.(log := rec.log + [e])
  }

  function MergeInput(base: Fields, extra: Fields): Fields {
    base + extra
  }

  lemma NothingMerges(input: Fields)
    ensures MergeInput(input, map[]) == input
  {}

  // The language of audit logs

  /**
   * Where a run stands, read off its audit log. `attempts` counts the attempts that jobs have started;
   * `byJob` tells a job's attempt from a synchronous or resumed one, which nothing retries.
   */
  datatype Phase =
    | Unborn
    | Ready(attempts: nat)
    | Active(attempts: nat, byJob: bool)
    | StepBroke(attempts: nat, byJob: bool)
    | StepParked(attempts: nat, byJob: bool)
    | Ended(attempts: nat)
    | Broke(attempts: nat, byJob: bool)
    | Parked(attempts: nat, byJob: bool)
    | Resolved(attempts: nat)
    | Buried(attempts: nat)
    | Illegal

  function Advance(p: Phase, e: Event): Phase {
    match (p, e)
    case (Unborn, RunQueuedEvent) => Ready(0)
    case (Unborn, RunStartedEvent) => Active(0, false)
    case (Ready(n), RunStartedEvent) => Active(n + 1, true)
    case (Active(n, j), StepCompletedEvent(_)) => Active(n, j)
    case (Active(n, j), StepFailedEvent(_)) => StepBroke(n, j)
    case (Active(n, j), StepWaitingEvent(_)) => StepParked(n, j)
    case (Active(n, j), RunCompletedEvent) => Ended(n)
    case (StepBroke(n, j), RunFailedEvent) => Broke(n, j)
    case (StepParked(n, j), RunWaitingEvent) => Parked(n, j)
    case (Broke(n, true), RetryScheduledEvent(delay)) =>
      if n < MAX_ATTEMPTS && delay == RetryDelay(BASE_BACKOFF, n) then Ready(n) else Illegal
    case (Broke(n, true), RunDeadLetteredEvent) => if n == MAX_ATTEMPTS then Buried(n) else Illegal
    case (Parked(n, _), ApprovalResolvedEvent(_)) => Resolved(n)
    case (Resolved(n), RunStartedEvent) => Active(n, false)
    case (Resolved(n), RunFailedEvent) => Broke(n, false)
    case _ => Illegal
  }

  function PhaseOf(log: seq<Event>): Phase {
    if log == [] then Unborn else Advance(PhaseOf(log[..|log| - 1]), log[|log| - 1])
  }

  /** `log` is a prefix of a log the protocol allows. */
  predicate Legal(log: seq<Event>) {
    PhaseOf(log) != Illegal
  }

  lemma PhaseAppend(log: seq<Event>, e: Event)
    ensures PhaseOf(log + [e]) == Advance(PhaseOf(log), e)
  {
    assert (log + [e])[..|log|] == log;
  }

  lemma {:induction false} LegalPrefix(log: seq<Event>, n: nat)
    requires Legal(log) && n <= |log|
    ensures Legal(log[..n])
  {
    if n < |log| {
      LegalPrefix(log[..|log| - 1], n);
      assert log[..|log| - 1][..n] == log[..n];
    } else {
      assert log[..n] == log;
    }
  }

  /** Nothing may follow a completion or a dead-lettering. */
  lemma NothingAfterTerminal(log: seq<Event>, i: nat)
    requires i < |log| - 1
    requires log[i].RunCompletedEvent? || log[i].RunDeadLetteredEvent?
    ensures !Legal(log)
  {
    assert log[..i + 2][..i + 1] == log[..i + 1];
    assert log[..i + 1][..i] == log[..i];
    assert PhaseOf(log[..i + 1]) == Advance(PhaseOf(log[..i]), log[i]);
    assert PhaseOf(log[..i + 2]) == Advance(PhaseOf(log[..i + 1]), log[i + 1]);
    if Legal(log) {
      LegalPrefix(log, i + 2);
    }
  }

  /** Where a run stands tells what was recorded last. */
  lemma PhaseLast(log: seq<Event>)
    ensures var p := PhaseOf(log);
            && (p.Ended? || p.Broke? || p.Parked? || p.Buried? || p.Ready? ==> log != [])
            && (p.Ended? ==> log[|log| - 1] == RunCompletedEvent)
            && (p.Broke? ==> log[|log| - 1] == RunFailedEvent)
            && (p.Parked? ==> log[|log| - 1] == RunWaitingEvent)
            && (p.Buried? ==> log[|log| - 1] == RunDeadLetteredEvent)
            && (p.Ready? ==> log[|log| - 1] == RunQueuedEvent || log[|log| - 1].RetryScheduledEvent?)
  {
    hide RetryDelay;
  }

  /** The delays of the scheduled retries, in order. */
  function Delays(log: seq<Event>): seq<int> {
    if log == [] then []
    else Delays(log[..|log| - 1]) +
         if log[|log| - 1].RetryScheduledEvent? then [log[|log| - 1].delay] else []
  }

  function Sum(s: seq<int>): int {
    if s == [] then 0 else Sum(s[..|s| - 1]) + s[|s| - 1]
  }

  /** How many retries lie behind a phase. */
  function RetriesBehind(p: Phase): nat {
    match p
    case Unborn | Illegal => 0
    case Ready(n) => n
    case _ => if p.attempts == 0 then 0 else p.attempts - 1
  }

  /** What a legal log says about attempts. */
  predicate PhaseInRange(p: Phase) {
    match p
    case Unborn => true
    case Ready(n) => n < MAX_ATTEMPTS
    case Active(n, j) => n <= MAX_ATTEMPTS && (j ==> n > 0)
    case StepBroke(n, j) => n <= MAX_ATTEMPTS && (j ==> n > 0)
    case StepParked(n, j) => n <= MAX_ATTEMPTS && (j ==> n > 0)
    case Broke(n, j) => n <= MAX_ATTEMPTS && (j ==> n > 0)
    case Parked(n, j) => n <= MAX_ATTEMPTS && (j ==> n > 0)
    case Illegal => false
    case _ => p.attempts <= MAX_ATTEMPTS
  }

  lemma {:induction false} LegalInRange(log: seq<Event>)
    requires Legal(log)
    ensures PhaseInRange(PhaseOf(log))
  {
    if log != [] {
      LegalPrefix(log, |log| - 1);
      LegalInRange(log[..|log| - 1]);
    }
  }

  /** One more event moves the count of retries as its phase says. */
  lemma RetriesAdvance(p: Phase, e: Event)
    requires PhaseInRange(p) && Advance(p, e) != Illegal
    ensures RetriesBehind(Advance(p, e)) == RetriesBehind(p) + (if e.RetryScheduledEvent? then 1 else 0)
    ensures e.RetryScheduledEvent? ==>
              p.Broke? && p.attempts == RetriesBehind(p) + 1 && e.delay == RetryDelay(BASE_BACKOFF, p.attempts)
  {}

  /** A legal log schedules fewer than three retries, the k-th after the k-th backoff. */
  lemma {:induction false} RetriesBounded(log: seq<Event>)
    requires Legal(log)
    ensures |Delays(log)| == RetriesBehind(PhaseOf(log)) < MAX_ATTEMPTS
    ensures forall k :: 0 <= k < |Delays(log)| ==> Delays(log)[k] == RetryDelay(BASE_BACKOFF, k + 1)
  {
    LegalInRange(log);
    if log != [] {
      var k := |log| - 1;
      LegalPrefix(log, k);
      LegalInRange(log[..k]);
      RetriesBounded(log[..k]);
      hide Advance, PhaseInRange, RetryDelay;
      RetriesAdvance(PhaseOf(log[..k]), log[k]);
    }
  }

  /** The first `n` backoffs add up to base * (2^n - 1), as long as each is exact. */
  lemma {:induction false} BackoffTotal(delays: seq<int>)
    requires |delays| <= 38
    requires forall k :: 0 <= k < |delays| ==> delays[k] == RetryDelay(BASE_BACKOFF, k + 1)
    ensures Sum(delays) == BASE_BACKOFF * (Pow2(|delays|) - 1)
  {
    if delays != [] {
      hide RetryDelay;
      var n := |delays|;
      BackoffTotal(delays[..n - 1]);
      DelayExact(n);
    }
  }
}
