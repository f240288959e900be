/** The claim-counter worker pool of the benchmark driver, one atomic step at a time (`cmd/bench/main.go`). */
module WorkPool {
  import opened Values

  type Error = string

  /** A worker about to read firstErr, to take the next index, to run the callback, or to report its error. */
  datatype Pc = Checking | Claiming | Running(index: nat) | Reporting(error: Error) | Done

  /** `started` lists the indices handed to the callback; `outcomes` what each call that returned gave. */
  datatype State = State(
    total: nat, next: nat, firstErr: Option<Error>, workers: seq<Pc>,
    started: seq<nat>, outcomes: map<nat, Option<Error>>)

  function Min(a: int, b: int): int {
    if a < b then a else b
  }

  function Start(total: nat, concurrency: nat): State {
    State(total, 0, None, seq(Min(total, concurrency), _ => Checking), [], map[])
  }

  predicate Enabled(s: State, w: nat) {
    w < |s.workers| && !s.workers[w].Done?
  }

  /** One step of worker `w`; `outcome` is what the callback returns if the step ends a call. */
  function Step(s: State, w: nat, outcome: Option<Error>): State
    requires Enabled(s, w)
  {
    match s.workers[w]
    case Checking => s.(workers := s.workers[w := if s.firstErr.Some? then Done else Claiming])
    case Claiming =>
      if s.next >= s.total then s.(next := s.next + 1, workers := s.workers[w := Done])
      else s.(next := s.next + 1, workers := s.workers[w := Running(s.next)], started := s.started + [s.next])
    case Running(index) =>
      s.(workers := s.workers[w := if outcome.Some? then Reporting(outcome.value) else Checking],
         outcomes := s.outcomes[index := outcome])
    case Reporting(error) =>
      s.(workers := s.workers[w := Done], firstErr := if s.firstErr.None? then Some(error) else s.firstErr)
  }

  /** A schedule names, at each step, the worker that moves and what its callback returns. */
  datatype Move = Move(worker: nat, outcome: Option<Error>)

  type Schedule = seq<Move>

  ghost predicate Possible(s: State, schedule: Schedule)
    decreases |schedule|, 0
  {
    schedule == []
    || (Possible(s, schedule[..|schedule| - 1])
        && Enabled(After(s, schedule[..|schedule| - 1]), schedule[|schedule| - 1].worker))
  }

  ghost function After(s: State, schedule: Schedule): State
    requires Possible(s, schedule)
    decreases |schedule|, 1
  {
    if schedule == [] then s
    else
      var move := schedule[|schedule| - 1];
      Step(After(s, schedule[..|schedule| - 1]), move.worker, move.outcome)
  }

  // Every index is claimed once, in order

  /** The calls made are the first indices, each still in one worker's hand or returned once. */
  ghost predicate Claims(s: State) {
    && s.started == seq(Min(s.next, s.total), i => i)
    && (forall i :: i in s.outcomes ==> i < Min(s.next, s.total))
    && (forall w :: 0 <= w < |s.workers| && s.workers[w].Running? ==>
          s.workers[w].index < Min(s.next, s.total) && s.workers[w].index !in s.outcomes)
    && (forall v, w :: 0 <= v < w < |s.workers| && s.workers[v].Running? ==> s.workers[v] != s.workers[w])
    && (forall i :: 0 <= i < Min(s.next, s.total) ==> i in s.outcomes || Running(i) in s.workers)
  }

  ghost predicate Returned(s: State, e: Error) {
    exists i :: i in s.outcomes && s.outcomes[i] == Some(e)
  }

  ghost predicate Reports(s: State) {
    exists w :: 0 <= w < |s.workers| && s.workers[w].Reporting?
  }

  /** The error kept, and every error on its way, came from a call; no error is lost; workers stop for a reason. */
  ghost predicate Errors(s: State) {
    && (s.firstErr.Some? ==> Returned(s, s.firstErr.value))
    && (forall w :: 0 <= w < |s.workers| && s.workers[w].Reporting? ==> Returned(s, s.workers[w].error))
    && ((exists i :: i in s.outcomes && s.outcomes[i].Some?) ==> s.firstErr.Some? || Reports(s))
    && (Done in s.workers ==> s.firstErr.Some? || s.next > s.total)
  }

  lemma InPlace(workers: seq<Pc>, w: nat, pc: Pc, other: Pc)
    requires w < |workers|
    ensures other in workers && other != workers[w] ==> other in workers[w := pc]
    ensures pc in workers[w := pc]
  {
    if other in workers && other != workers[w] {
      var v :| 0 <= v < |workers| && workers[v] == other;
      assert workers[w := pc][v] == other;
    }
    assert workers[w := pc][w] == pc;
  }

  lemma StepKeepsClaims(s: State, w: nat, outcome: Option<Error>)
    requires Claims(s) && Enabled(s, w)
    ensures Claims(Step(s, w, outcome))
  {
    var s' := Step(s, w, outcome);
    forall i | 0 <= i < Min(s'.next, s'.total) ensures i in s'.outcomes || Running(i) in s'.workers {
      InPlace(s.workers, w, s'.workers[w], Running(i));
    }
    if s.workers[w].Claiming? && s.next < s.total {
      assert s'.started == seq(Min(s'.next, s'.total), i => i);
    }
  }

  lemma StepKeepsErrors(s: State, w: nat, outcome: Option<Error>)
    requires Claims(s) && Errors(s) && Enabled(s, w)
    ensures Errors(Step(s, w, outcome))
  {
    var s' := Step(s, w, outcome);
    assert s'.workers[w] in s'.workers;
    InPlace(s.workers, w, s'.workers[w], Done);
    hide Min;
    forall e | Returned(s, e) ensures Returned(s', e) {
      var i :| i in s.outcomes && s.outcomes[i] == Some(e);
      assert i in s'.outcomes && s'.outcomes[i] == Some(e);
    }
    if s.workers[w].Running? {
      assert s.workers[w].index in s'.outcomes && s'.outcomes[s.workers[w].index] == outcome;
    }
    if Reports(s) {
      var v :| 0 <= v < |s.workers| && s.workers[v].Reporting?;
      assert v == w || s'.workers[v].Reporting?;
    }
  }

  lemma {:induction false} AlwaysClaims(total: nat, concurrency: nat, schedule: Schedule)
    requires Possible(Start(total, concurrency), schedule)
    ensures var s := After(Start(total, concurrency), schedule);
            && Claims(s) && Errors(s) && s.total == total && |s.workers| == Min(total, concurrency)
  {
    if schedule != [] {
      var front, move := schedule[..|schedule| - 1], schedule[|schedule| - 1];
      AlwaysClaims(total, concurrency, front);
      var before := After(Start(total, concurrency), front);
      hide Claims, Errors;
      StepKeepsClaims(before, move.worker, move.outcome);
      StepKeepsErrors(before, move.worker, move.outcome);
    }
  }

  /** Under every interleaving no index is run twice, and the indices run are a prefix of 0 .. total - 1. */
  lemma NoIndexTwice(total: nat, concurrency: nat, schedule: Schedule)
    requires Possible(Start(total, concurrency), schedule)
    ensures var s := After(Start(total, concurrency), schedule);
            |s.started| <= total && forall k :: 0 <= k < |s.started| ==> s.started[k] == k
  {
    AlwaysClaims(total, concurrency, schedule);
  }

  predicate Finished(s: State) {
    forall w :: 0 <= w < |s.workers| ==> s.workers[w].Done?
  }

  /** When all workers have stopped, no error means every index was run and succeeded. */
  lemma NilMeansAllRan(total: nat, concurrency: nat, schedule: Schedule)
    requires concurrency >= 1 && Possible(Start(total, concurrency), schedule)
    requires Finished(After(Start(total, concurrency), schedule))
    ensures var s := After(Start(total, concurrency), schedule);
            s.firstErr.None? <==> forall i :: 0 <= i < total ==> i in s.outcomes && s.outcomes[i] == None
  {
    AlwaysClaims(total, concurrency, schedule);
    var s := After(Start(total, concurrency), schedule);
    if s.firstErr.None? && total > 0 {
      assert s.workers[0] == Done && Done in s.workers;
    }
  }

  /** An error returned is one that some call gave. */
  lemma ErrorIsReturned(total: nat, concurrency: nat, schedule: Schedule)
    requires Possible(Start(total, concurrency), schedule)
    ensures var s := After(Start(total, concurrency), schedule);
            s.firstErr.Some? ==> exists i :: 0 <= i < total && i in s.outcomes && s.outcomes[i] == s.firstErr
  {
    AlwaysClaims(total, concurrency, schedule);
  }

  // What an error does

  /** How many workers have looked for an error, found none, and not yet taken an index. */
  function Claimers(workers: seq<Pc>): nat {
    if workers == [] then 0 else (if workers[0].Claiming? then 1 else 0) + Claimers(workers[1..])
  }

  lemma {:induction false} ClaimersUpdate(workers: seq<Pc>, w: nat, pc: Pc)
    requires w < |workers|
    ensures Claimers(workers[w := pc])
         == Claimers(workers) - (if workers[w].Claiming? then 1 else 0) + if pc.Claiming? then 1 else 0
  {
    if w == 0 {
      assert workers[0 := pc][1..] == workers[1..];
    } else {
      assert workers[w := pc][1..] == workers[1..][w - 1 := pc];
      ClaimersUpdate(workers[1..], w - 1, pc);
    }
  }

  /** The first error reported is kept. */
  lemma StepKeepsError(s: State, w: nat, outcome: Option<Error>)
    requires Enabled(s, w)
    ensures var s' := Step(s, w, outcome);
            && s'.firstErr == (if s.firstErr.None? && s.workers[w].Reporting? then Some(s.workers[w].error)
                               else s.firstErr)
            && (s.firstErr.Some? ==> |s'.started| + Claimers(s'.workers) <= |s.started| + Claimers(s.workers))
  {
    ClaimersUpdate(s.workers, w, Step(s, w, outcome).workers[w]);
    hide Claimers;
  }

  /**
   * Once an error is recorded it is the one that will be returned, and from then on at most those workers start one
   * more call each that had already looked for an error.
   */
  lemma {:induction false} ErrorStopsPool(s: State, schedule: Schedule)
    requires Possible(s, schedule) && s.firstErr.Some?
    ensures var end := After(s, schedule);
            end.firstErr == s.firstErr && |end.started| + Claimers(end.workers) <= |s.started| + Claimers(s.workers)
  {
    if schedule != [] {
      var front, move := schedule[..|schedule| - 1], schedule[|schedule| - 1];
      hide Step, Enabled, Claimers;
      ErrorStopsPool(s, front);
      StepKeepsError(After(s, front), move.worker, move.outcome);
    }
  }

  // The pool stops

  function Distance(pc: Pc): nat {
    match pc
    case Running(_) => 3
    case Checking => 2
    case Claiming => 1
    case Reporting(_) => 1
    case Done => 0
  }

  function Distances(workers: seq<Pc>): nat {
    if workers == [] then 0 else Distance(workers[0]) + Distances(workers[1..])
  }

  function Left(s: State): nat {
    3 * (if s.next < s.total then s.total - s.next else 0) + Distances(s.workers)
  }

  lemma {:induction false} DistancesUpdate(workers: seq<Pc>, w: nat, pc: Pc)
    requires w < |workers|
    ensures Distances(workers[w := pc]) == Distances(workers) - Distance(workers[w]) + Distance(pc)
  {
    if w == 0 {
      assert workers[0 := pc][1..] == workers[1..];
    } else {
      assert workers[w := pc][1..] == workers[1..][w - 1 := pc];
      DistancesUpdate(workers[1..], w - 1, pc);
    }
  }

  lemma {:induction false} StartDistances(n: nat)
    ensures Distances(seq(n, _ => Checking)) == 2 * n
  {
    if n > 0 {
      assert seq(n, _ => Checking)[1..] == seq(n - 1, _ => Checking);
      StartDistances(n - 1);
    }
  }

  lemma StepNearer(s: State, w: nat, outcome: Option<Error>)
    requires Enabled(s, w)
    ensures Left(Step(s, w, outcome)) < Left(s)
    ensures Step(s, w, outcome).total == s.total && |Step(s, w, outcome).workers| == |s.workers|
  {
    DistancesUpdate(s.workers, w, Step(s, w, outcome).workers[w]);
    hide Distances;
  }

  lemma UnfinishedMoves(s: State)
    ensures Finished(s) <==> forall w: nat :: !Enabled(s, w)
  {
    if !Finished(s) {
      var w :| 0 <= w < |s.workers| && !s.workers[w].Done?;
      assert Enabled(s, w);
    }
  }

  /** Every step of any worker brings the end nearer, and until then some worker can step: no run goes on or hangs. */
  lemma {:induction false} PoolStops(total: nat, concurrency: nat, schedule: Schedule)
    requires Possible(Start(total, concurrency), schedule)
    ensures var s := After(Start(total, concurrency), schedule);
            && |schedule| + Left(s) <= 3 * total + 2 * Min(total, concurrency)
            && (Finished(s) <==> forall w: nat :: !Enabled(s, w))
  {
    UnfinishedMoves(After(Start(total, concurrency), schedule));
    if schedule == [] {
      StartDistances(Min(total, concurrency));
    } else {
      var front, move := schedule[..|schedule| - 1], schedule[|schedule| - 1];
      hide Left, Step, Finished, Enabled;
      PoolStops(total, concurrency, front);
      StepNearer(After(Start(total, concurrency), front), move.worker, move.outcome);
    }
  }
}
