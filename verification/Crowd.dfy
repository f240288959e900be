/** The interleavings the theorems quantify over include any number of workers at once. */
module Crowd {
  import opened Text
  import opened Values
  import opened Runs
  import opened Protocol
  import opened Singles
  import opened Sequential

  function Name(i: nat): string {
    seq(i, _ => 'r')
  }

  function JobOf(i: nat): Job {
    Job(Name(i), "t", "w", 0, 3, map[])
  }

  /** `n` workers have each just taken a job of another run, and there is no other job. */
  ghost predicate AtWork(s: System, n: nat) {
    && s.workflows == map["w" := StoredWorkflow("t", OneNode("llm"))] && s.capacity == 1 && s.channel == []
    && (forall a: nat :: a in s.agents <==> a < n)
    && (forall a :: a in s.agents ==> s.agents[a] == Holding(JobOf(a)))
    && (forall r :: r in s.db ==> |r| < n)
  }

  /** The runs in the workers' hands are different. */
  lemma NamesDiffer(a: nat, b: nat)
    ensures Name(a) == Name(b) ==> a == b
  {
    assert |Name(a)| == a && |Name(b)| == b;
  }

  function Start(n: nat): Action {
    StartAsync(n, Name(n), "t", "w", map[])
  }

  function Step(n: nat): Action {
    Move(n, Err(""), 0)
  }

  /** The next client starts a run ... */
  lemma Starts(s: System, n: nat, httpToolOK: Fields -> bool)
    requires AtWork(s, n)
    ensures Enabled(s, Start(n)) && Serial(s, Start(n))
    ensures var run := Run(Name(n), "t", "w", RunQueued, Async, 0, 3, map[], Null, "");
            Apply(s, Start(n), httpToolOK)
            == s.(db := s.db[Name(n) := CreateRun(run)], agents := s.agents[n := Created(JobOf(n))])
  {
    ShortNamesTrimmed();
    hide TrimSpace, OneNode;
    assert |Name(n)| == n;
  }

  /** ... records that, and sends its job ... */
  lemma Sends(s: System, n: nat, httpToolOK: Fields -> bool)
    requires n in s.agents && s.agents[n] == Created(JobOf(n)) && Name(n) in s.db
    requires |s.channel| < s.capacity
    ensures Enabled(s, Step(n)) && Serial(s, Step(n))
    ensures var s1 := Apply(s, Step(n), httpToolOK);
            && Enabled(s1, Step(n)) && Serial(s1, Step(n))
            && var s2 := Apply(s1, Step(n), httpToolOK);
               && s2 == s.(db := s2.db, agents := s2.agents, channel := s.channel + [JobOf(n)])
               && s2.db.Keys == s.db.Keys && s2.agents == s.agents - {n}
  {
    hide Name;
    var s1 := Apply(s, Step(n), httpToolOK);
    assert s1.agents == s.agents[n := Announced(JobOf(n))];
    assert s1.agents - {n} == s.agents - {n};
  }

  lemma TakesIt(s: System, n: nat, httpToolOK: Fields -> bool)
    requires n !in s.agents && s.channel == [JobOf(n)]
    ensures Enabled(s, Dequeue(n)) && Serial(s, Dequeue(n))
    ensures Apply(s, Dequeue(n), httpToolOK) == s.(channel := [], agents := s.agents[n := Holding(JobOf(n))])
  {
    assert s.channel[1..] == [];
  }

  lemma OneMoreAtWork(s: System, n: nat, httpToolOK: Fields -> bool) returns (s': System)
    requires AtWork(s, n) && Reachable(s, httpToolOK)
    ensures AtWork(s', n + 1) && Reachable(s', httpToolOK)
  {
    hide Apply, Enabled, Serial, Reachable, Name, OneNode;
    Starts(s, n, httpToolOK);
    ReachableNext(s, Start(n), httpToolOK);
    var s1 := Apply(s, Start(n), httpToolOK);
    Sends(s1, n, httpToolOK);
    ReachableNext(s1, Step(n), httpToolOK);
    ReachableNext(Apply(s1, Step(n), httpToolOK), Step(n), httpToolOK);
    var s2 := Apply(Apply(s1, Step(n), httpToolOK), Step(n), httpToolOK);
    assert s2.channel == [JobOf(n)];
    TakesIt(s2, n, httpToolOK);
    ReachableNext(s2, Dequeue(n), httpToolOK);
    s' := Apply(s2, Dequeue(n), httpToolOK);
    NameLength(n);
  }

  lemma NameLength(n: nat)
    ensures |Name(n)| == n
  {}

  lemma NoneAtWork(httpToolOK: Fields -> bool)
    ensures AtWork(OneNodeSystem("llm"), 0) && Reachable(OneNodeSystem("llm"), httpToolOK)
  {
    hide Apply, Enabled, Serial, OneNode;
    OneNodeStored("llm", httpToolOK);
    assert After(1, [], httpToolOK) == Some(Initial(1));
    ReachableNext(Initial(1), StoreOneNode("llm"), httpToolOK);
  }

  /** For every number there is a reachable state in which that many workers each hold the job of a run of its own. */
  lemma {:induction false} AnyNumberOfWorkers(n: nat, httpToolOK: Fields -> bool) returns (s: System)
    ensures AtWork(s, n) && Reachable(s, httpToolOK)
    ensures forall a, b :: a in s.agents && b in s.agents && RunOf(s.agents[a]) == RunOf(s.agents[b]) ==> a == b
  {
    if n == 0 {
      NoneAtWork(httpToolOK);
      s := OneNodeSystem("llm");
    } else {
      var before := AnyNumberOfWorkers(n - 1, httpToolOK);
      s := OneMoreAtWork(before, n - 1, httpToolOK);
    }
    hide Reachable, Name, OneNode;
    forall a, b | a in s.agents && b in s.agents && RunOf(s.agents[a]) == RunOf(s.agents[b]) ensures a == b {
      NamesDiffer(a, b);
    }
  }
}
