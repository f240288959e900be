/**
 * Execution requests handled one after another: look the key up, reserve quota, execute, store the run
 * (`internal/api/server.go`, `internal/executor/service.go`, `internal/tenant/controls.go`).
 */
module Idempotency {
  import opened Quota
  import opened Text
  import opened Values

  datatype Record = Record(fingerprint: string, runID: string, triggerMode: string)

  type Records = map<string, Record>

  function RecordKey(tenantID: string, key: string): string {
    tenantID + ":" + key
  }

  datatype Found = Absent | Mismatch | Present(record: Record)

  function Lookup(records: Records, tenantID: string, key: string, fingerprint: string): Found {
    var storageKey := RecordKey(tenantID, TrimSpace(key));
    if TrimSpace(key) == "" || storageKey !in records then Absent
    else if records[storageKey].fingerprint != fingerprint then Mismatch
    else Present(records[storageKey])
  }

  /** None when the key already belongs to another request. */
  function Store(records: Records, tenantID: string, key: string, record: Record): Option<Records> {
    var storageKey := RecordKey(tenantID, TrimSpace(key));
    if TrimSpace(key) == "" then Some(records)
    else if storageKey in records && records[storageKey].fingerprint != record.fingerprint then None
    else Some(records[storageKey := record])
  }

  /** What the executor does if it is asked to run: start a run, or fail, perhaps after storing one. */
  datatype Execution = Created(runID: string) | Broke(stored: Option<string>)

  datatype Request = Request(
    tenantID: string, key: string, fingerprint: string, mode: string, now: int, execution: Execution)

  datatype Reply =
    | Replayed(runID: string)
    | Started(runID: string)
    | Conflict
    | InvalidTenant
    | RateLimited
    | InvalidMode
    | ExecutionFailed

  /** The quotas, the idempotency records, and the tenant of every stored run. */
  datatype Front = Front(quotas: Quotas, records: Records, runs: map<string, string>)

  function ModeOf(q: Request): string {
    if TrimSpace(q.mode) == "" then "sync" else TrimSpace(q.mode)
  }

  function KeyOf(q: Request): string {
    TrimSpace(q.key)
  }

  predicate Readable(s: Front, tenantID: string, runID: string) {
    runID in s.runs && s.runs[runID] == tenantID
  }

  /** A record counts only while its run can be read by the tenant. */
  function Replay(s: Front, q: Request): Option<Reply> {
    match Lookup(s.records, q.tenantID, KeyOf(q), q.fingerprint)
    case Mismatch => Some(Conflict)
    case Present(record) => if Readable(s, q.tenantID, record.runID) then Some(Replayed(record.runID)) else None
    case Absent => None
  }

  function Execute(s: Front, q: Request): (Front, Reply) {
    if ModeOf(q) != "sync" && ModeOf(q) != "async" then (s, InvalidMode)
    else
      match q.execution
      case Broke(None) => (s, ExecutionFailed)
      case Broke(Some(id)) => (s.(runs := s.runs[id := q.tenantID]), ExecutionFailed)
      case Created(id) =>
        var created := s.(runs := s.runs[id := q.tenantID]);
        match Store(s.records, q.tenantID, KeyOf(q), Record(q.fingerprint, id, ModeOf(q)))
        case None => (created, Conflict)
        case Some(records) => (created.(records := records), Started(id))
  }

  predicate Reserves(s: Front, q: Request) {
    Replay(s, q).None? && TrimSpace(q.tenantID) != ""
  }

  function Handle(rule: Rule, s: Front, q: Request): (Front, Reply) {
    if Replay(s, q).Some? then (s, Replay(s, q).value)
    else if TrimSpace(q.tenantID) == "" then (s, InvalidTenant)
    else if !Admits(rule, BucketOf(s.quotas, q.tenantID), q.now) then (s, RateLimited)
    else Execute(s.(quotas := Charge(rule, s.quotas, Call(q.tenantID, q.now))), q)
  }

  function After(rule: Rule, s: Front, requests: seq<Request>): Front {
    if requests == [] then s
    else Handle(rule, After(rule, s, requests[..|requests| - 1]), requests[|requests| - 1]).0
  }

  const NOTHING: Front := Front(map[], map[], map[])

  // When two tenants share a record

  /** The second tenant's name continues the first's past a colon, and the first's key makes up for it. */
  ghost predicate Extends(tenantID: string, key: string, longer: string, rest: string) {
    exists middle :: ExtendsBy(tenantID, key, longer, rest, middle)
  }

  predicate ExtendsBy(tenantID: string, key: string, longer: string, rest: string, middle: string) {
    longer == tenantID + ":" + middle && key == middle + ":" + rest
  }

  lemma ExtendsFromLonger(t: string, k: string, u: string, l: string)
    requires RecordKey(t, k) == RecordKey(u, l) && |t| < |u|
    ensures Extends(t, k, u, l)
  {
    var storage, middle := RecordKey(t, k), u[|t| + 1..];
    assert storage[..|t|] == t && storage[|t|] == ':' && storage[|t| + 1..] == k;
    assert storage[..|u|] == u && storage[|u|] == ':' && storage[|u| + 1..] == l;
    assert u == storage[..|u|][..|t|] + [storage[..|u|][|t|]] + middle;
    assert u == t + ":" + middle;
    assert k == storage[|t| + 1..|u|] + [storage[|u|]] + storage[|u| + 1..];
    assert middle == storage[|t| + 1..|u|];
    assert ExtendsBy(t, k, u, l, middle);
  }

  /**
   * Two tenants' keys share a record exactly when they are the same, or one tenant's name extends the other's past
   * a colon.
   */
  lemma SharedRecordIff(t: string, k: string, u: string, l: string)
    ensures RecordKey(t, k) == RecordKey(u, l) <==> (t == u && k == l) || Extends(t, k, u, l) || Extends(u, l, t, k)
  {
    if RecordKey(t, k) == RecordKey(u, l) {
      var storage := RecordKey(t, k);
      if |t| < |u| {
        ExtendsFromLonger(t, k, u, l);
      } else if |u| < |t| {
        ExtendsFromLonger(u, l, t, k);
      } else {
        assert t == storage[..|t|] == u && k == storage[|t| + 1..] == l;
      }
    } else {
      ExtendsShares(t, k, u, l);
      ExtendsShares(u, l, t, k);
    }
  }

  lemma ExtendsShares(t: string, k: string, u: string, l: string)
    ensures Extends(t, k, u, l) ==> RecordKey(t, k) == RecordKey(u, l)
  {
    if Extends(t, k, u, l) {
      var middle :| ExtendsBy(t, k, u, l, middle);
      assert t + ":" + (middle + ":" + l) == (t + ":" + middle) + ":" + l;
    }
  }

  /** Tenants without a colon never share a record. */
  lemma ColonFreeApart(t: string, k: string, u: string, l: string)
    requires ':' !in t && ':' !in u && RecordKey(t, k) == RecordKey(u, l)
    ensures t == u && k == l
  {
    SharedRecordIff(t, k, u, l);
    ExtendsHasColon(t, k, u, l);
    ExtendsHasColon(u, l, t, k);
  }

  lemma ExtendsHasColon(t: string, k: string, u: string, l: string)
    ensures Extends(t, k, u, l) ==> ':' in u
  {
    if Extends(t, k, u, l) {
      var middle :| ExtendsBy(t, k, u, l, middle);
      assert u[|t|] == ':';
    }
  }

  /** A conflict is found before anything is done: storing the record of a new run never fails. */
  lemma ConflictChangesNothing(rule: Rule, s: Front, q: Request)
    requires Handle(rule, s, q).1 == Conflict
    ensures Handle(rule, s, q).0 == s
    ensures var storageKey := RecordKey(q.tenantID, TrimSpace(KeyOf(q)));
            storageKey in s.records && s.records[storageKey].fingerprint != q.fingerprint
  {
    hide TrimSpace, RecordKey, Charge, Admits;
  }

  // A key keeps its fingerprint

  lemma HandleKeepsFingerprint(rule: Rule, s: Front, q: Request, storageKey: string)
    requires storageKey in s.records
    ensures var s' := Handle(rule, s, q).0;
            storageKey in s'.records && s'.records[storageKey].fingerprint == s.records[storageKey].fingerprint
  {
    hide TrimSpace, RecordKey, Charge, Admits;
  }

  lemma {:induction false} FingerprintKept(rule: Rule, s: Front, requests: seq<Request>, storageKey: string)
    requires storageKey in s.records
    ensures var s' := After(rule, s, requests);
            storageKey in s'.records && s'.records[storageKey].fingerprint == s.records[storageKey].fingerprint
  {
    if requests != [] {
      var k := |requests| - 1;
      hide Handle;
      FingerprintKept(rule, s, requests[..k], storageKey);
      HandleKeepsFingerprint(rule, After(rule, s, requests[..k]), requests[k], storageKey);
    }
  }

  // Replays

  /** The request's key stands for this run, and the tenant can read it. */
  predicate Answered(s: Front, q: Request, runID: string) {
    var storageKey := RecordKey(q.tenantID, TrimSpace(KeyOf(q)));
    && TrimSpace(KeyOf(q)) != "" && storageKey in s.records
    && s.records[storageKey].fingerprint == q.fingerprint && s.records[storageKey].runID == runID
    && Readable(s, q.tenantID, runID)
  }

  /** The executor hands out new run identifiers. */
  predicate FreshRun(s: Front, q: Request) {
    match q.execution
    case Created(id) => id !in s.runs
    case Broke(Some(id)) => id !in s.runs
    case Broke(None) => true
  }

  ghost predicate FreshRuns(rule: Rule, s: Front, requests: seq<Request>) {
    forall i :: 0 <= i < |requests| ==> FreshRun(After(rule, s, requests[..i]), requests[i])
  }

  lemma FreshFront(rule: Rule, s: Front, requests: seq<Request>)
    requires FreshRuns(rule, s, requests) && requests != []
    ensures var front := requests[..|requests| - 1];
            FreshRuns(rule, s, front) && FreshRun(After(rule, s, front), requests[|requests| - 1])
  {
    var front := requests[..|requests| - 1];
    assert forall i :: 0 <= i < |front| ==> requests[..i] == front[..i];
  }

  /** If the other request uses the record of this one, it is of the same tenant. */
  predicate NotShared(q: Request, other: Request) {
    TrimSpace(other.tenantID) != "" && TrimSpace(KeyOf(other)) != ""
    && RecordKey(other.tenantID, TrimSpace(KeyOf(other))) == RecordKey(q.tenantID, TrimSpace(KeyOf(q)))
    ==> other.tenantID == q.tenantID
  }

  lemma StartedIsAnswered(rule: Rule, s: Front, q: Request)
    requires Handle(rule, s, q).1.Started? && TrimSpace(KeyOf(q)) != ""
    ensures Answered(Handle(rule, s, q).0, q, Handle(rule, s, q).1.runID)
  {
    hide TrimSpace;
  }

  lemma AnsweredStays(rule: Rule, s: Front, q: Request, runID: string, next: Request)
    requires Answered(s, q, runID) && FreshRun(s, next) && NotShared(q, next)
    ensures Answered(Handle(rule, s, next).0, q, runID)
  {
    hide TrimSpace, RecordKey, Admits, Charge;
  }

  lemma {:induction false} AnsweredForever(rule: Rule, s: Front, q: Request, runID: string, requests: seq<Request>)
    requires Answered(s, q, runID) && FreshRuns(rule, s, requests)
    requires forall i :: 0 <= i < |requests| ==> NotShared(q, requests[i])
    ensures Answered(After(rule, s, requests), q, runID)
  {
    if requests != [] {
      FreshFront(rule, s, requests);
      hide Answered, FreshRuns, FreshRun, NotShared, Handle;
      AnsweredForever(rule, s, q, runID, requests[..|requests| - 1]);
      AnsweredStays(rule, After(rule, s, requests[..|requests| - 1]), q, runID, requests[|requests| - 1]);
    }
  }

  /**
   * Once a request with a key has started a run, and however many requests follow, asking again with that key
   * returns the same run or, with another fingerprint, is refused; either way no run is created, no quota is
   * used and nothing else changes.
   */
  lemma ReplayedForever(rule: Rule, s: Front, q: Request, requests: seq<Request>, again: Request)
    requires Handle(rule, s, q).1.Started? && TrimSpace(KeyOf(q)) != ""
    requires FreshRuns(rule, Handle(rule, s, q).0, requests)
    requires forall i :: 0 <= i < |requests| ==> NotShared(q, requests[i])
    requires again.tenantID == q.tenantID && KeyOf(again) == KeyOf(q)
    ensures var end := After(rule, Handle(rule, s, q).0, requests);
            Handle(rule, end, again)
            == (end, if again.fingerprint == q.fingerprint then Replayed(Handle(rule, s, q).1.runID) else Conflict)
  {
    hide Handle, TrimSpace, RecordKey, After, FreshRuns, NotShared, FreshRun, Answered;
    var started := Handle(rule, s, q);
    StartedIsAnswered(rule, s, q);
    AnsweredForever(rule, started.0, q, started.1.runID, requests);
    AnsweredAgain(rule, After(rule, started.0, requests), q, started.1.runID, again);
  }

  lemma AnsweredAgain(rule: Rule, s: Front, q: Request, runID: string, again: Request)
    requires Answered(s, q, runID) && again.tenantID == q.tenantID && KeyOf(again) == KeyOf(q)
    ensures Handle(rule, s, again) == (s, if again.fingerprint == q.fingerprint then Replayed(runID) else Conflict)
  {
    hide TrimSpace, RecordKey;
  }

  predicate SameRequest(q: Request, again: Request) {
    again.tenantID == q.tenantID && KeyOf(again) == KeyOf(q) && again.fingerprint == q.fingerprint
  }

  /** If the request starts a run, the same request is answered with that run after those that follow. */
  ghost predicate ReplayedAfter(rule: Rule, s: Front, q: Request, requests: seq<Request>, again: Request) {
    Handle(rule, s, q).1.Started? && FreshRuns(rule, Handle(rule, s, q).0, requests) && SameRequest(q, again) ==>
      Handle(rule, After(rule, Handle(rule, s, q).0, requests), again)
      == (After(rule, Handle(rule, s, q).0, requests), Replayed(Handle(rule, s, q).1.runID))
  }

  /** Whatever those tenants ask for, the key replays. */
  ghost predicate AlwaysReplayed(rule: Rule, tenants: iset<string>, tenantID: string, key: string) {
    forall s: Front, q: Request, requests: seq<Request>, again: Request ::
      q.tenantID == tenantID && KeyOf(q) == key && (forall i :: 0 <= i < |requests| ==> requests[i].tenantID in tenants)
      ==> ReplayedAfter(rule, s, q, requests, again)
  }

  /** No key of another of those tenants stands for the same record. */
  ghost predicate Unshared(tenants: iset<string>, tenantID: string, key: string) {
    forall u, l :: u in tenants && u != tenantID && TrimSpace(u) != "" && TrimSpace(l) == l != "" ==>
      RecordKey(u, l) != RecordKey(tenantID, key)
  }

  lemma UnsharedIsNotShared(tenants: iset<string>, q: Request, other: Request)
    requires Unshared(tenants, q.tenantID, KeyOf(q)) && other.tenantID in tenants
    ensures NotShared(q, other)
  {
    hide TrimSpace, RecordKey;
    TrimTwice(other.key);
    TrimTwice(q.key);
    if other.tenantID != q.tenantID && TrimSpace(other.tenantID) != "" && TrimSpace(KeyOf(other)) != "" {
      assert RecordKey(other.tenantID, TrimSpace(KeyOf(other))) != RecordKey(q.tenantID, KeyOf(q));
    }
  }

  lemma UnsharedReplays(rule: Rule, tenants: iset<string>, s: Front, q: Request, requests: seq<Request>, again: Request)
    requires Unshared(tenants, q.tenantID, KeyOf(q)) && KeyOf(q) != ""
    requires forall i :: 0 <= i < |requests| ==> requests[i].tenantID in tenants
    ensures ReplayedAfter(rule, s, q, requests, again)
  {
    hide TrimSpace, Unshared, NotShared, Handle, FreshRuns, After;
    TrimTwice(q.key);
    forall i | 0 <= i < |requests| ensures NotShared(q, requests[i]) {
      UnsharedIsNotShared(tenants, q, requests[i]);
    }
    if Handle(rule, s, q).1.Started? && FreshRuns(rule, Handle(rule, s, q).0, requests) && SameRequest(q, again) {
      ReplayedForever(rule, s, q, requests, again);
    }
  }

  function Asking(tenantID: string, key: string, now: int, runID: string): Request {
    Request(tenantID, key, "f", "sync", now, Created(runID))
  }

  /** What is stored after one tenant's request, and after another's that shares its record. */
  function FirstStored(rule: Rule, t: string, k: string): Front {
    Front(Charge(rule, map[], Call(t, 1)), map[RecordKey(t, k) := Record("f", "run-1", "sync")], map["run-1" := t])
  }

  function SecondStored(rule: Rule, t: string, k: string, u: string): Front {
    Front(Charge(rule, Charge(rule, map[], Call(t, 1)), Call(u, 1)),
          map[RecordKey(t, k) := Record("f", "run-2", "sync")], map["run-1" := t, "run-2" := u])
  }

  lemma SyncMode(q: Request)
    requires q.mode == "sync"
    ensures ModeOf(q) == "sync"
  {}

  lemma FirstStarts(rule: Rule, t: string, k: string)
    requires TrimSpace(t) != "" && TrimSpace(k) == k != ""
    ensures Handle(rule, NOTHING, Asking(t, k, 1, "run-1")) == (FirstStored(rule, t, k), Started("run-1"))
  {
    SyncMode(Asking(t, k, 1, "run-1"));
    hide TrimSpace, ModeOf, RecordKey, Charge;
  }

  lemma SecondStarts(rule: Rule, t: string, k: string, u: string, l: string)
    requires t != u && TrimSpace(u) != "" && TrimSpace(l) == l != "" && RecordKey(t, k) == RecordKey(u, l)
    ensures Handle(rule, FirstStored(rule, t, k), Asking(u, l, 1, "run-2"))
            == (SecondStored(rule, t, k, u), Started("run-2"))
  {
    SyncMode(Asking(u, l, 1, "run-2"));
    hide TrimSpace, ModeOf, RecordKey;
    assert FirstStored(rule, t, k).records[RecordKey(t, k) := Record("f", "run-2", "sync")]
        == SecondStored(rule, t, k, u).records;
  }

  lemma ThirdStarts(rule: Rule, t: string, k: string, u: string)
    requires rule.window > 0 && t != u && TrimSpace(t) != "" && TrimSpace(k) == k != ""
    ensures Handle(rule, SecondStored(rule, t, k, u), Asking(t, k, 1 + rule.window, "run-3")).1 == Started("run-3")
  {
    SyncMode(Asking(t, k, 1 + rule.window, "run-3"));
    hide TrimSpace, ModeOf, RecordKey;
  }

  /**
   * Whenever two tenants' keys share a record, a request of the one makes the repeated request of the other
   * start a second run, whatever the quota.
   */
  lemma SharedRecordBreaksReplay(rule: Rule, t: string, k: string, u: string, l: string)
    requires rule.window > 0 && t != u && TrimSpace(t) != "" && TrimSpace(u) != ""
    requires TrimSpace(k) == k != "" && TrimSpace(l) == l != "" && RecordKey(t, k) == RecordKey(u, l)
    ensures var first := Handle(rule, NOTHING, Asking(t, k, 1, "run-1"));
            var second := Handle(rule, first.0, Asking(u, l, 1, "run-2"));
            && first.1 == Started("run-1") && second.1 == Started("run-2")
            && Handle(rule, second.0, Asking(t, k, 1 + rule.window, "run-3")).1 == Started("run-3")
            && FreshRun(first.0, Asking(u, l, 1, "run-2")) && FreshRun(second.0, Asking(t, k, 1 + rule.window, "run-3"))
  {
    FirstStarts(rule, t, k);
    SecondStarts(rule, t, k, u, l);
    ThirdStarts(rule, t, k, u);
    hide Handle, TrimSpace, RecordKey, Charge;
  }

  lemma SharedIsNotReplayed(rule: Rule, t: string, k: string, u: string, l: string)
    requires rule.window > 0 && t != u && TrimSpace(t) != "" && TrimSpace(u) != ""
    requires TrimSpace(k) == k != "" && TrimSpace(l) == l != "" && RecordKey(t, k) == RecordKey(u, l)
    ensures !ReplayedAfter(rule, NOTHING, Asking(t, k, 1, "run-1"), [Asking(u, l, 1, "run-2")],
                           Asking(t, k, 1 + rule.window, "run-3"))
  {
    SharedRecordBreaksReplay(rule, t, k, u, l);
    hide Handle, TrimSpace, RecordKey, FreshRun;
    var s, q := Handle(rule, NOTHING, Asking(t, k, 1, "run-1")).0, Asking(u, l, 1, "run-2");
    assert [q][..0] == [] && After(rule, s, []) == s && After(rule, s, [q]) == Handle(rule, s, q).0;
    assert FreshRuns(rule, s, [q]);
  }

  /**
   * A key of a tenant is replayed over all histories of requests of the given tenants exactly when none of
   * the others has a key that stands for the same record.
   */
  lemma ReplayedIffUnshared(rule: Rule, tenants: iset<string>, t: string, k: string)
    requires rule.window > 0 && TrimSpace(t) != "" && TrimSpace(k) == k != ""
    ensures AlwaysReplayed(rule, tenants, t, k) <==> Unshared(tenants, t, k)
  {
    hide TrimSpace, RecordKey, ReplayedAfter;
    if Unshared(tenants, t, k) {
      forall s: Front, q: Request, requests: seq<Request>, again: Request |
        q.tenantID == t && KeyOf(q) == k && (forall i :: 0 <= i < |requests| ==> requests[i].tenantID in tenants)
        ensures ReplayedAfter(rule, s, q, requests, again)
      {
        UnsharedReplays(rule, tenants, s, q, requests, again);
      }
    } else {
      var u, l :| u in tenants && u != t && TrimSpace(u) != "" && TrimSpace(l) == l != ""
                && RecordKey(u, l) == RecordKey(t, k);
      SharedIsNotReplayed(rule, t, k, u, l);
      var requests := [Asking(u, l, 1, "run-2")];
      assert KeyOf(Asking(t, k, 1, "run-1")) == k
            && forall i :: 0 <= i < |requests| ==> requests[i].tenantID in tenants;
    }
  }

  /** In particular keys of tenants without a colon in their names are always replayed. */
  lemma ColonFreeReplayed(rule: Rule, tenants: iset<string>, t: string, k: string)
    requires ':' !in t && (forall u :: u in tenants ==> ':' !in u) && TrimSpace(k) == k != ""
    ensures AlwaysReplayed(rule, tenants, t, k)
  {
    hide TrimSpace, ReplayedAfter, RecordKey;
    forall u, l | u in tenants && u != t && TrimSpace(u) != "" && TrimSpace(l) == l != ""
      ensures RecordKey(u, l) != RecordKey(t, k)
    {
      if RecordKey(u, l) == RecordKey(t, k) {
        ColonFreeApart(u, l, t, k);
      }
    }
    forall s: Front, q: Request, requests: seq<Request>, again: Request |
      q.tenantID == t && KeyOf(q) == k && (forall i :: 0 <= i < |requests| ==> requests[i].tenantID in tenants)
      ensures ReplayedAfter(rule, s, q, requests, again)
    {
      UnsharedReplays(rule, tenants, s, q, requests, again);
    }
  }

  lemma ExampleTrimmed()
    ensures TrimSpace("c") == "c" && TrimSpace("b:c") == "b:c" && TrimSpace("a:b") != "" && TrimSpace("a") != ""
  {}

  /** A colon in a tenant's name is enough: tenants "a:b" and "a" break each other's replays. */
  lemma ColonBreaksReplay(rule: Rule)
    requires rule.window > 0
    ensures !AlwaysReplayed(rule, iset{"a"}, "a:b", "c") && !AlwaysReplayed(rule, iset{"a:b"}, "a", "b:c")
  {
    assert RecordKey("a:b", "c") == RecordKey("a", "b:c");
    ExampleTrimmed();
    hide TrimSpace, AlwaysReplayed, RecordKey;
    ReplayedIffUnshared(rule, iset{"a"}, "a:b", "c");
    ReplayedIffUnshared(rule, iset{"a:b"}, "a", "b:c");
  }

  // Tenants do not affect each other

  /** The two fronts look the same to the tenant: its quota, the records its keys reach, and its runs. */
  ghost predicate SameFor(tenantID: string, s: Front, s': Front) {
    && BucketOf(s.quotas, tenantID) == BucketOf(s'.quotas, tenantID)
    && (forall key :: SameRecord(s.records, s'.records, RecordKey(tenantID, key)))
    && (forall id :: Readable(s, tenantID, id) <==> Readable(s', tenantID, id))
  }

  ghost predicate SameRecord(records: Records, records': Records, storageKey: string) {
    && (storageKey in records <==> storageKey in records')
    && (storageKey in records ==> records[storageKey] == records'[storageKey])
  }

  lemma ReplaySame(s: Front, s': Front, q: Request)
    requires SameFor(q.tenantID, s, s')
    ensures Replay(s, q) == Replay(s', q)
  {
    hide TrimSpace, BucketOf;
    assert SameRecord(s.records, s'.records, RecordKey(q.tenantID, TrimSpace(KeyOf(q))));
  }

  lemma ChargeSame(rule: Rule, s: Front, s': Front, call: Call)
    requires SameFor(call.tenantID, s, s')
    ensures SameFor(call.tenantID, s.(quotas := Charge(rule, s.quotas, call)),
                    s'.(quotas := Charge(rule, s'.quotas, call)))
  {
    hide Opened, SameRecord;
    var end, end' := s.(quotas := Charge(rule, s.quotas, call)), s'.(quotas := Charge(rule, s'.quotas, call));
    assert end.records == s.records && end'.records == s'.records;
    forall id ensures Readable(end, call.tenantID, id) <==> Readable(end', call.tenantID, id) {
      assert Readable(s, call.tenantID, id) <==> Readable(s', call.tenantID, id);
    }
  }

  lemma CreateSame(s: Front, s': Front, tenantID: string, id: string)
    requires SameFor(tenantID, s, s')
    ensures SameFor(tenantID, s.(runs := s.runs[id := tenantID]), s'.(runs := s'.runs[id := tenantID]))
  {
    hide SameRecord, BucketOf;
    var end, end' := s.(runs := s.runs[id := tenantID]), s'.(runs := s'.runs[id := tenantID]);
    forall other ensures Readable(end, tenantID, other) <==> Readable(end', tenantID, other) {
      assert Readable(s, tenantID, other) <==> Readable(s', tenantID, other);
    }
  }

  lemma StoreSame(s: Front, s': Front, tenantID: string, key: string, record: Record)
    requires SameFor(tenantID, s, s')
    ensures var (stored, stored') := (Store(s.records, tenantID, key, record),
                                      Store(s'.records, tenantID, key, record));
            && (stored.Some? <==> stored'.Some?)
            && (stored.Some? ==> SameFor(tenantID, s.(records := stored.value), s'.(records := stored'.value)))
  {
    hide TrimSpace, BucketOf;
    assert SameRecord(s.records, s'.records, RecordKey(tenantID, TrimSpace(key)));
    var stored, stored' := Store(s.records, tenantID, key, record), Store(s'.records, tenantID, key, record);
    if stored.Some? {
      forall k ensures SameRecord(stored.value, stored'.value, RecordKey(tenantID, k)) {
        assert SameRecord(s.records, s'.records, RecordKey(tenantID, k));
      }
      forall id
        ensures Readable(s.(records := stored.value), tenantID, id)
            <==> Readable(s'.(records := stored'.value), tenantID, id)
      {
        assert Readable(s, tenantID, id) <==> Readable(s', tenantID, id);
      }
    }
  }

  lemma ExecuteSame(s: Front, s': Front, q: Request)
    requires SameFor(q.tenantID, s, s')
    ensures Execute(s, q).1 == Execute(s', q).1
    ensures SameFor(q.tenantID, Execute(s, q).0, Execute(s', q).0)
  {
    hide SameFor, Store, ModeOf, KeyOf;
    match q.execution {
      case Broke(None) =>
      case Broke(Some(id)) => CreateSame(s, s', q.tenantID, id);
      case Created(id) =>
        CreateSame(s, s', q.tenantID, id);
        StoreSame(s.(runs := s.runs[id := q.tenantID]), s'.(runs := s'.runs[id := q.tenantID]), q.tenantID, KeyOf(q),
                  Record(q.fingerprint, id, ModeOf(q)));
    }
  }

  lemma SameForOwn(rule: Rule, s: Front, s': Front, q: Request)
    requires SameFor(q.tenantID, s, s')
    ensures Handle(rule, s, q).1 == Handle(rule, s', q).1
    ensures SameFor(q.tenantID, Handle(rule, s, q).0, Handle(rule, s', q).0)
  {
    ReplaySame(s, s', q);
    assert BucketOf(s.quotas, q.tenantID) == BucketOf(s'.quotas, q.tenantID);
    hide SameFor, Execute, Replay, Charge, Admits, BucketOf, TrimSpace;
    var call := Call(q.tenantID, q.now);
    ChargeSame(rule, s, s', call);
    ExecuteSame(s.(quotas := Charge(rule, s.quotas, call)), s'.(quotas := Charge(rule, s'.quotas, call)), q);
  }

  /** The request's key has the record of this key of the tenant. */
  predicate Shares(q: Request, tenantID: string, key: string) {
    TrimSpace(KeyOf(q)) != "" && RecordKey(q.tenantID, TrimSpace(KeyOf(q))) == RecordKey(tenantID, key)
  }

  /** No other tenant's request comes with a key that shares a record with one of this tenant's. */
  ghost predicate NoneShares(requests: seq<Request>, tenantID: string) {
    forall i, key :: 0 <= i < |requests| && requests[i].tenantID != tenantID ==> !Shares(requests[i], tenantID, key)
  }

  lemma ExecuteOther(s: Front, q: Request, tenantID: string, key: string)
    requires !Shares(q, tenantID, key)
    ensures SameRecord(Execute(s, q).0.records, s.records, RecordKey(tenantID, key))
    ensures Execute(s, q).0.quotas == s.quotas
  {
    hide TrimSpace, RecordKey, ModeOf;
  }

  lemma HandleOther(rule: Rule, s: Front, q: Request, tenantID: string, key: string)
    requires !Shares(q, tenantID, key)
    ensures SameRecord(Handle(rule, s, q).0.records, s.records, RecordKey(tenantID, key))
  {
    hide Execute, Shares, RecordKey, Replay, Charge, Admits, BucketOf, TrimSpace;
    ExecuteOther(s.(quotas := Charge(rule, s.quotas, Call(q.tenantID, q.now))), q, tenantID, key);
  }

  lemma OtherQuotaAndRuns(rule: Rule, s: Front, q: Request, tenantID: string)
    requires q.tenantID != tenantID && FreshRun(s, q)
    ensures BucketOf(Handle(rule, s, q).0.quotas, tenantID) == BucketOf(s.quotas, tenantID)
    ensures forall id :: Readable(Handle(rule, s, q).0, tenantID, id) <==> Readable(s, tenantID, id)
  {
    hide TrimSpace, Opened, RecordKey;
  }

  lemma SameForOther(rule: Rule, s: Front, s': Front, q: Request, tenantID: string)
    requires SameFor(tenantID, s, s') && q.tenantID != tenantID && FreshRun(s, q)
    requires forall key :: !Shares(q, tenantID, key)
    ensures SameFor(tenantID, Handle(rule, s, q).0, s')
  {
    hide Handle, Shares, RecordKey, FreshRun, BucketOf, Readable;
    OtherQuotaAndRuns(rule, s, q, tenantID);
    forall key ensures SameRecord(Handle(rule, s, q).0.records, s'.records, RecordKey(tenantID, key)) {
      assert !Shares(q, tenantID, key);
      HandleOther(rule, s, q, tenantID, key);
      assert SameRecord(s.records, s'.records, RecordKey(tenantID, key));
    }
  }

  function OwnRequests(requests: seq<Request>, tenantID: string): seq<Request> {
    if requests == [] then []
    else
      var k := |requests| - 1;
      OwnRequests(requests[..k], tenantID) + if requests[k].tenantID == tenantID then [requests[k]] else []
  }

  lemma AfterOneMore(rule: Rule, s: Front, front: seq<Request>, q: Request)
    ensures After(rule, s, front + [q]) == Handle(rule, After(rule, s, front), q).0
  {
    assert (front + [q])[..|front|] == front;
  }

  /** A tenant sees what it would see if it were alone. */
  lemma {:induction false} TenantsApart(rule: Rule, s: Front, requests: seq<Request>, tenantID: string)
    requires FreshRuns(rule, s, requests) && NoneShares(requests, tenantID)
    ensures SameFor(tenantID, After(rule, s, requests), After(rule, s, OwnRequests(requests, tenantID)))
  {
    if requests != [] {
      var k := |requests| - 1;
      var front, q, own := requests[..k], requests[k], OwnRequests(requests[..k], tenantID);
      FreshFront(rule, s, requests);
      TenantsApart(rule, s, front, tenantID);
      assert OwnRequests(requests, tenantID) == if q.tenantID == tenantID then own + [q] else own;
      hide SameFor, Handle, FreshRuns, FreshRun, OwnRequests, Shares;
      if q.tenantID == tenantID {
        SameForOwn(rule, After(rule, s, front), After(rule, s, own), q);
        AfterOneMore(rule, s, own, q);
      } else {
        SameForOther(rule, After(rule, s, front), After(rule, s, own), q, tenantID);
      }
    }
  }

  /**
   * So what a request is answered never depends on other tenants' requests, as long as run identifiers are fresh
   * and none of them has a key that shares a record with one of the tenant's own.
   */
  lemma RepliesApart(rule: Rule, s: Front, requests: seq<Request>, q: Request)
    requires FreshRuns(rule, s, requests) && NoneShares(requests, q.tenantID)
    ensures Handle(rule, After(rule, s, requests), q).1
         == Handle(rule, After(rule, s, OwnRequests(requests, q.tenantID)), q).1
  {
    hide SameFor, Handle, FreshRuns, NoneShares;
    TenantsApart(rule, s, requests, q.tenantID);
    SameForOwn(rule, After(rule, s, requests), After(rule, s, OwnRequests(requests, q.tenantID)), q);
  }

  /** Which is so when no tenant has a colon in its name. */
  lemma ColonFreeNoneShares(requests: seq<Request>, tenantID: string)
    requires ':' !in tenantID && forall i :: 0 <= i < |requests| ==> ':' !in requests[i].tenantID
    ensures NoneShares(requests, tenantID)
  {
    hide TrimSpace, RecordKey;
    forall i, key | 0 <= i < |requests| && requests[i].tenantID != tenantID
      ensures !Shares(requests[i], tenantID, key)
    {
      if Shares(requests[i], tenantID, key) {
        ColonFreeApart(tenantID, key, requests[i].tenantID, TrimSpace(KeyOf(requests[i])));
      }
    }
  }

  // Runs started stay within the quota

  /** The requests that reach the quota, as the calls it sees. */
  function Reserved(rule: Rule, s: Front, requests: seq<Request>): seq<Call> {
    if requests == [] then []
    else
      var k := |requests| - 1;
      Reserved(rule, s, requests[..k])
      + if Reserves(After(rule, s, requests[..k]), requests[k])
        then [Call(requests[k].tenantID, requests[k].now)] else []
  }

  /** How many runs requests of the tenant started in [lo, hi). */
  function StartedIn(rule: Rule, s: Front, requests: seq<Request>, tenantID: string, lo: int, hi: int): nat {
    if requests == [] then 0
    else
      var k := |requests| - 1;
      StartedIn(rule, s, requests[..k], tenantID, lo, hi)
      + if requests[k].tenantID == tenantID && lo <= requests[k].now < hi
           && Handle(rule, After(rule, s, requests[..k]), requests[k]).1.Started? then 1 else 0
  }

  ghost predicate RequestClock(requests: seq<Request>) {
    && (forall i :: 0 <= i < |requests| ==> requests[i].now != 0)
    && (forall i, j :: 0 <= i < j < |requests| ==> requests[i].now <= requests[j].now)
  }

  ghost predicate NoLater(calls: seq<Call>, now: int) {
    forall i :: 0 <= i < |calls| ==> calls[i].now <= now
  }

  lemma OneMoreSound(calls: seq<Call>, call: Call)
    requires SoundClock(calls) && NoLater(calls, call.now) && call.now != 0
    ensures SoundClock(calls + [call]) && NoLater(calls + [call], call.now)
  {}

  lemma RequestClockFront(requests: seq<Request>)
    requires RequestClock(requests) && requests != []
    ensures var k := |requests| - 1;
            && RequestClock(requests[..k]) && requests[k].now != 0
            && (k > 0 ==> requests[..k][k - 1].now <= requests[k].now)
  {}

  lemma {:induction false} ReservedClock(rule: Rule, s: Front, requests: seq<Request>)
    requires RequestClock(requests)
    ensures SoundClock(Reserved(rule, s, requests))
    ensures requests != [] ==> NoLater(Reserved(rule, s, requests), requests[|requests| - 1].now)
  {
    if requests != [] {
      hide Reserves, After, RequestClock, SoundClock;
      var k := |requests| - 1;
      var front, q := requests[..k], requests[k];
      RequestClockFront(requests);
      ReservedClock(rule, s, front);
      OneMoreSound(Reserved(rule, s, front), Call(q.tenantID, q.now));
      assert Reserved(rule, s, front) + [] == Reserved(rule, s, front);
    }
  }

  /** A request moves the quota as a call does if it reaches it, and not at all otherwise. */
  lemma HandleCharges(rule: Rule, s: Front, q: Request)
    ensures Handle(rule, s, q).0.quotas
         == if Reserves(s, q) then Charge(rule, s.quotas, Call(q.tenantID, q.now)) else s.quotas
    ensures Handle(rule, s, q).1.Started? ==> Reserves(s, q) && Admits(rule, BucketOf(s.quotas, q.tenantID), q.now)
  {
    hide TrimSpace, RecordKey, Opened;
  }

  lemma {:induction false} StartedWithinAdmitted(
    rule: Rule, requests: seq<Request>, tenantID: string, lo: int, hi: int)
    ensures After(rule, NOTHING, requests).quotas == Quota.After(rule, Reserved(rule, NOTHING, requests))
    ensures StartedIn(rule, NOTHING, requests, tenantID, lo, hi)
         <= AdmittedIn(rule, Reserved(rule, NOTHING, requests), tenantID, lo, hi)
  {
    if requests != [] {
      var k := |requests| - 1;
      var front, q := requests[..k], requests[k];
      var s, calls := After(rule, NOTHING, front), Reserved(rule, NOTHING, front);
      StartedWithinAdmitted(rule, front, tenantID, lo, hi);
      assert Reserved(rule, NOTHING, requests) == calls + if Reserves(s, q) then [Call(q.tenantID, q.now)] else [];
      hide Handle, Reserves, Charge, Admits, BucketOf;
      HandleCharges(rule, s, q);
      if Reserves(s, q) {
        OneMoreAdmitted(rule, calls, Call(q.tenantID, q.now), tenantID, lo, hi);
      } else {
        assert calls + [] == calls;
      }
    }
  }

  lemma OneMoreAdmitted(rule: Rule, calls: seq<Call>, call: Call, tenantID: string, lo: int, hi: int)
    ensures Quota.After(rule, calls + [call]) == Charge(rule, Quota.After(rule, calls), call)
    ensures AdmittedIn(rule, calls + [call], tenantID, lo, hi)
         == AdmittedIn(rule, calls, tenantID, lo, hi)
            + if call.tenantID == tenantID && lo <= call.now < hi
                 && Admits(rule, BucketOf(Quota.After(rule, calls), tenantID), call.now) then 1 else 0
  {
    assert (calls + [call])[..|calls|] == calls;
  }

  /** No tenant starts more runs in k window lengths than the quota's sliding bound, replays and failures included. */
  lemma StartedBound(rule: Rule, requests: seq<Request>, tenantID: string, lo: int, k: nat)
    requires rule.limit > 0 && rule.window > 0 && k > 0 && RequestClock(requests)
    ensures StartedIn(rule, NOTHING, requests, tenantID, lo, lo + k * rule.window) <= (k + 1) * rule.limit - 1
  {
    hide *;
    ReservedClock(rule, NOTHING, requests);
    StartedWithinAdmitted(rule, requests, tenantID, lo, lo + k * rule.window);
    SlidingBound(rule, Reserved(rule, NOTHING, requests), tenantID, lo, k);
  }
}
