/**
 * The tenant trigger control and the request handler that uses it (`internal/tenant/controls.go`,
 * `internal/api/server.go`).
 */
module Controls {
  import opened Idempotency
  import opened Quota
  import opened Text
  import opened Values

  datatype TriggerQuota = TriggerQuota(limit: int, remaining: int, resetAt: int)

  /** The quota told to the caller is the one its bucket holds: what is left, and when it opens again. */
  ghost predicate Tells(quota: TriggerQuota, rule: Rule, b: Bucket) {
    && quota.limit == rule.limit && 0 <= quota.remaining
    && (forall now :: now >= quota.resetAt ==> Admits(rule, b, now))
    && (forall now :: b.windowStart != 0 && now < quota.resetAt ==> (Admits(rule, b, now) <==> quota.remaining > 0))
    && (forall now :: b.windowStart != 0 && now < quota.resetAt && Admits(rule, b, now) ==>
          quota.remaining == rule.limit - Opened(rule, b, now).count)
  }

  class TriggerControl {
    const rule: Rule
    var quotas: Quotas
    var records: Records

    ghost predicate Valid()
      reads this
    {
      rule.window > 0 && forall t :: t in quotas ==> quotas[t].count <= rule.limit
    }

    constructor (limit: int, window: int)
      ensures Valid() && quotas == map[] && records == map[]
      ensures rule.limit == if limit < 0 then 0 else limit
      ensures rule.window == if window <= 0 then 60_000_000_000 else window
    {
      rule := Rule(if limit < 0 then 0 else limit, if window <= 0 then MINUTE else window);
      quotas := map[];
      records := map[];
    }

    method Allow(tenantID: string, now: int) returns (quota: TriggerQuota, limited: bool)
      requires Valid()
      modifies `quotas
      ensures Valid()
      ensures limited <==> !Admits(rule, BucketOf(old(quotas), tenantID), now)
      ensures quotas == Charge(rule, old(quotas), Call(tenantID, now))
      ensures rule.limit == 0 ==> quota == TriggerQuota(0, 0, 0)
      ensures rule.limit > 0 ==> Tells(quota, rule, BucketOf(quotas, tenantID))
      ensures rule.limit == 0 ==> !limited && quotas == old(quotas)
      ensures rule.limit > 0 ==>
                var open := tenantID in old(quotas) && old(quotas)[tenantID].windowStart != 0
                            && now - old(quotas)[tenantID].windowStart < rule.window;
                var (start, count) := if open then (old(quotas)[tenantID].windowStart, old(quotas)[tenantID].count)
                                      else (now, 0);
                && (limited <==> count >= rule.limit)
                && quotas == (if limited then old(quotas) else old(quotas)[tenantID := Bucket(start, count + 1)])
                && quota == TriggerQuota(rule.limit, if limited then 0 else rule.limit - (count + 1),
                                         start + rule.window)
    {
      if rule.limit == 0 {
        return TriggerQuota(0, 0, 0), false;
      }
      var bucket := if tenantID in quotas then quotas[tenantID] else Bucket(0, 0);
      if bucket.windowStart == 0 || now - bucket.windowStart >= rule.window {
        bucket := Bucket(now, 0);
      }
      var resetAt := bucket.windowStart + rule.window;
      if bucket.count >= rule.limit {
        return TriggerQuota(rule.limit, 0, resetAt), true;
      }
      bucket := bucket.(count := bucket.count + 1);
      quotas := quotas[tenantID := bucket];
      return TriggerQuota(rule.limit, rule.limit - bucket.count, resetAt), false;
    }

    method Lookup(tenantID: string, key: string, fingerprint: string) returns (found: Found)
      ensures found == Idempotency.Lookup(records, tenantID, key, fingerprint)
      ensures var storageKey := tenantID + ":" + TrimSpace(key);
              found == if TrimSpace(key) == "" || storageKey !in records then Absent
                       else if records[storageKey].fingerprint == fingerprint then Present(records[storageKey])
                       else Mismatch
    {
      var trimmed := TrimSpace(key);
      if trimmed == "" {
        return Absent;
      }
      if RecordKey(tenantID, trimmed) !in records {
        return Absent;
      }
      var record := records[RecordKey(tenantID, trimmed)];
      if record.fingerprint != fingerprint {
        return Mismatch;
      }
      return Present(record);
    }

    method Store(tenantID: string, key: string, record: Record) returns (stored: bool)
      modifies `records
      ensures stored <==> Idempotency.Store(old(records), tenantID, key, record).Some?
      ensures records == if stored then Idempotency.Store(old(records), tenantID, key, record).value else old(records)
      ensures var storageKey := tenantID + ":" + TrimSpace(key);
              && (!stored <==> TrimSpace(key) != "" && storageKey in old(records)
                               && old(records)[storageKey].fingerprint != record.fingerprint)
              && records == if TrimSpace(key) == "" || !stored then old(records)
                            else old(records)[storageKey := record]
    {
      var trimmed := TrimSpace(key);
      if trimmed == "" {
        return true;
      }
      var storageKey := RecordKey(tenantID, trimmed);
      if storageKey in records && records[storageKey].fingerprint != record.fingerprint {
        return false;
      }
      records := records[storageKey := record];
      return true;
    }
  }

  /** The record of the request's key, if it has one. */
  ghost predicate HasRecord(s: Front, q: Request, record: Record) {
    && TrimSpace(q.key) != "" && q.tenantID + ":" + TrimSpace(q.key) in s.records
    && s.records[q.tenantID + ":" + TrimSpace(q.key)] == record
  }

  /** The record tells what to answer, before anything is reserved. */
  ghost predicate AnswersAtOnce(s: Front, q: Request, reply: Reply) {
    exists record :: HasRecord(s, q, record) &&
      if record.fingerprint != q.fingerprint then reply == Conflict
      else
        && record.runID in s.runs && s.runs[record.runID] == q.tenantID
        && reply == Replayed(record.runID)
  }

  /** The tenant's window is open and full. */
  ghost predicate WindowFull(rule: Rule, s: Front, q: Request) {
    && rule.limit > 0 && q.tenantID in s.quotas
    && var bucket := s.quotas[q.tenantID];
       bucket.windowStart != 0 && q.now - bucket.windowStart < rule.window && bucket.count >= rule.limit
  }

  /** One more call in the tenant's window, which is opened if none is open. */
  ghost predicate ChargedOnce(rule: Rule, s: Front, q: Request, quotas: Quotas) {
    if rule.limit == 0 then quotas == s.quotas
    else if q.tenantID in s.quotas && s.quotas[q.tenantID].windowStart != 0
            && q.now - s.quotas[q.tenantID].windowStart < rule.window then
      quotas == s.quotas[q.tenantID := Bucket(s.quotas[q.tenantID].windowStart, s.quotas[q.tenantID].count + 1)]
    else quotas == s.quotas[q.tenantID := Bucket(q.now, 1)]
  }

  /** A reserved request is refused for its mode, or executed, and if it starts a run that is kept under its key. */
  ghost predicate Executes(s: Front, q: Request, s': Front, reply: Reply) {
    if TrimSpace(q.mode) !in {"", "sync", "async"} then
      reply == InvalidMode && s'.records == s.records && s'.runs == s.runs
    else
      match q.execution
      case Broke(None) => reply == ExecutionFailed && s'.records == s.records && s'.runs == s.runs
      case Broke(Some(id)) =>
        reply == ExecutionFailed && s'.records == s.records && s'.runs == s.runs[id := q.tenantID]
      case Created(id) =>
        && reply == Started(id) && s'.runs == s.runs[id := q.tenantID]
        && s'.records == if TrimSpace(q.key) == "" then s.records
                         else s.records[q.tenantID + ":" + TrimSpace(q.key) := Record(
                           q.fingerprint, id, if TrimSpace(q.mode) == "async" then "async" else "sync")]
  }

  /** The reply to a request and all that it changes, in the handler's order: look up, reserve, execute, store. */
  ghost predicate Answers(rule: Rule, s: Front, q: Request, s': Front, reply: Reply) {
    if exists early :: AnswersAtOnce(s, q, early) then AnswersAtOnce(s, q, reply) && s' == s
    else if TrimSpace(q.tenantID) == "" then reply == InvalidTenant && s' == s
    else if WindowFull(rule, s, q) then reply == RateLimited && s' == s
    else ChargedOnce(rule, s, q, s'.quotas) && Executes(s, q, s', reply)
  }

  lemma ReplayAnswers(s: Front, q: Request)
    ensures if Replay(s, q).Some? then AnswersAtOnce(s, q, Replay(s, q).value)
            else forall reply :: !AnswersAtOnce(s, q, reply)
  {
    TrimTwice(q.key);
    hide TrimSpace;
    var storageKey := q.tenantID + ":" + TrimSpace(q.key);
    if Replay(s, q).Some? {
      assert HasRecord(s, q, s.records[storageKey]);
    }
  }

  lemma RefusedIff(rule: Rule, s: Front, q: Request)
    ensures Admits(rule, BucketOf(s.quotas, q.tenantID), q.now) <==> !WindowFull(rule, s, q)
    ensures Admits(rule, BucketOf(s.quotas, q.tenantID), q.now) ==>
              ChargedOnce(rule, s, q, Charge(rule, s.quotas, Call(q.tenantID, q.now)))
  {}

  lemma ExecuteAnswers(s: Front, q: Request)
    requires Replay(s, q).None?
    ensures Executes(s, q, Execute(s, q).0, Execute(s, q).1)
    ensures Execute(s, q).0.quotas == s.quotas
  {
    TrimTwice(q.key);
    hide TrimSpace;
  }

  /** What the request theorems are about is this. */
  lemma HandleAnswers(rule: Rule, s: Front, q: Request)
    ensures Answers(rule, s, q, Handle(rule, s, q).0, Handle(rule, s, q).1)
  {
    ReplayAnswers(s, q);
    RefusedIff(rule, s, q);
    var reserved := s.(quotas := Charge(rule, s.quotas, Call(q.tenantID, q.now)));
    if Replay(s, q).None? {
      ReplayAside(s, reserved, q);
      ExecuteAnswers(reserved, q);
    }
    hide TrimSpace, AnswersAtOnce, Admits, WindowFull, ChargedOnce, Execute, Replay;
  }

  lemma ReplayAside(s: Front, reserved: Front, q: Request)
    requires reserved == s.(quotas := reserved.quotas)
    ensures Replay(reserved, q) == Replay(s, q)
  {}

  /** The handler, over the control and the tenants of the runs the repository holds. */
  class Server {
    const control: TriggerControl
    var runs: map<string, string>

    ghost predicate Valid()
      reads this, control
    {
      control.Valid()
    }

    ghost function State(): Front
      reads this, control
    {
      Front(control.quotas, control.records, runs)
    }

    constructor (limit: int, window: int)
      ensures Valid() && fresh(control) && State() == NOTHING
    {
      control := new TriggerControl(limit, window);
      runs := map[];
    }

    method LookupIdempotentRun(tenantID: string, key: string, fingerprint: string) returns (reply: Option<Reply>)
      ensures forall q: Request :: q.tenantID == tenantID && KeyOf(q) == key && q.fingerprint == fingerprint ==>
                reply == Replay(State(), q)
    {
      var found := control.Lookup(tenantID, key, fingerprint);
      if found.Mismatch? {
        return Some(Conflict);
      }
      if found.Absent? {
        return None;
      }
      if found.record.runID !in runs || runs[found.record.runID] != tenantID {
        return None;
      }
      return Some(Replayed(found.record.runID));
    }

    method ReserveExecution(tenantID: string, now: int) returns (refusal: Option<Reply>)
      requires Valid()
      modifies control`quotas
      ensures Valid()
      ensures refusal == (if TrimSpace(tenantID) == "" then Some(InvalidTenant)
                          else if !Admits(control.rule, BucketOf(old(control.quotas), tenantID), now) then
                            Some(RateLimited)
                          else None)
      ensures control.quotas == if TrimSpace(tenantID) == "" then old(control.quotas)
                                else Charge(control.rule, old(control.quotas), Call(tenantID, now))
    {
      if TrimSpace(tenantID) == "" {
        return Some(InvalidTenant);
      }
      var _, limited := control.Allow(tenantID, now);
      return if limited then Some(RateLimited) else None;
    }

    /** Does to the quotas, records and runs what Handle says, and nothing else. */
    method HandleExecuteWorkflow(q: Request) returns (reply: Reply)
      requires Valid()
      modifies `runs, control`quotas, control`records
      ensures Valid()
      ensures (State(), reply) == Handle(control.rule, old(State()), q)
      ensures Answers(control.rule, old(State()), q, State(), reply)
    {
      HandleAnswers(control.rule, State(), q);
      hide TrimSpace, RecordKey, Opened, Answers;
      var mode := TrimSpace(q.mode);
      if mode == "" {
        mode := "sync";
      }
      var idempotencyKey := TrimSpace(q.key);
      var replayed := LookupIdempotentRun(q.tenantID, idempotencyKey, q.fingerprint);
      if replayed.Some? {
        return replayed.value;
      }
      var refusal := ReserveExecution(q.tenantID, q.now);
      if refusal.Some? {
        return refusal.value;
      }
      if mode != "sync" && mode != "async" {
        return InvalidMode;
      }
      match q.execution {
        case Broke(None) =>
          return ExecutionFailed;
        case Broke(Some(id)) =>
          runs := runs[id := q.tenantID];
          return ExecutionFailed;
        case Created(id) =>
          runs := runs[id := q.tenantID];
          var stored := control.Store(q.tenantID, idempotencyKey, Record(q.fingerprint, id, mode));
          if !stored {
            return Conflict;
          }
          return Started(id);
      }
    }
  }
}
