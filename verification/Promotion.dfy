/**
 * The Redis queue shared by any number of workers, one command at a time: a sorted set of delayed jobs
 * promoted into a list (`internal/worker/redis_queue.go`).
 */
module Promotion {
  import opened Values

  type Payload = string

  const PAGE_SIZE: nat := 32

  /** A worker inside Dequeue. `now` is read once, before the first page. */
  datatype Pc =
    | Idle
    | Fetching(now: int)
    | Promoting(now: int, page: seq<Payload>)
    | Carrying(now: int, payload: Payload, page: seq<Payload>)
    | Popping

  /** Redis, the workers, and what has happened so far to jobs, deliveries in order. */
  datatype State = State(
    delayed: map<Payload, int>,
    list: seq<Payload>,
    workers: seq<Pc>,
    sent: multiset<Payload>,
    scheduled: multiset<Payload>,
    promoted: multiset<Payload>,
    delivered: seq<Payload>)

  datatype Command =
    | Enqueue(payload: Payload)
    | EnqueueAfter(payload: Payload, score: int)
    | Begin(worker: nat, now: int)
    | Fetch(worker: nat, page: seq<Payload>)
    | Remove(worker: nat)
    | Push(worker: nat)
    | Pop(worker: nat)

  function Due(s: State, now: int): set<Payload> {
    set p | p in s.delayed && s.delayed[p] <= now
  }

  function Score(s: State, p: Payload): int {
    if p in s.delayed then s.delayed[p] else 0
  }

  /** A reply ZRANGEBYSCORE -inf now LIMIT 0 32 may give: the lowest due members, lowest first. */
  ghost predicate IsPage(s: State, now: int, page: seq<Payload>) {
    && Distinct(page) && Elements(page) <= Due(s, now)
    && |page| == (if |Due(s, now)| < PAGE_SIZE then |Due(s, now)| else PAGE_SIZE)
    && (forall i, j :: 0 <= i < j < |page| ==> Score(s, page[i]) <= Score(s, page[j]))
    && (forall p, q :: p in page && q in Due(s, now) && q !in page ==> Score(s, p) <= Score(s, q))
  }

  function AfterPayload(now: int, page: seq<Payload>): Pc {
    if page == [] then Fetching(now) else Promoting(now, page)
  }

  ghost predicate Enabled(s: State, c: Command) {
    match c
    case Enqueue(_) => true
    case EnqueueAfter(_, _) => true
    case Begin(w, _) => w < |s.workers| && s.workers[w].Idle?
    case Fetch(w, page) => w < |s.workers| && s.workers[w].Fetching? && IsPage(s, s.workers[w].now, page)
    case Remove(w) => w < |s.workers| && s.workers[w].Promoting? && s.workers[w].page != []
    case Push(w) => w < |s.workers| && s.workers[w].Carrying?
    case Pop(w) => w < |s.workers| && s.workers[w].Popping?
  }

  ghost function Apply(s: State, c: Command): State
    requires Enabled(s, c)
  {
    match c
    case Enqueue(p) => s.(list := [p] + s.list, sent := s.sent + multiset{p})
    case EnqueueAfter(p, score) =>
      s.(delayed := s.delayed[p := score], sent := s.sent + multiset{p}, scheduled := s.scheduled + multiset{p})
    case Begin(w, now) => s.(workers := s.workers[w := Fetching(now)])
    case Fetch(w, page) =>
      s.(workers := s.workers[w := if page == [] then Popping else Promoting(s.workers[w].now, page)])
    case Remove(w) =>
      var (now, p, rest) := (s.workers[w].now, s.workers[w].page[0], s.workers[w].page[1..]);
      if p in s.delayed then s.(delayed := s.delayed - {p}, workers := s.workers[w := Carrying(now, p, rest)])
      else s.(workers := s.workers[w := AfterPayload(now, rest)])
    case Push(w) =>
      var (now, p, rest) := (s.workers[w].now, s.workers[w].payload, s.workers[w].page);
      s.(list := [p] + s.list, promoted := s.promoted + multiset{p}, workers := s.workers[w := AfterPayload(now, rest)])
    case Pop(w) =>
      var idle := s.workers[w := Idle];
      if s.list == [] then s.(workers := idle)
      else
        var last := |s.list| - 1;
        s.(list := s.list[..last], delivered := s.delivered + [s.list[last]], workers := idle)
  }

  // Conservation, payload by payload

  function InHand(pc: Pc, p: Payload): nat {
    if pc.Carrying? && pc.payload == p then 1 else 0
  }

  function InHands(workers: seq<Pc>, p: Payload): nat {
    if workers == [] then 0 else InHand(workers[0], p) + InHands(workers[1..], p)
  }

  function InDelayed(s: State, p: Payload): nat {
    if p in s.delayed then 1 else 0
  }

  function InList(s: State, p: Payload): nat {
    multiset(s.list)[p]
  }

  lemma {:induction false} HandsUpdate(workers: seq<Pc>, w: nat, pc: Pc, p: Payload)
    requires w < |workers|
    ensures InHands(workers[w := pc], p) == InHands(workers, p) - InHand(workers[w], p) + InHand(pc, p)
  {
    if w == 0 {
      assert workers[0 := pc][1..] == workers[1..];
    } else {
      assert workers[w := pc][1..] == workers[1..][w - 1 := pc];
      HandsUpdate(workers[1..], w - 1, pc, p);
    }
  }

  /** The copies of a payload sent are those delayed, in a worker's hand, in the list, and delivered. */
  ghost predicate ConservedAt(s: State, p: Payload) {
    && s.sent[p] == InDelayed(s, p) + InHands(s.workers, p) + InList(s, p) + multiset(s.delivered)[p]
    && s.scheduled[p] == InDelayed(s, p) + InHands(s.workers, p) + s.promoted[p]
  }

  /** Every job sent is in exactly one place, and every job scheduled is pushed to the list at most once. */
  ghost predicate Conserved(s: State) {
    forall p :: ConservedAt(s, p)
  }

  /** What the sorted set needs from its callers: members are told apart by their payload. */
  predicate FreshMember(s: State, c: Command) {
    c.EnqueueAfter? ==> c.payload !in s.delayed
  }

  /** Scheduling conserves jobs exactly when the payload is not already delayed; otherwise two become one. */
  lemma SchedulingConservesIff(s: State, p: Payload, score: int)
    requires Conserved(s)
    ensures Conserved(Apply(s, EnqueueAfter(p, score))) <==> p !in s.delayed
    ensures forall now :: p in Due(Apply(s, EnqueueAfter(p, score)), now) <==> score <= now
  {
    var s' := Apply(s, EnqueueAfter(p, score));
    assert ConservedAt(s, p);
    if p in s.delayed {
      assert !ConservedAt(s', p);
    } else {
      forall q ensures ConservedAt(s', q) {
        assert ConservedAt(s, q);
      }
    }
  }

  lemma ListEnds(list: seq<Payload>, p: Payload, q: Payload)
    ensures multiset([q] + list)[p] == multiset(list)[p] + if p == q then 1 else 0
    ensures list != [] ==>
              multiset(list)[p] == multiset(list[..|list| - 1])[p] + if p == list[|list| - 1] then 1 else 0
  {
    if list != [] {
      assert list == list[..|list| - 1] + [list[|list| - 1]];
    }
  }

  lemma RemoveConserves(s: State, w: nat, p: Payload)
    requires ConservedAt(s, p) && Enabled(s, Remove(w))
    ensures ConservedAt(Apply(s, Remove(w)), p)
  {
    hide InHands;
    HandsUpdate(s.workers, w, Apply(s, Remove(w)).workers[w], p);
  }

  lemma PushConserves(s: State, w: nat, p: Payload)
    requires ConservedAt(s, p) && Enabled(s, Push(w))
    ensures ConservedAt(Apply(s, Push(w)), p)
  {
    hide InHands;
    HandsUpdate(s.workers, w, Apply(s, Push(w)).workers[w], p);
    ListEnds(s.list, p, s.workers[w].payload);
  }

  lemma OneMoreDelivered(delivered: seq<Payload>, q: Payload, p: Payload)
    ensures multiset(delivered + [q])[p] == multiset(delivered)[p] + if p == q then 1 else 0
  {}

  lemma PopShape(s: State, w: nat)
    requires Enabled(s, Pop(w))
    ensures w < |s.workers| && s.workers[w].Popping?
    ensures var s' := Apply(s, Pop(w));
            && s' == s.(list := s'.list, delivered := s'.delivered, workers := s.workers[w := Idle])
            && if s.list == [] then s'.list == [] && s'.delivered == s.delivered
               else
                 s'.list == s.list[..|s.list| - 1] && s'.delivered == s.delivered + [s.list[|s.list| - 1]]
  {}

  lemma PopConserves(s: State, w: nat, p: Payload)
    requires ConservedAt(s, p) && Enabled(s, Pop(w))
    ensures ConservedAt(Apply(s, Pop(w)), p)
  {
    PopShape(s, w);
    hide InHands, Apply, Enabled;
    HandsUpdate(s.workers, w, Idle, p);
    ListEnds(s.list, p, p);
    if s.list != [] {
      OneMoreDelivered(s.delivered, s.list[|s.list| - 1], p);
    }
  }

  lemma ReadingConserves(s: State, c: Command, p: Payload)
    requires ConservedAt(s, p) && Enabled(s, c) && (c.Begin? || c.Fetch?)
    ensures ConservedAt(Apply(s, c), p)
  {
    hide InHands, IsPage;
    HandsUpdate(s.workers, c.worker, Apply(s, c).workers[c.worker], p);
  }

  /** Any command of any worker or client conserves jobs, and counts each promotion once. */
  lemma CommandConserves(s: State, c: Command)
    requires Conserved(s) && Enabled(s, c) && FreshMember(s, c)
    ensures Conserved(Apply(s, c))
  {
    hide ConservedAt, Apply;
    match c {
      case Enqueue(q) => EnqueueConserves(s, q);
      case EnqueueAfter(q, score) => SchedulingConservesIff(s, q, score);
      case Remove(w) =>
        forall p ensures ConservedAt(Apply(s, c), p) {
          RemoveConserves(s, w, p);
        }
      case Push(w) =>
        forall p ensures ConservedAt(Apply(s, c), p) {
          PushConserves(s, w, p);
        }
      case Pop(w) =>
        forall p ensures ConservedAt(Apply(s, c), p) {
          PopConserves(s, w, p);
        }
      case _ =>
        forall p ensures ConservedAt(Apply(s, c), p) {
          ReadingConserves(s, c, p);
        }
    }
  }

  lemma EnqueueConserves(s: State, q: Payload)
    requires Conserved(s)
    ensures Conserved(Apply(s, Enqueue(q)))
  {
    forall p ensures ConservedAt(Apply(s, Enqueue(q)), p) {
      assert ConservedAt(s, p);
      ListEnds(s.list, p, q);
    }
  }

  /** The state after a history of commands, each enabled and none reusing a delayed payload. */
  ghost function After(s: State, history: seq<Command>): Option<State> {
    if history == [] then Some(s)
    else
      var before := After(s, history[..|history| - 1]);
      var c := history[|history| - 1];
      if before.Some? && Enabled(before.value, c) && FreshMember(before.value, c)
      then Some(Apply(before.value, c)) else None
  }

  ghost predicate Start(s: State) {
    && s.delayed == map[] && s.list == []
    && (forall i :: 0 <= i < |s.workers| ==> s.workers[i].Idle?)
    && s.sent == s.scheduled == s.promoted == multiset{} && s.delivered == []
  }

  lemma {:induction false} ConservedAfter(s: State, history: seq<Command>)
    requires Conserved(s) && After(s, history).Some?
    ensures Conserved(After(s, history).value)
  {
    if history != [] {
      hide Conserved, Apply, Enabled;
      ConservedAfter(s, history[..|history| - 1]);
      CommandConserves(After(s, history[..|history| - 1]).value, history[|history| - 1]);
    }
  }

  /** Over every history from the empty queue, whatever the interleaving of the workers. */
  lemma HistoryConserves(s: State, history: seq<Command>)
    requires Start(s) && After(s, history).Some?
    ensures Conserved(After(s, history).value)
  {
    hide After;
    forall p ensures ConservedAt(s, p) {
      IdleHands(s.workers, p);
    }
    ConservedAfter(s, history);
  }

  lemma {:induction false} IdleHands(workers: seq<Pc>, p: Payload)
    requires forall i :: 0 <= i < |workers| ==> workers[i].Idle?
    ensures InHands(workers, p) == 0
  {
    if workers != [] {
      IdleHands(workers[1..], p);
    }
  }

  // Order

  function Backwards(s: seq<Payload>): (r: seq<Payload>)
    ensures |r| == |s|
  {
    seq(|s|, i requires 0 <= i < |s| => s[|s| - 1 - i])
  }

  /** The payloads pushed to the list, by clients and by workers, in the order of their commands. */
  ghost function Pushed(s: State, history: seq<Command>): seq<Payload>
    requires After(s, history).Some?
  {
    if history == [] then []
    else
      var front, c := history[..|history| - 1], history[|history| - 1];
      Pushed(s, front) + match c
                         case Enqueue(p) => [p]
                         case Push(w) => [After(s, front).value.workers[w].payload]
                         case _ => []
  }

  lemma CommandKeepsOrder(s: State, c: Command)
    requires Enabled(s, c)
    ensures var s' := Apply(s, c);
            s'.delivered + Backwards(s'.list)
            == s.delivered + Backwards(s.list) + match c
                                                 case Enqueue(p) => [p]
                                                 case Push(w) => [s.workers[w].payload]
                                                 case _ => []
  {
    hide IsPage;
    if c.Pop? && s.list != [] {
      assert s.list == s.list[..|s.list| - 1] + [s.list[|s.list| - 1]];
    }
  }

  /**
   * The queue is first in, first out: over every history, however clients and workers interleave, the jobs delivered
   * so far followed by those in the list, oldest first, are the jobs pushed, in the order they were pushed.
   */
  lemma {:induction false} DeliveredInOrder(s: State, history: seq<Command>)
    requires Start(s) && After(s, history).Some?
    ensures var end := After(s, history).value;
            end.delivered + Backwards(end.list) == Pushed(s, history)
    ensures forall k :: 0 <= k < |After(s, history).value.delivered| ==>
              k < |Pushed(s, history)| && After(s, history).value.delivered[k] == Pushed(s, history)[k]
  {
    if history == [] {
      assert Backwards(s.list) == [];
    } else {
      hide Apply, Backwards, Start, FreshMember;
      DeliveredInOrder(s, history[..|history| - 1]);
      CommandKeepsOrder(After(s, history[..|history| - 1]).value, history[|history| - 1]);
    }
  }

  // Promotion ends

  function Pending(pc: Pc): set<Payload> {
    if pc.Promoting? || pc.Carrying? then Elements(pc.page) else {}
  }

  /** How far a worker is from the end of promoteDueJobs, when nothing more falls due. */
  function Rank(s: State, w: nat): nat
    requires w < |s.workers|
  {
    match s.workers[w]
    case Idle => 0
    case Popping => 0
    case Fetching(now) => |Due(s, now)| * (2 * PAGE_SIZE + 2) + 1
    case Promoting(now, page) => |Due(s, now) - Elements(page)| * (2 * PAGE_SIZE + 2) + 2 + 2 * |page|
    case Carrying(now, _, page) => |Due(s, now) - Elements(page)| * (2 * PAGE_SIZE + 2) + 3 + 2 * |page|
  }

  /** The worker's own commands between reading the clock and finding no page left. */
  predicate PromotesFor(c: Command, w: nat) {
    match c
    case Fetch(v, _) => v == w
    case Remove(v) => v == w
    case Push(v) => v == w
    case _ => false
  }

  /** Nothing becomes due at `now` by this command. */
  predicate NothingFallsDue(c: Command, now: int) {
    c.EnqueueAfter? ==> c.score > now
  }

  predicate AtClock(pc: Pc, now: int) {
    match pc
    case Fetching(n) => n == now
    case Promoting(n, _) => n == now
    case Carrying(n, _, _) => n == now
    case _ => false
  }

  lemma DueShrinks(a: set<Payload>, b: set<Payload>)
    requires a <= b
    ensures |a| <= |b| && (a != b ==> |a| < |b|)
  {
    var rest := b - a;
    assert b == a + rest && a !! rest;
  }

  lemma FetchLowersRank(s: State, w: nat, page: seq<Payload>)
    requires Enabled(s, Fetch(w, page))
    ensures w < |Apply(s, Fetch(w, page)).workers| && Rank(Apply(s, Fetch(w, page)), w) < Rank(s, w)
  {
    var due := Due(s, s.workers[w].now);
    var s' := Apply(s, Fetch(w, page));
    assert Due(s', s.workers[w].now) == due;
    if page != [] {
      assert page[0] in due && page[0] !in due - Elements(page);
      DueShrinks(due - Elements(page), due);
      var left, all := |due - Elements(page)|, |due|;
      assert left * (2 * PAGE_SIZE + 2) + (2 * PAGE_SIZE + 2) <= all * (2 * PAGE_SIZE + 2);
    }
  }

  /** The due members outside the page are the same before and after its first entry is taken off. */
  lemma RemoveLeavesOthers(s: State, w: nat)
    requires Enabled(s, Remove(w)) && Distinct(s.workers[w].page)
    ensures var (now, page) := (s.workers[w].now, s.workers[w].page);
            Due(Apply(s, Remove(w)), now) - Elements(page[1..]) == Due(s, now) - Elements(page)
  {
    var now, page := s.workers[w].now, s.workers[w].page;
    PageTail(page);
    RemoveDue(s, w);
    hide Apply, Due, Elements;
  }

  lemma RemoveLowersRank(s: State, w: nat)
    requires Enabled(s, Remove(w)) && Distinct(s.workers[w].page)
    ensures w < |Apply(s, Remove(w)).workers| && Rank(Apply(s, Remove(w)), w) < Rank(s, w)
  {
    RemoveLeavesOthers(s, w);
    RemoveWorker(s, w);
    PageRankDrops(s, Apply(s, Remove(w)), w);
  }

  lemma RemoveWorker(s: State, w: nat)
    requires Enabled(s, Remove(w))
    ensures var (now, page, s') := (s.workers[w].now, s.workers[w].page, Apply(s, Remove(w)));
            && w < |s'.workers|
            && s'.workers[w] in {Carrying(now, page[0], page[1..]), AfterPayload(now, page[1..])}
  {}

  lemma PageRankDrops(s: State, s': State, w: nat)
    requires w < |s.workers| && s.workers[w].Promoting? && s.workers[w].page != [] && w < |s'.workers|
    requires var (now, page) := (s.workers[w].now, s.workers[w].page);
             && s'.workers[w] in {Carrying(now, page[0], page[1..]), AfterPayload(now, page[1..])}
             && Due(s', now) - Elements(page[1..]) == Due(s, now) - Elements(page)
    ensures Rank(s', w) < Rank(s, w)
  {
    var now, rest := s.workers[w].now, s.workers[w].page[1..];
    if rest == [] {
      assert Due(s', now) - Elements(rest) == Due(s', now);
    }
    hide Due, Elements;
  }

  lemma RemoveDue(s: State, w: nat)
    requires Enabled(s, Remove(w))
    ensures var now := s.workers[w].now;
            Due(Apply(s, Remove(w)), now) == Due(s, now) - {s.workers[w].page[0]}
  {}

  lemma PushLowersRank(s: State, w: nat)
    requires Enabled(s, Push(w))
    ensures w < |Apply(s, Push(w)).workers| && Rank(Apply(s, Push(w)), w) < Rank(s, w)
  {
    var now := s.workers[w].now;
    assert Due(Apply(s, Push(w)), now) == Due(s, now);
    if s.workers[w].page == [] {
      assert Due(s, now) - Elements(s.workers[w].page) == Due(s, now);
    }
  }

  lemma PageTail(page: seq<Payload>)
    requires page != [] && Distinct(page)
    ensures Elements(page) == Elements(page[1..]) + {page[0]} && page[0] !in Elements(page[1..]) && Distinct(page[1..])
  {
    assert page == [page[0]] + page[1..];
  }

  /** A command of anyone else never takes a promoting worker further from its end. */
  lemma OthersKeepRank(s: State, c: Command, w: nat, now: int)
    requires Enabled(s, c) && FreshMember(s, c) && w < |s.workers| && AtClock(s.workers[w], now)
    requires NothingFallsDue(c, now) && !PromotesFor(c, w)
    ensures w < |Apply(s, c).workers| && Apply(s, c).workers[w] == s.workers[w]
    ensures Rank(Apply(s, c), w) <= Rank(s, w)
  {
    NothingMoreDue(s, c, now);
    OthersLeaveWorker(s, c, w, now);
    RankFollowsDue(s, Apply(s, c), w, now);
  }

  lemma NothingMoreDue(s: State, c: Command, now: int)
    requires Enabled(s, c) && FreshMember(s, c) && NothingFallsDue(c, now)
    ensures Due(Apply(s, c), now) <= Due(s, now)
  {
    hide IsPage;
  }

  lemma OthersLeaveWorker(s: State, c: Command, w: nat, now: int)
    requires Enabled(s, c) && w < |s.workers| && AtClock(s.workers[w], now) && !PromotesFor(c, w)
    ensures w < |Apply(s, c).workers| && Apply(s, c).workers[w] == s.workers[w]
  {
    hide IsPage;
  }

  lemma RankFollowsDue(s: State, s': State, w: nat, now: int)
    requires w < |s.workers| && w < |s'.workers| && s'.workers[w] == s.workers[w] && AtClock(s.workers[w], now)
    requires Due(s', now) <= Due(s, now)
    ensures Rank(s', w) <= Rank(s, w)
  {
    var page := Pending(s.workers[w]);
    DueShrinks(Due(s', now) - page, Due(s, now) - page);
    DueShrinks(Due(s', now), Due(s, now));
    hide Due;
  }

  /** Pages in hand list each member once. */
  ghost predicate PagesDistinct(s: State) {
    forall w :: 0 <= w < |s.workers| && (s.workers[w].Promoting? || s.workers[w].Carrying?) ==>
      Distinct(s.workers[w].page)
  }

  lemma CommandKeepsPages(s: State, c: Command)
    requires PagesDistinct(s) && Enabled(s, c)
    ensures PagesDistinct(Apply(s, c))
  {}

  /** How many of the worker's own promotion commands a history holds. */
  function OwnCommands(history: seq<Command>, w: nat): nat {
    if history == [] then 0
    else OwnCommands(history[..|history| - 1], w) + if PromotesFor(history[|history| - 1], w) then 1 else 0
  }

  /** Throughout the history the worker stays at its clock reading, and nothing else falls due by it. */
  ghost predicate StaysPromoting(s: State, history: seq<Command>, w: nat, now: int) {
    && After(s, history).Some?
    && (forall k :: 0 <= k < |history| ==> NothingFallsDue(history[k], now))
    && (forall k :: 0 <= k < |history| ==>
          && After(s, history[..k]).Some? && w < |After(s, history[..k]).value.workers|
          && AtClock(After(s, history[..k]).value.workers[w], now))
  }

  /**
   * promoteDueJobs terminates: however the other workers interleave, a worker takes no more of its own
   * commands than its rank at the start, as long as no new entry falls due at its fixed clock reading.
   */
  lemma {:induction false} PromotionEnds(s: State, history: seq<Command>, w: nat, now: int)
    requires PagesDistinct(s) && w < |s.workers| && StaysPromoting(s, history, w, now)
    ensures var end := After(s, history).value;
            w < |end.workers| && PagesDistinct(end) && OwnCommands(history, w) + Rank(end, w) <= Rank(s, w)
  {
    if history != [] {
      var k := |history| - 1;
      var front, c := history[..k], history[k];
      StaysBefore(s, history, w, now);
      PromotionEnds(s, front, w, now);
      var before := After(s, front).value;
      hide StaysPromoting, Rank, Apply, Enabled, PagesDistinct;
      CommandKeepsPages(before, c);
      StepLowersRank(before, c, w, now);
    }
  }

  lemma StaysBefore(s: State, history: seq<Command>, w: nat, now: int)
    requires StaysPromoting(s, history, w, now) && history != []
    ensures var front := history[..|history| - 1];
            && StaysPromoting(s, front, w, now)
            && var before := After(s, front).value;
               && w < |before.workers| && AtClock(before.workers[w], now)
    ensures NothingFallsDue(history[|history| - 1], now)
  {
    var k := |history| - 1;
    assert forall j :: 0 <= j <= k ==> history[..k][..j] == history[..j];
    assert After(s, history[..k]).Some?;
  }

  lemma StepLowersRank(s: State, c: Command, w: nat, now: int)
    requires PagesDistinct(s) && Enabled(s, c) && FreshMember(s, c)
    requires w < |s.workers| && AtClock(s.workers[w], now) && NothingFallsDue(c, now)
    ensures w < |Apply(s, c).workers|
    ensures Rank(Apply(s, c), w) + (if PromotesFor(c, w) then 1 else 0) <= Rank(s, w)
  {
    hide Rank, Apply, IsPage;
    if PromotesFor(c, w) {
      match c {
        case Fetch(_, page) => FetchLowersRank(s, w, page);
        case Remove(_) => RemoveLowersRank(s, w);
        case Push(_) => PushLowersRank(s, w);
      }
    } else {
      OthersKeepRank(s, c, w, now);
    }
  }

  // What a promotion that has ended leaves behind

  lemma {:induction false} PageSize(page: seq<Payload>)
    requires Distinct(page)
    ensures |Elements(page)| == |page|
  {
    if page != [] {
      PageTail(page);
      PageSize(page[1..]);
    }
  }

  /** A promotion ends exactly when nothing is due at its clock reading any more. */
  lemma EndsWhenNothingDue(s: State, w: nat, page: seq<Payload>)
    requires Enabled(s, Fetch(w, page))
    ensures w < |Apply(s, Fetch(w, page)).workers|
    ensures Apply(s, Fetch(w, page)).workers[w].Popping? <==> Due(s, s.workers[w].now) == {}
    ensures |page| <= 32 && (|page| < 32 ==> Elements(page) == Due(s, s.workers[w].now))
  {
    var due := Due(s, s.workers[w].now);
    if page != [] {
      assert page[0] in Elements(page);
    } else {
      DueShrinks({}, due);
    }
    PageSize(page);
    DueShrinks(Elements(page), due);
  }

  /** A payload that stays delayed and is not scheduled again keeps its score. */
  lemma CommandKeepsScore(s: State, c: Command, p: Payload)
    requires Enabled(s, c)
    ensures s.scheduled[p] <= Apply(s, c).scheduled[p]
    ensures Apply(s, c).scheduled[p] == s.scheduled[p] && p in Apply(s, c).delayed ==>
              p in s.delayed && Apply(s, c).delayed[p] == s.delayed[p]
  {
    hide IsPage;
  }

  lemma {:induction false} KeepsScore(s: State, history: seq<Command>, p: Payload)
    requires After(s, history).Some?
    ensures var end := After(s, history).value;
            && s.scheduled[p] <= end.scheduled[p]
            && (end.scheduled[p] == s.scheduled[p] && p in end.delayed ==>
                  p in s.delayed && end.delayed[p] == s.delayed[p])
  {
    if history != [] {
      hide Apply, Enabled, FreshMember;
      KeepsScore(s, history[..|history| - 1], p);
      CommandKeepsScore(After(s, history[..|history| - 1]).value, history[|history| - 1], p);
    }
  }

  /** How often the payload has been taken off the delayed set, to be pushed or pushed already. */
  function TakenOff(s: State, p: Payload): nat {
    s.promoted[p] + InHands(s.workers, p)
  }

  /**
   * Whatever commands came between, when a worker finds no page left at its clock reading, every job that was due
   * by it and has not been scheduled again has been taken off the delayed set exactly once: it is in the list, or was
   * popped from it, or is in the hand of a worker that is about to push it.
   */
  lemma DueJobsTakenOnce(s: State, history: seq<Command>, w: nat, now: int, p: Payload)
    requires Conserved(s) && After(s, history).Some? && p in Due(s, now)
    requires var end := After(s, history).value;
             && w < |end.workers| && end.workers[w] == Fetching(now) && Enabled(end, Fetch(w, []))
             && end.scheduled[p] == s.scheduled[p]
    ensures p !in After(s, history).value.delayed
    ensures TakenOff(After(s, history).value, p) == TakenOff(s, p) + 1
  {
    hide After, InHands, Apply;
    var end := After(s, history).value;
    EndsWhenNothingDue(end, w, []);
    FetchedNothing(end, w);
    KeepsScore(s, history, p);
    ConservedAfter(s, history);
    assert ConservedAt(s, p) && ConservedAt(end, p);
    assert p in end.delayed ==> p in Due(end, now);
  }

  predicate KeepsClock(pc: Pc, now: int) {
    AtClock(pc, now) || pc.Popping? || pc.Idle?
  }

  lemma CommandKeepsClock(s: State, c: Command, w: nat, now: int)
    requires Enabled(s, c) && w < |s.workers|
    ensures w < |Apply(s, c).workers|
    ensures c == Begin(w, now) ==> KeepsClock(Apply(s, c).workers[w], now)
    ensures (c.Begin? ==> c.worker != w) && KeepsClock(s.workers[w], now) ==> KeepsClock(Apply(s, c).workers[w], now)
  {
    hide IsPage;
  }

  lemma BeginsInRange(s: State, w: nat, now: int)
    requires Enabled(s, Begin(w, now))
    ensures w < |s.workers|
  {}

  /** A worker keeps to the clock reading it began with until it has popped. */
  lemma {:induction false} ClockKept(s: State, history: seq<Command>, w: nat, now: int)
    requires After(s, history).Some? && history != [] && history[0] == Begin(w, now)
    requires forall k :: 1 <= k < |history| && history[k].Begin? ==> history[k].worker != w
    ensures w < |After(s, history).value.workers| && KeepsClock(After(s, history).value.workers[w], now)
  {
    var front, c := history[..|history| - 1], history[|history| - 1];
    assert c == history[|front|];
    if |history| == 1 {
      assert front == [];
      assert After(s, front) == Some(s);
    }
    hide Apply, Enabled, KeepsClock, FreshMember;
    if |history| == 1 {
      BeginsInRange(s, w, now);
      CommandKeepsClock(s, c, w, now);
    } else {
      ClockKept(s, front, w, now);
      CommandKeepsClock(After(s, front).value, c, w, now);
    }
  }

  /**
   * One Dequeue: whatever comes between its reading of the clock and its finding no page left, every job that was due
   * at that reading has by then been taken off the delayed set exactly once, unless it was scheduled again.
   */
  lemma DequeueTakesAllDue(s: State, history: seq<Command>, w: nat, now: int, p: Payload)
    requires Conserved(s) && p in s.delayed && s.delayed[p] <= now
    requires After(s, history).Some? && history != [] && history[0] == Begin(w, now)
    requires forall k :: 1 <= k < |history| && history[k].Begin? ==> history[k].worker != w
    requires Enabled(After(s, history).value, Fetch(w, [])) && After(s, history).value.scheduled[p] == s.scheduled[p]
    ensures p !in After(s, history).value.delayed
    ensures TakenOff(After(s, history).value, p) == TakenOff(s, p) + 1
  {
    hide After, TakenOff, IsPage;
    ClockKept(s, history, w, now);
    DueJobsTakenOnce(s, history, w, now, p);
  }

  lemma FetchedNothing(s: State, w: nat)
    requires Enabled(s, Fetch(w, []))
    ensures w < |Apply(s, Fetch(w, [])).workers| && Apply(s, Fetch(w, [])).workers[w].Popping?
  {}

  // In what order due jobs are promoted

  ghost predicate ByScore(s: State, ps: seq<Payload>) {
    forall i, j :: 0 <= i < j < |ps| ==> Score(s, ps[i]) <= Score(s, ps[j])
  }

  /** All of the first are due no later than all of the second. */
  ghost predicate NoLater(s: State, ps: seq<Payload>, qs: set<Payload>) {
    forall p, q :: p in ps && q in qs ==> Score(s, p) <= Score(s, q)
  }

  /** What is in the worker's hand is still due, earliest first, and before whatever it has not fetched. */
  ghost predicate HoldsEarliest(s: State, page: seq<Payload>, due: set<Payload>) {
    ByScore(s, page) && Elements(page) <= due && Distinct(page) && NoLater(s, page, due - Elements(page))
  }

  /** How far a lone worker has come since `s`: it has pushed `pushed`, and what is left is due no earlier. */
  ghost predicate EarliestSoFar(s: State, end: State, pushed: seq<Payload>, w: nat, now: int) {
    && w < |end.workers| && end.delayed.Keys <= s.delayed.Keys
    && (forall p :: p in end.delayed ==> end.delayed[p] == s.delayed[p])
    && ByScore(s, pushed) && NoLater(s, pushed, Due(end, now))
    && match end.workers[w]
       case Fetching(n) => n == now
       case Promoting(n, page) => n == now && HoldsEarliest(s, page, Due(end, now))
       case Carrying(n, p, page) =>
         && n == now && HoldsEarliest(s, page, Due(end, now))
         && NoLater(s, [p], Due(end, now)) && NoLater(s, pushed, {p})
       case _ => true
  }

  lemma FetchedEarliest(s: State, end: State, pushed: seq<Payload>, w: nat, now: int, page: seq<Payload>)
    requires EarliestSoFar(s, end, pushed, w, now) && Enabled(end, Fetch(w, page))
    ensures EarliestSoFar(s, Apply(end, Fetch(w, page)), pushed, w, now)
  {
    assert Due(Apply(end, Fetch(w, page)), now) == Due(end, now);
    assert forall p :: p in Due(end, now) ==> Score(end, p) == Score(s, p);
    assert forall p :: p in page ==> p in Elements(page);
  }

  lemma PageSplits(s: State, page: seq<Payload>, due: set<Payload>)
    requires page != [] && HoldsEarliest(s, page, due)
    ensures page[0] in due && HoldsEarliest(s, page[1..], due - {page[0]})
    ensures NoLater(s, [page[0]], due - {page[0]})
  {
    PageTail(page);
    var first, rest := page[0], page[1..];
    assert (due - {first}) - Elements(rest) == due - Elements(page);
    assert forall i :: 0 <= i < |rest| ==> rest[i] == page[i + 1];
    forall q | q in due - {first} ensures Score(s, first) <= Score(s, q) {
      if q in Elements(page) {
        var i :| 0 <= i < |page| && page[i] == q;
        assert i > 0;
      }
    }
  }

  lemma RemovedEarliest(s: State, end: State, pushed: seq<Payload>, w: nat, now: int)
    requires EarliestSoFar(s, end, pushed, w, now) && Enabled(end, Remove(w))
    ensures EarliestSoFar(s, Apply(end, Remove(w)), pushed, w, now)
  {
    var page := end.workers[w].page;
    PageSplits(s, page, Due(end, now));
    RemoveDue(end, w);
    hide HoldsEarliest, ByScore;
  }

  lemma PushedEarliest(s: State, end: State, pushed: seq<Payload>, w: nat, now: int)
    requires EarliestSoFar(s, end, pushed, w, now) && Enabled(end, Push(w))
    ensures EarliestSoFar(s, Apply(end, Push(w)), pushed + [end.workers[w].payload], w, now)
  {
    assert Due(Apply(end, Push(w)), now) == Due(end, now);
    hide HoldsEarliest;
  }

  /**
   * A worker that promotes undisturbed pushes the due jobs in the order in which they fell due, however many pages
   * that takes: each one it pushes is due no later than the next, and than any that is left.
   */
  lemma {:induction false} EarliestFirst(s: State, history: seq<Command>, w: nat, now: int)
    requires w < |s.workers| && s.workers[w] == Fetching(now) && After(s, history).Some?
    requires forall k :: 0 <= k < |history| ==> PromotesFor(history[k], w)
    ensures EarliestSoFar(s, After(s, history).value, Pushed(s, history), w, now)
  {
    if history != [] {
      var front, c := history[..|history| - 1], history[|history| - 1];
      EarliestFirst(s, front, w, now);
      var end := After(s, front).value;
      hide EarliestSoFar, Apply, Enabled;
      match c {
        case Fetch(_, page) => FetchedEarliest(s, end, Pushed(s, front), w, now, page);
        case Remove(_) => RemovedEarliest(s, end, Pushed(s, front), w, now);
        case Push(_) => PushedEarliest(s, end, Pushed(s, front), w, now);
      }
    }
  }
}
