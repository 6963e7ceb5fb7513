/** The control-plane service. A handler takes the coordinator lock and the lock of the pending
    message queues one after the other, so the handlers interleave between their two critical
    sections; each critical section is one step here. */
module ControlPlane {
  import opened Basics
  import opened Protocol
  import opened CoordinatorState
  import opened CoordinatorInvariant
  import opened CoordinatorRuns
  import opened CoordinatorLeases

  /** A cancel handler that has released the coordinator lock but not yet queued its message. */
  datatype Push = Push(message: CoordinatorMessage, workers: set<WorkerId>)

  /** `pushes` and `polls` are the handlers between their two critical sections. `delivered` and
      `holders` record history: the pending messages handed out so far, and the workers that held
      an active lease of a query when it was cancelled. */
  datatype Plane = Plane(
    coordinator: State,
    queues: map<WorkerId, seq<CoordinatorMessage>>,
    pushes: seq<Push>,
    polls: seq<WorkerId>,
    delivered: map<WorkerId, seq<CoordinatorMessage>>,
    holders: map<QueryId, set<WorkerId>>)

  datatype Section =
    | Plain(e: Event)
    | CancelFirst(queryId: QueryId, reason: string)
    | CancelSecond(index: nat)
    | PollFirst(worker: WorkerId, acceptTasks: bool)
    | PollSecond(index: nat, at: U64)

  function MessagesOf(queues: map<WorkerId, seq<CoordinatorMessage>>, w: WorkerId): seq<CoordinatorMessage> {
    if w in queues then queues[w] else []
  }

  function PushAll(queues: map<WorkerId, seq<CoordinatorMessage>>, p: Push): map<WorkerId, seq<CoordinatorMessage>> {
    map w | w in queues.Keys + p.workers ::
      MessagesOf(queues, w) + if w in p.workers then [p.message] else []
  }

  function RemoveAt<T>(s: seq<T>, i: nat): seq<T>
    requires i < |s|
  {
    s[..i] + s[i + 1..]
  }

  /** Requests that run entirely under the coordinator lock. */
  predicate SingleLock(e: Event) { e.Submit? || e.Message? }

  /** One critical section. A section that is not enabled leaves the plane alone. */
  ghost function Next(p: Plane, step: Section): Plane
  {
    match step
    case Plain(e) =>
      if SingleLock(e) then p.(coordinator := Step(p.coordinator, e).0) else p
    case CancelFirst(q, reason) =>
      var workers := ActiveWorkers(p.coordinator, q);
      var (s', r) := Cancel(p.coordinator, q, reason);
      if r.Err? then p
      else
        p.(coordinator := s',
           pushes := if workers == {} then p.pushes else p.pushes + [Push(r.value, workers)],
           holders := if q in p.coordinator.cancelled then p.holders else p.holders[q := workers])
    case CancelSecond(i) =>
      if i < |p.pushes| then p.(queues := PushAll(p.queues, p.pushes[i]), pushes := RemoveAt(p.pushes, i)) else p
    case PollFirst(w, acceptTasks) =>
      var pending := MessagesOf(p.queues, w);
      if pending != [] then
        p.(queues := p.queues[w := pending[1..]],
           delivered := p.delivered[w := MessagesOf(p.delivered, w) + [pending[0]]])
      else if acceptTasks then p.(polls := p.polls + [w])
      else p
    case PollSecond(i, at) =>
      if i < |p.polls| then
        p.(coordinator := Step(p.coordinator, PollFor(p.polls[i], at)).0, polls := RemoveAt(p.polls, i))
      else p
  }

  // ----- counting --------------------------------------------------------------------------

  function IsCancelOf(m: CoordinatorMessage, q: QueryId): nat {
    if m.CancelQuery? && m.queryId == q then 1 else 0
  }

  function CountMessages(messages: seq<CoordinatorMessage>, q: QueryId): nat {
    if messages == [] then 0 else IsCancelOf(messages[0], q) + CountMessages(messages[1..], q)
  }

  function CountPushes(pushes: seq<Push>, q: QueryId, w: WorkerId): nat {
    if pushes == [] then 0
    else (if w in pushes[0].workers then IsCancelOf(pushes[0].message, q) else 0) + CountPushes(pushes[1..], q, w)
  }

  /** Cancellation messages about `q` that `w` has been, is being or will be sent. */
  function Total(p: Plane, q: QueryId, w: WorkerId): nat {
    CountMessages(MessagesOf(p.queues, w), q)
    + CountMessages(MessagesOf(p.delivered, w), q)
    + CountPushes(p.pushes, q, w)
  }

  lemma {:induction false} CountMessagesConcat(a: seq<CoordinatorMessage>, b: seq<CoordinatorMessage>, q: QueryId)
    ensures CountMessages(a + b, q) == CountMessages(a, q) + CountMessages(b, q)
  {
    if a == [] {
      assert a + b == b;
    } else {
      assert (a + b)[0] == a[0] && (a + b)[1..] == a[1..] + b;
      CountMessagesConcat(a[1..], b, q);
    }
  }

  lemma {:induction false} CountPushesConcat(a: seq<Push>, b: seq<Push>, q: QueryId, w: WorkerId)
    ensures CountPushes(a + b, q, w) == CountPushes(a, q, w) + CountPushes(b, q, w)
  {
    if a == [] {
      assert a + b == b;
    } else {
      assert (a + b)[0] == a[0] && (a + b)[1..] == a[1..] + b;
      CountPushesConcat(a[1..], b, q, w);
    }
  }

  lemma CountPushesRemove(pushes: seq<Push>, i: nat, q: QueryId, w: WorkerId)
    requires i < |pushes|
    ensures CountPushes(pushes, q, w) ==
            CountPushes(RemoveAt(pushes, i), q, w)
            + if w in pushes[i].workers then IsCancelOf(pushes[i].message, q) else 0
  {
    assert pushes == pushes[..i] + ([pushes[i]] + pushes[i + 1..]);
    CountPushesConcat(pushes[..i], [pushes[i]] + pushes[i + 1..], q, w);
    assert ([pushes[i]] + pushes[i + 1..])[1..] == pushes[i + 1..];
    CountPushesConcat(pushes[..i], pushes[i + 1..], q, w);
  }

  // ----- invariant -------------------------------------------------------------------------

  function Held(holders: map<QueryId, set<WorkerId>>, q: QueryId, w: WorkerId): nat {
    if q in holders && w in holders[q] then 1 else 0
  }

  ghost predicate PlaneInv(p: Plane) {
    && Inv(p.coordinator)
    && p.holders.Keys == p.coordinator.cancelled.Keys
    && forall q, w :: Total(p, q, w) == Held(p.holders, q, w)
  }

  lemma PlainKeeps(p: Plane, e: Event)
    requires PlaneInv(p) && SingleLock(e)
    ensures PlaneInv(Next(p, Plain(e)))
  {
    StepInv(p.coordinator, e);
    MessageKeepsCancelled(p.coordinator, e);
    hide Step;
    var p' := Next(p, Plain(e));
    forall q, w ensures Total(p', q, w) == Held(p'.holders, q, w) { assert Total(p, q, w) == Held(p.holders, q, w); }
  }

  lemma MessageKeepsCancelled(s: State, e: Event)
    requires Inv(s) && (SingleLock(e) || e.PollFor?)
    ensures Step(s, e).0.cancelled == s.cancelled
  {
    if e.PollFor? {
      PollKeepsCancelled(s, e);
    } else if e.Message? && ValidWorkerMessage(e.message) {
      HandleAtKeepsCancelled(AdvanceTime(s, e.at), e.message, e.at);
      hide HandleAt;
    }
  }

  lemma PollKeepsCancelled(s: State, e: Event)
    requires Inv(s) && e.PollFor?
    ensures Step(s, e).0.cancelled == s.cancelled
  {
    PollOutcomes(s, e);
    hide Step; hide Schedulable;
    if k, i, w :| Leases(s, e, k, i, w) {}
  }

  lemma HandleAtKeepsCancelled(s: State, message: WorkerMessage, now: U64)
    ensures HandleAt(s, message, now).Ok? ==> HandleAt(s, message, now).value.cancelled == s.cancelled
  {
  }

  lemma CancelSecondKeeps(p: Plane, i: nat)
    requires PlaneInv(p) && i < |p.pushes|
    ensures PlaneInv(Next(p, CancelSecond(i)))
  {
    var p' := Next(p, CancelSecond(i));
    hide Inv;
    hide Total;
    forall q, w ensures Total(p', q, w) == Held(p'.holders, q, w) {
      assert Total(p, q, w) == Held(p.holders, q, w);
      PushedTotal(p, i, q, w);
    }
  }

  /** Handing a push to its workers moves the cancellation, and neither loses nor repeats it. */
  lemma PushedTotal(p: Plane, i: nat, q: QueryId, w: WorkerId)
    requires i < |p.pushes|
    ensures Total(Next(p, CancelSecond(i)), q, w) == Total(p, q, w)
  {
    var p', push := Next(p, CancelSecond(i)), p.pushes[i];
    CountPushesRemove(p.pushes, i, q, w);
    var more := if w in push.workers then [push.message] else [];
    assert MessagesOf(p'.queues, w) == MessagesOf(p.queues, w) + more;
    CountMessagesConcat(MessagesOf(p.queues, w), more, q);
    assert CountMessages(more, q) == if w in push.workers then IsCancelOf(push.message, q) else 0;
  }

  lemma PollFirstKeeps(p: Plane, w: WorkerId, acceptTasks: bool)
    requires PlaneInv(p)
    ensures PlaneInv(Next(p, PollFirst(w, acceptTasks)))
  {
    var p' := Next(p, PollFirst(w, acceptTasks));
    hide Inv;
    var pending := MessagesOf(p.queues, w);
    forall q, v ensures Total(p', q, v) == Held(p'.holders, q, v) {
      assert Total(p, q, v) == Held(p.holders, q, v);
      if pending != [] && v == w {
        CountMessagesConcat(MessagesOf(p.delivered, w), [pending[0]], q);
        assert CountMessages([pending[0]], q) == IsCancelOf(pending[0], q);
      }
    }
  }

  lemma PollSecondKeeps(p: Plane, i: nat, at: U64)
    requires PlaneInv(p) && i < |p.polls|
    ensures PlaneInv(Next(p, PollSecond(i, at)))
  {
    var e := PollFor(p.polls[i], at);
    StepInv(p.coordinator, e);
    MessageKeepsCancelled(p.coordinator, e);
    hide Step;
    var p' := Next(p, PollSecond(i, at));
    forall q, w ensures Total(p', q, w) == Held(p'.holders, q, w) { assert Total(p, q, w) == Held(p.holders, q, w); }
  }

  /** A query that is already cancelled has no active lease left, so repeating the request
      queues nothing. */
  lemma CancelledHasNoActive(s: State, q: QueryId)
    requires Inv(s) && q in s.cancelled
    ensures ActiveWorkers(s, q) == {}
  {
    forall k: StageKey, i | k.0 == q && s.Has(k, i) ensures !s.At(k, i).Active? {
      assert PartitionOk(s, k, i, s.At(k, i));
    }
  }

  lemma CancelFirstKeeps(p: Plane, q: QueryId, reason: string)
    requires PlaneInv(p)
    ensures PlaneInv(Next(p, CancelFirst(q, reason)))
  {
    CancelInv(p.coordinator, q, reason);
    CancelFacts(p.coordinator, q, reason);
    CancelFirstShape(p, q, reason);
    hide Inv; hide Cancel; hide ActiveWorkers; hide Next; hide Total;
    var p' := Next(p, CancelFirst(q, reason));
    forall q', w ensures Total(p', q', w) == Held(p'.holders, q', w) {
      CancelFirstTotal(p, q, reason, q', w);
    }
  }

  lemma CancelFirstTotal(p: Plane, q: QueryId, reason: string, q': QueryId, w: WorkerId)
    requires PlaneInv(p)
    ensures var p' := Next(p, CancelFirst(q, reason)); Total(p', q', w) == Held(p'.holders, q', w)
  {
    var s := p.coordinator;
    if q in s.cancelled { CancelledHasNoActive(s, q); }
    assert Total(p, q', w) == Held(p.holders, q', w);
    CancelFacts(s, q, reason);
    CancelFirstShape(p, q, reason);
    hide Cancel; hide ActiveWorkers; hide Next; hide Total;
    var p' := Next(p, CancelFirst(q, reason));
    if Cancel(s, q, reason).1.Ok? {
      CancelCounts(p, p', q, reason, ActiveWorkers(s, q), q', w);
    } else {
      SameTotal(p, p', q', w);
    }
  }

  lemma SameTotal(p: Plane, p': Plane, q: QueryId, w: WorkerId)
    requires p'.queues == p.queues && p'.delivered == p.delivered && p'.pushes == p.pushes
    ensures Total(p', q, w) == Total(p, q, w)
  {
  }

  /** A first cancellation adds one in-flight message per holder; a repeated one adds nothing. */
  lemma CancelCounts(p: Plane, p': Plane, q: QueryId, reason: string, workers: set<WorkerId>, q': QueryId, w: WorkerId)
    requires Total(p, q', w) == Held(p.holders, q', w)
    requires p'.queues == p.queues && p'.delivered == p.delivered
    requires q in p.holders ==> workers == {} && p'.holders == p.holders
    requires q !in p.holders ==> p'.holders == p.holders[q := workers]
    requires p'.pushes == if workers == {} then p.pushes
                          else p.pushes + [Push(CancelQuery(PROTOCOL_VERSION, q, reason), workers)]
    ensures Total(p', q', w) == Held(p'.holders, q', w)
  {
    CountPushesAppend(p.pushes, Push(CancelQuery(PROTOCOL_VERSION, q, reason), workers), q', w);
  }

  lemma CountPushesAppend(pushes: seq<Push>, push: Push, q: QueryId, w: WorkerId)
    ensures CountPushes(pushes + [push], q, w) ==
            CountPushes(pushes, q, w) + if w in push.workers then IsCancelOf(push.message, q) else 0
  {
    CountPushesConcat(pushes, [push], q, w);
    assert [push][1..] == [];
  }

  lemma CancelFirstShape(p: Plane, q: QueryId, reason: string)
    ensures var p' := Next(p, CancelFirst(q, reason));
      var (s', r) := Cancel(p.coordinator, q, reason);
      var workers := ActiveWorkers(p.coordinator, q);
      && p'.queues == p.queues && p'.delivered == p.delivered
      && p'.coordinator == (if r.Ok? then s' else p.coordinator)
      && p'.pushes == (if r.Ok? && workers != {} then p.pushes + [Push(r.value, workers)] else p.pushes)
      && p'.holders == (if r.Ok? && q !in p.coordinator.cancelled then p.holders[q := workers] else p.holders)
  {
  }

  lemma CancelFacts(s: State, q: QueryId, reason: string)
    ensures var (s', r) := Cancel(s, q, reason);
      && (r.Ok? ==> r.value == CancelQuery(PROTOCOL_VERSION, q, reason))
      && (r.Ok? ==> s'.cancelled.Keys == s.cancelled.Keys + {q})
      && (r.Ok? && q in s.cancelled ==> s' == s)
  {
  }

  lemma NextKeeps(p: Plane, step: Section)
    requires PlaneInv(p)
    ensures PlaneInv(Next(p, step))
  {
    match step
    case Plain(e) => if SingleLock(e) { PlainKeeps(p, e); }
    case CancelFirst(q, reason) => CancelFirstKeeps(p, q, reason);
    case CancelSecond(i) => if i < |p.pushes| { CancelSecondKeeps(p, i); }
    case PollFirst(w, acceptTasks) => PollFirstKeeps(p, w, acceptTasks);
    case PollSecond(i, at) => if i < |p.polls| { PollSecondKeeps(p, i, at); }
  }

  // ----- interleavings ---------------------------------------------------------------------

  function Start(config: Config): Plane { Plane(Init(config), map[], [], [], map[], map[]) }

  /** An interleaving of handler sections, as the sequence of planes it goes through. */
  ghost predicate Interleaving(config: Config, steps: seq<Section>, planes: seq<Plane>) {
    && ValidConfig(config)
    && |planes| == |steps| + 1 && planes[0] == Start(config)
    && forall n | 0 <= n < |steps| :: Advances(steps, planes, n)
  }

  ghost predicate Advances(steps: seq<Section>, planes: seq<Plane>, n: int)
    requires 0 <= n < |steps| && |planes| == |steps| + 1
  {
    planes[n + 1] == Next(planes[n], steps[n])
  }

  lemma {:induction false} InterleavingInv(config: Config, steps: seq<Section>, planes: seq<Plane>, n: nat)
    requires Interleaving(config, steps, planes) && n < |planes|
    ensures PlaneInv(planes[n])
  {
    if n == 0 {
      InitInv(config);
    } else {
      InterleavingInv(config, steps, planes, n - 1);
      assert Advances(steps, planes, n - 1);
      NextKeeps(planes[n - 1], steps[n - 1]);
    }
  }

  lemma HoldersRecorded(p: Plane, q: QueryId, reason: string)
    requires PlaneInv(p) && q !in p.coordinator.cancelled && Cancel(p.coordinator, q, reason).1.Ok?
    ensures q in Next(p, CancelFirst(q, reason)).holders
    ensures Next(p, CancelFirst(q, reason)).holders[q] == ActiveWorkers(p.coordinator, q)
  {
  }

  lemma {:induction false} HoldersKept(config: Config, steps: seq<Section>, planes: seq<Plane>, m: nat, n: nat, q: QueryId)
    requires Interleaving(config, steps, planes) && m <= n < |planes| && q in planes[m].holders
    ensures q in planes[n].holders && planes[n].holders[q] == planes[m].holders[q]
    decreases n
  {
    if m < n {
      HoldersKept(config, steps, planes, m, n - 1, q);
      InterleavingInv(config, steps, planes, n - 1);
      assert Advances(steps, planes, n - 1);
    }
  }

  /** However the handlers interleave: a successful first cancellation of `q` (section `m`) sends
      exactly one `CancelQuery` to each worker that held an active lease at that moment and none
      to any other worker, from then on; it is queued or already delivered as soon as no push is
      in flight. */
  lemma CancellationReachesHoldersOnce(config: Config, steps: seq<Section>, planes: seq<Plane>,
                                       m: nat, n: nat, q: QueryId, reason: string, w: WorkerId)
    requires Interleaving(config, steps, planes) && m < n < |planes|
    requires steps[m] == CancelFirst(q, reason)
    requires q !in planes[m].coordinator.cancelled && Cancel(planes[m].coordinator, q, reason).1.Ok?
    ensures Total(planes[n], q, w) == if w in ActiveWorkers(planes[m].coordinator, q) then 1 else 0
    ensures planes[n].pushes == [] ==>
      CountMessages(MessagesOf(planes[n].queues, w), q) + CountMessages(MessagesOf(planes[n].delivered, w), q) ==
      if w in ActiveWorkers(planes[m].coordinator, q) then 1 else 0
  {
    InterleavingInv(config, steps, planes, m);
    InterleavingInv(config, steps, planes, n);
    assert Advances(steps, planes, m);
    hide Inv; hide Cancel; hide ActiveWorkers;
    HoldersRecorded(planes[m], q, reason);
    HoldersKept(config, steps, planes, m + 1, n, q);
    assert Total(planes[n], q, w) == Held(planes[n].holders, q, w);
  }
}
