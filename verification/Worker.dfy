/** The worker loop run against the coordinator. Everything other workers and clients do may
    happen between any two requests of this worker; the clock never runs backwards. */
module Worker {
  import opened Basics
  import opened Protocol
  import opened CoordinatorState
  import opened CoordinatorInvariant
  import opened CoordinatorRuns
  import opened CoordinatorLeases
  import opened CoordinatorCommits

  /** Where the loop is: waiting for its next event, or holding a task whose start or end it has
      yet to report, or gone after an error. */
  datatype Phase =
    | Waiting
    | Offered(task: TaskAttemptId, lease: TaskLease)
    | Finishing(task: TaskAttemptId, lease: TaskLease)
    | Stopped

  datatype Loop = Loop(
    coordinator: State,
    worker: WorkerId,
    slots: U32,
    memory: U64,
    active: map<TaskAttemptId, TaskLease>,
    phase: Phase,
    clock: U64,
    lastObserved: U64)
  {
    /** The running tasks and the one in hand. */
    function Known(): map<TaskAttemptId, TaskLease> {
      if phase.Offered? || phase.Finishing? then active[phase.task := phase.lease] else active
    }
  }

  datatype Turn =
    | Others(e: Event)
    | Beat(observed: U64, at: U64, freeMemory: U64)
    | PollTurn(at: U64)
    | ReportStart(at: U64)
    | Complete(task: TaskAttemptId)
    | ReportEnd(at: U64, state: TaskState)

  function Sender(message: WorkerMessage): WorkerId {
    match message
    case Register(_, r) => r.workerId
    case Heartbeat(_, h) => h.workerId
    case TaskUpdate(_, w, _, _) => w
  }

  /** A request made by anyone but worker `w`. */
  predicate Foreign(e: Event, w: WorkerId) {
    match e
    case Submit(_) => true
    case RequestCancel(_, _) => true
    case Message(message, _) => Sender(message) != w
    case PollFor(v, _) => v != w
    case Poll(_) => false
    case Clock(_) => false
  }

  function TimeOf(e: Event, clock: U64): U64 {
    if e.Message? || e.PollFor? then e.at else clock
  }

  /** A turn that may happen now. */
  predicate Enabled(l: Loop, turn: Turn) {
    match turn
    case Others(e) => Foreign(e, l.worker) && l.clock <= TimeOf(e, l.clock)
    case Beat(observed, at, free) =>
      l.phase.Waiting? && l.lastObserved <= observed <= at && l.clock <= at && free <= l.memory
    case PollTurn(at) => l.phase.Waiting? && l.clock <= at
    case ReportStart(at) => l.phase.Offered? && l.clock <= at
    case Complete(task) => l.phase.Waiting? && task in l.active
    case ReportEnd(at, state) =>
      l.phase.Finishing? && l.clock <= at && !state.Running? && state.finishedAt == l.phase.lease.issuedAt
  }

  function BeatMessage(l: Loop, observed: U64, free: U64): WorkerMessage {
    Heartbeat(PROTOCOL_VERSION,
              WorkerHeartbeat(l.worker, observed, SaturatingSub(l.slots, |l.active|), free))
  }

  function UpdateMessage(l: Loop, task: TaskAttemptId, state: TaskState): WorkerMessage {
    TaskUpdate(PROTOCOL_VERSION, l.worker, task, state)
  }

  /** After reporting what is in hand: go on unless the error is anything but `TaskSuperseded`. */
  function AfterReport(reply: Reply): Phase {
    if reply.Refused? && reply.error != TaskSuperseded then Stopped else Waiting
  }

  ghost function Next(l: Loop, turn: Turn): Loop
  {
    if !Enabled(l, turn) then l
    else
      match turn
      case Others(e) => l.(coordinator := Step(l.coordinator, e).0, clock := TimeOf(e, l.clock))
      case Beat(observed, at, free) =>
        var (s', reply) := Step(l.coordinator, Message(BeatMessage(l, observed, free), at));
        l.(coordinator := s', clock := at, lastObserved := observed,
           phase := if reply.Refused? then Stopped else Waiting)
      case PollTurn(at) =>
        if |l.active| >= l.slots then l.(clock := at)
        else
          var (s', reply) := Step(l.coordinator, PollFor(l.worker, at));
          l.(coordinator := s', clock := at, phase := AfterPoll(l, reply))
      case ReportStart(at) =>
        var (s', reply) := Step(l.coordinator,
                                Message(UpdateMessage(l, l.phase.task, Running(l.phase.lease.issuedAt)), at));
        l.(coordinator := s', clock := at, phase := AfterReport(reply),
           active := if reply.Ack? then l.active[l.phase.task := l.phase.lease] else l.active)
      case Complete(task) =>
        l.(active := l.active - {task}, phase := Finishing(task, l.active[task]))
      case ReportEnd(at, state) =>
        var (s', reply) := Step(l.coordinator, Message(UpdateMessage(l, l.phase.task, state), at));
        l.(coordinator := s', clock := at, phase := AfterReport(reply))
  }

  /** A lease for someone else, or beyond the slots, would end the loop. */
  function AfterPoll(l: Loop, reply: Reply): Phase {
    if reply.Refused? then Stopped
    else if !reply.Sent? || reply.message.None? || !reply.message.value.AssignTask? then Waiting
    else
      var message := reply.message.value;
      if message.lease.workerId != l.worker || |l.active| >= l.slots then Stopped
      else Offered(message.task, message.lease)
  }

  // ----- who holds what --------------------------------------------------------------------

  /** A call neither creates nor alters a holding, except that a poll leases one and a start
      report by the holder records the start time. */
  ghost predicate SameHolding(s: State, e: Event, s': State, k: StageKey, i: int, v: WorkerId)
    requires s'.Has(k, i) && s'.At(k, i).HeldBy(v)
  {
    && s.Has(k, i) && s.At(k, i).HeldBy(v)
    && s'.At(k, i).task == s.At(k, i).task && s'.At(k, i).lease == s.At(k, i).lease
    && (s'.At(k, i).Active? ==>
          && s.At(k, i).Active?
          && (|| s'.At(k, i).startedAt == s.At(k, i).startedAt
              || (e.Message? && e.message.TaskUpdate? && e.message.workerId == v
                  && e.message.task == s.At(k, i).task && e.message.state.Running?
                  && s'.At(k, i).startedAt == Some(e.message.state.startedAt))))
  }

  lemma ClockHoldings(s: State, now: U64, e: Event, k: StageKey, i: int, v: WorkerId)
    requires AdvanceTime(s, now).Has(k, i) && AdvanceTime(s, now).At(k, i).HeldBy(v)
    ensures SameHolding(s, e, AdvanceTime(s, now), k, i, v)
    ensures AdvanceTime(s, now).At(k, i) == s.At(k, i) && s.At(k, i).lease.expiresAt > now
  {
    AdvanceReads(s, now);
  }

  lemma LeaseReads(s: State, e: Event, k: StageKey, i: int, w: WorkerId)
    requires Inv(s) && Leases(s, e, k, i, w)
    ensures var now, s' := AdvanceTime(s, e.at), Step(s, e).0;
      && (forall k', i' :: s'.Has(k', i') <==> now.Has(k', i'))
      && (forall k', i' | now.Has(k', i') && (k', i') != (k, i) :: s'.At(k', i') == now.At(k', i'))
      && s'.Has(k, i) && s'.At(k, i).Active? && s'.At(k, i).workerId == w
  {
    AdvanceInv(s, e.at);
    hide Step; hide Schedulable; hide Inv; hide AdvanceTime; hide Take;
    TakeReads(AdvanceTime(s, e.at), k, i, w, e.at);
  }

  lemma PollHoldings(s: State, e: Event, k: StageKey, i: int, v: WorkerId)
    requires Inv(s) && (e.Poll? || e.PollFor?) && Step(s, e).0.Has(k, i) && Step(s, e).0.At(k, i).HeldBy(v)
    ensures SameHolding(s, e, Step(s, e).0, k, i, v) || Leases(s, e, k, i, v)
  {
    var leased, k', i', w := PollCase(s, e);
    hide Step; hide AdvanceTime; hide SameHolding; hide Leases;
    var now := AdvanceTime(s, e.at);
    if !leased {
      ClockHoldings(s, e.at, e, k, i, v);
    } else {
      LeaseReads(s, e, k', i', w);
      if (k', i') != (k, i) {
        ClockHoldings(s, e.at, e, k, i, v);
        SameHoldingAt(s, e, now, Step(s, e).0, k, i, v);
      }
    }
  }

  lemma PollCase(s: State, e: Event) returns (leased: bool, k: StageKey, i: int, w: WorkerId)
    requires Inv(s) && (e.Poll? || e.PollFor?)
    ensures leased ==> Leases(s, e, k, i, w)
    ensures !leased ==> Step(s, e).0 == AdvanceTime(s, e.at)
  {
    PollOutcomes(s, e);
    hide Step; hide AdvanceTime; hide Leases;
    if k', i', w' :| Leases(s, e, k', i', w') {
      leased, k, i, w := true, k', i', w';
    } else {
      leased, k, i, w := false, ("", 0), 0, "";
    }
  }

  lemma SameHoldingAt(s: State, e: Event, s': State, s'': State, k: StageKey, i: int, v: WorkerId)
    requires s'.Has(k, i) && s''.Has(k, i) && s'.At(k, i) == s''.At(k, i) && s'.At(k, i).HeldBy(v)
    requires SameHolding(s, e, s', k, i, v)
    ensures SameHolding(s, e, s'', k, i, v)
  {
  }

  lemma UpdateHoldings(s: State, e: Event, k: StageKey, i: int, v: WorkerId)
    requires e.Message? && e.message.TaskUpdate?
    requires RecordTaskUpdate(s, e.message.workerId, e.message.task, e.message.state, e.at).Ok?
    requires var s' := RecordTaskUpdate(s, e.message.workerId, e.message.task, e.message.state, e.at).value;
      s'.Has(k, i) && s'.At(k, i).HeldBy(v)
    ensures var s' := RecordTaskUpdate(s, e.message.workerId, e.message.task, e.message.state, e.at).value;
      SameHolding(s, e, s', k, i, v)
  {
    var task, state := e.message.task, e.message.state;
    var k', i' := KeyOf(task), task.partitionId;
    var p := s.At(k', i');
    var p' := if p.Cancelling? then Withdrawn
              else if state.Running? then p.(startedAt := Some(state.startedAt))
              else Conclude(s.config.maxTaskAttempts, task, state);
    var s' := RecordTaskUpdate(s, e.message.workerId, task, state, e.at).value;
    if s' != s {
      PutReads(s, k', i', p');
      assert s'.stages == s.Put(k', i', p').stages;
      assert s'.Has(k, i) <==> s.Put(k', i', p').Has(k, i);
    }
  }

  lemma MessageHoldings(s: State, e: Event, k: StageKey, i: int, v: WorkerId)
    requires Inv(s) && e.Message? && Step(s, e).0.Has(k, i) && Step(s, e).0.At(k, i).HeldBy(v)
    ensures SameHolding(s, e, Step(s, e).0, k, i, v)
  {
    if ValidWorkerMessage(e.message) {
      var now := AdvanceTime(s, e.at);
      var r := HandleAt(now, e.message, e.at);
      assert Step(s, e).0 == if r.Ok? then r.value else now;
      if r.Ok? && e.message.TaskUpdate? {
        UpdateHoldings(now, e, k, i, v);
      }
      hide RecordTaskUpdate; hide ValidWorkerMessage; hide AdvanceTime; hide Inv; hide Step;
      assert now.Has(k, i) && now.At(k, i).HeldBy(v) && SameHolding(now, e, Step(s, e).0, k, i, v);
      ClockHoldings(s, e.at, e, k, i, v);
    }
  }

  lemma StepHoldings(s: State, e: Event, k: StageKey, i: int, v: WorkerId)
    requires Inv(s) && Step(s, e).0.Has(k, i) && Step(s, e).0.At(k, i).HeldBy(v)
    ensures SameHolding(s, e, Step(s, e).0, k, i, v) || ((e.Poll? || e.PollFor?) && Leases(s, e, k, i, v))
  {
    match e
    case Submit(plan) =>
    case Message(_, _) => MessageHoldings(s, e, k, i, v);
    case Poll(_) => PollHoldings(s, e, k, i, v);
    case PollFor(_, _) => PollHoldings(s, e, k, i, v);
    case RequestCancel(q, reason) => CancelReads(s, q, reason);
    case Clock(at) => ClockHoldings(s, at, e, k, i, v);
  }

  /** Attempt `t` was leased to `w`, and whenever it still speaks for its partition it is `w` that
      holds it, under the same lease. In particular nobody else can have committed it. */
  ghost predicate Ours(s: State, w: WorkerId, t: TaskAttemptId, lease: TaskLease) {
    && s.Has(KeyOf(t), t.partitionId)
    && t.attempt < s.config.maxTaskAttempts
    && var p := s.At(KeyOf(t), t.partitionId);
    && Rank(s.config, p) > t.attempt
    && (Speaks(p, t) ==>
          && p.HeldBy(w) && p.lease == lease
          && (p.Active? ==> p.startedAt == None || p.startedAt == Some(lease.issuedAt)))
  }

  /** The one report that ends our claim on `t`: success, reported by us. */
  predicate SuccessBy(e: Event, w: WorkerId, t: TaskAttemptId) {
    && e.Message? && e.message.TaskUpdate? && e.message.workerId == w && e.message.task == t
    && e.message.state.Succeeded?
  }

  /** Start reports about `t` by `w` carry the issue time of the lease. */
  predicate HonestStart(e: Event, w: WorkerId, t: TaskAttemptId, lease: TaskLease) {
    (e.Message? && e.message.TaskUpdate? && e.message.workerId == w && e.message.task == t
     && e.message.state.Running?) ==>
      e.message.state.startedAt == lease.issuedAt
  }

  lemma OursKept(s: State, e: Event, w: WorkerId, t: TaskAttemptId, lease: TaskLease)
    requires Inv(s) && Ours(s, w, t, lease) && !SuccessBy(e, w, t) && HonestStart(e, w, t, lease)
    ensures Ours(Step(s, e).0, w, t, lease)
  {
    hide Step; hide Inv;
    StepEvolves(s, e);
    StepInv(s, e);
    var s' := Step(s, e).0;
    var k, i := KeyOf(t), t.partitionId;
    var p' := s'.At(k, i);
    if Speaks(p', t) {
      if p'.Live() {
        StepHoldings(s, e, k, i, p'.workerId);
        if (e.Poll? || e.PollFor?) && Leases(s, e, k, i, p'.workerId) {
          LeaseFacts(s, e, k, i, p'.workerId);
        }
      } else {
        DoneWasHeld(s, e, w, t, lease);
      }
    }
  }

  /** Our attempt is not committed behind our back. */
  lemma DoneWasHeld(s: State, e: Event, w: WorkerId, t: TaskAttemptId, lease: TaskLease)
    requires Inv(s) && Ours(s, w, t, lease) && !SuccessBy(e, w, t)
    requires Step(s, e).0.Has(KeyOf(t), t.partitionId)
    ensures var p' := Step(s, e).0.At(KeyOf(t), t.partitionId); !(p'.Done? && p'.task == t)
  {
    var k, i := KeyOf(t), t.partitionId;
    var p' := Step(s, e).0.At(k, i);
    hide Step; hide Inv;
    if p'.Done? && p'.task == t {
      if !s.At(k, i).Done? {
        CommitNeedsOwner(s, e, k, i);
        ClockHoldings(s, e.at, e, k, i, AdvanceTime(s, e.at).At(k, i).workerId);
        assert false;
      } else {
        StepEvolves(s, e);
        assert false;
      }
    }
  }

  // ----- the invariant of the loop ---------------------------------------------------------

  /** Every live lease of the worker is one it knows. */
  ghost predicate Covered(s: State, w: WorkerId, known: map<TaskAttemptId, TaskLease>) {
    forall k, i | s.Has(k, i) && s.At(k, i).HeldBy(w) :: s.At(k, i).task in known
  }

  ghost predicate KnownOk(l: Loop) {
    && Covered(l.coordinator, l.worker, l.Known())
    && (forall t | t in l.Known() ::
          && Ours(l.coordinator, l.worker, t, l.Known()[t])
          && l.Known()[t].issuedAt <= l.clock && l.Known()[t].workerId == l.worker)
    && |l.Known()| <= l.slots
    && (l.phase.Offered? || l.phase.Finishing? ==> l.phase.task !in l.active)
  }

  ghost predicate LoopInv(l: Loop) {
    && Inv(l.coordinator)
    && l.worker in l.coordinator.workers
    && l.coordinator.workers[l.worker].registration == WorkerRegistration(l.worker, l.slots, l.memory)
    && l.coordinator.workers[l.worker].lastObserved <= l.lastObserved
    && (!l.phase.Stopped? ==> KnownOk(l))
  }

  lemma {:induction false} ImageSize<A, B>(a: set<A>, b: set<B>, f: A -> B)
    requires forall x | x in b :: exists y :: y in a && f(y) == x
    ensures |b| <= |a|
    decreases a
  {
    if b != {} {
      var x :| x in b;
      var y :| y in a && f(y) == x;
      var rest := set z | z in a && f(z) != x;
      forall x' | x' in b - {x} ensures exists y' :: y' in rest && f(y') == x' {
        var y' :| y' in a && f(y') == x';
        assert y' in rest;
      }
      assert y !in rest;
      ImageSize(rest, b - {x}, f);
      SubsetCardinality(rest, a - {y});
    }
  }

  /** The coordinator never counts more live tasks for a worker than the worker knows. */
  lemma LiveTasksKnown(s: State, w: WorkerId, known: map<TaskAttemptId, TaskLease>)
    requires Inv(s) && Covered(s, w, known)
    ensures |LiveTasks(s, w)| <= |known|
  {
    var f := (t: TaskAttemptId) => (KeyOf(t), t.partitionId as int);
    forall x | x in LiveTasks(s, w) ensures exists t :: t in known.Keys && f(t) == x {
      var (k, i) := x;
      assert s.Has(k, i) && s.At(k, i).HeldBy(w) && PartitionOk(s, k, i, s.At(k, i));
      assert f(s.At(k, i).task) == x;
    }
    ImageSize(known.Keys, LiveTasks(s, w), f);
    assert |known.Keys| == |known|;
  }

  lemma CoveredKept(s: State, e: Event, w: WorkerId, known: map<TaskAttemptId, TaskLease>)
    requires Inv(s) && Covered(s, w, known) && !e.Poll? && (e.PollFor? ==> e.worker != w)
    ensures Covered(Step(s, e).0, w, known)
  {
    var s' := Step(s, e).0;
    hide Step; hide Inv;
    forall k, i | s'.Has(k, i) && s'.At(k, i).HeldBy(w) ensures s'.At(k, i).task in known {
      StepHoldings(s, e, k, i, w);
    }
  }

  lemma KnownAtClock(l: Loop, at: U64)
    requires LoopInv(l) && !l.phase.Stopped?
    ensures Covered(AdvanceTime(l.coordinator, at), l.worker, l.Known())
  {
    var s, w := l.coordinator, l.worker;
    var now := AdvanceTime(s, at);
    hide Inv; hide AdvanceTime; hide Ours;
    forall k, i | now.Has(k, i) && now.At(k, i).HeldBy(w) ensures now.At(k, i).task in l.Known() {
      ClockHoldings(s, at, Clock(at), k, i, w);
    }
  }

  lemma WorkerReads(s: State, w: WorkerId)
    requires Inv(s) && w in s.workers
    ensures WorkerOk(s, w)
  {
  }

  lemma ClockWorker(s: State, at: U64, w: WorkerId)
    requires w in s.workers
    ensures w in AdvanceTime(s, at).workers
    ensures var v := AdvanceTime(s, at).workers[w];
      v.registration == s.workers[w].registration && v.lastObserved == s.workers[w].lastObserved
  {
  }

  lemma BeatFits(s: State, now: State, at: U64, h: WorkerHeartbeat, count: nat)
    requires Inv(s) && now == AdvanceTime(s, at) && h.workerId in s.workers
    requires s.workers[h.workerId].lastObserved <= h.observedAt
    requires |LiveTasks(now, h.workerId)| <= count
    requires h.availableSlots == SaturatingSub(s.workers[h.workerId].registration.slots, count)
    requires h.availableMemory <= s.workers[h.workerId].registration.memoryBytes
    ensures Step(s, Message(Heartbeat(PROTOCOL_VERSION, h), at)).1 == Ack
  {
    hide Inv; hide LiveTasks; hide ValidTextId; hide ActiveWorkers;
    WorkerReads(s, h.workerId);
    ClockWorker(s, at, h.workerId);
    hide AdvanceTime;
    assert RecordHeartbeat(now, h, at).Ok?;
  }

  /** A heartbeat of a waiting worker is always accepted: the slots it reports are possible, its
      clock has not run backwards and its memory is within what it registered. */
  lemma HeartbeatAccepted(l: Loop, observed: U64, at: U64, free: U64)
    requires LoopInv(l) && Enabled(l, Beat(observed, at, free))
    ensures Step(l.coordinator, Message(BeatMessage(l, observed, free), at)).1 == Ack
  {
    AdvanceInv(l.coordinator, at);
    KnownAtClock(l, at);
    hide Step; hide Inv; hide AdvanceTime; hide LiveTasks; hide KnownOk;
    var now := AdvanceTime(l.coordinator, at);
    LiveTasksKnown(now, l.worker, l.active);
    BeatFits(l.coordinator, now, at, BeatMessage(l, observed, free).heartbeat, |l.active|);
  }

  /** A report about a task we know is accepted, or answered `TaskSuperseded`; never anything else,
      so long as the report itself is well formed. */
  lemma ReportAccepted(l: Loop, t: TaskAttemptId, state: TaskState, at: U64)
    requires LoopInv(l) && !l.phase.Stopped? && t in l.Known() && l.clock <= at
    requires ReportedTime(state) == l.Known()[t].issuedAt && ValidTaskState(state, t, l.worker)
    requires KeyOf(t) in l.coordinator.stages && ExchangeOk(l.coordinator.stages[KeyOf(t)].plan, state)
    ensures var reply := Step(l.coordinator, Message(UpdateMessage(l, t, state), at)).1;
      reply == Ack || reply == Refused(TaskSuperseded)
  {
    hide Step; hide Inv; hide Ours; hide Covered; hide ValidWorkerMessage; hide ExchangeOk;
    var s, w := l.coordinator, l.worker;
    assert Ours(s, w, t, l.Known()[t]);
    OursMessage(s, w, t, l.Known()[t], state);
    OursReport(s, w, t, l.Known()[t], state, at);
  }

  lemma OursReport(s: State, w: WorkerId, t: TaskAttemptId, lease: TaskLease, state: TaskState, at: U64)
    requires Inv(s) && w in s.workers && Ours(s, w, t, lease) && lease.workerId == w && lease.issuedAt <= at
    requires ReportedTime(state) == lease.issuedAt && ValidWorkerMessage(TaskUpdate(PROTOCOL_VERSION, w, t, state))
    requires ValidTaskFor(t, s.stages[KeyOf(t)].plan) && ExchangeOk(s.stages[KeyOf(t)].plan, state)
    ensures var reply := Step(s, Message(TaskUpdate(PROTOCOL_VERSION, w, t, state), at)).1;
      reply == Ack || reply == Refused(TaskSuperseded)
  {
    hide Step; hide Inv; hide AdvanceTime; hide ValidWorkerMessage; hide ExchangeOk;
    var k, i := KeyOf(t), t.partitionId;
    var now := AdvanceTime(s, at);
    ClockKeepsOurs(s, at, w, t, lease);
    AdvanceInv(s, at);
    AdvanceEvolves(s, at);
    RankDecidesSuperseded(now, t);
    UpdateRefusals(s, w, t, state, at);
    if Speaks(now.At(k, i), t) {
      ClockHoldings(s, at, Clock(at), k, i, w);
      SpokenReport(s, now, w, t, lease, state, at);
    }
  }

  lemma ClockKeepsOurs(s: State, at: U64, w: WorkerId, t: TaskAttemptId, lease: TaskLease)
    requires Inv(s) && w in s.workers && Ours(s, w, t, lease)
    ensures w in AdvanceTime(s, at).workers && Ours(AdvanceTime(s, at), w, t, lease)
  {
    hide Inv; hide Ours;
    OursKept(s, Clock(at), w, t, lease);
  }

  lemma SpokenReport(s: State, now: State, w: WorkerId, t: TaskAttemptId, lease: TaskLease, state: TaskState, at: U64)
    requires Inv(s) && now == AdvanceTime(s, at) && Inv(now) && w in now.workers
    requires Ours(now, w, t, lease) && Speaks(now.At(KeyOf(t), t.partitionId), t)
    requires lease.workerId == w && lease.issuedAt <= at < lease.expiresAt
    requires ReportedTime(state) == lease.issuedAt && ValidWorkerMessage(TaskUpdate(PROTOCOL_VERSION, w, t, state))
    requires ValidTaskFor(t, now.stages[KeyOf(t)].plan) && ExchangeOk(now.stages[KeyOf(t)].plan, state)
    ensures Step(s, Message(TaskUpdate(PROTOCOL_VERSION, w, t, state), at)).1 == Ack
  {
    hide Inv; hide ExchangeOk; hide AdvanceTime; hide ValidTaskFor; hide ValidWorkerMessage; hide RecordTaskUpdate; hide Ours; hide Speaks;
    SpokenUpdate(now, w, t, lease, state, at);
  }

  lemma SpokenUpdate(now: State, w: WorkerId, t: TaskAttemptId, lease: TaskLease, state: TaskState, at: U64)
    requires w in now.workers && Ours(now, w, t, lease) && Speaks(now.At(KeyOf(t), t.partitionId), t)
    requires lease.workerId == w && lease.issuedAt <= at < lease.expiresAt
    requires ReportedTime(state) == lease.issuedAt && ValidWorkerMessage(TaskUpdate(PROTOCOL_VERSION, w, t, state))
    requires ValidTaskFor(t, now.stages[KeyOf(t)].plan) && ExchangeOk(now.stages[KeyOf(t)].plan, state)
    ensures RecordTaskUpdate(now, w, t, state, at).Ok?
  {
    hide ExchangeOk; hide ValidTaskFor;
    assert !Superseded(now.At(KeyOf(t), t.partitionId), t.attempt);
  }

  // ----- every turn keeps the invariant ----------------------------------------------------

  lemma KnownKept(l: Loop, e: Event)
    requires LoopInv(l) && !l.phase.Stopped? && !e.Poll? && (e.PollFor? ==> e.worker != l.worker)
    requires forall t | t in l.Known() ::
               !SuccessBy(e, l.worker, t) && HonestStart(e, l.worker, t, l.Known()[t])
    ensures Covered(Step(l.coordinator, e).0, l.worker, l.Known())
    ensures forall t | t in l.Known() :: Ours(Step(l.coordinator, e).0, l.worker, t, l.Known()[t])
  {
    CoveredKept(l.coordinator, e, l.worker, l.Known());
    forall t | t in l.Known() ensures Ours(Step(l.coordinator, e).0, l.worker, t, l.Known()[t]) {
      OursKept(l.coordinator, e, l.worker, t, l.Known()[t]);
    }
  }

  lemma RegistrationKept(s: State, e: Event, w: WorkerId)
    requires Inv(s) && w in s.workers
    ensures w in Step(s, e).0.workers
    ensures Step(s, e).0.workers[w].registration == s.workers[w].registration
  {
    StepEvolves(s, e);
  }

  /** Only a heartbeat of the worker itself moves its observed time. */
  lemma ObservedKept(s: State, e: Event, w: WorkerId)
    requires Inv(s) && w in s.workers && w in Step(s, e).0.workers
    requires e.Message? && e.message.Heartbeat? ==> Sender(e.message) != w
    ensures Step(s, e).0.workers[w].lastObserved == s.workers[w].lastObserved
  {
    hide Inv; hide HandleAt; hide NextAssignment; hide NextAssignmentFor; hide ValidWorkerMessage;
    if e.Poll? || e.PollFor? {
      PollObserved(s, e, w);
    } else if e.Message? {
      HandleObserved(AdvanceTime(s, e.at), e.message, e.at, w);
    }
  }

  lemma PollObserved(s: State, e: Event, w: WorkerId)
    requires Inv(s) && (e.Poll? || e.PollFor?) && w in s.workers && w in Step(s, e).0.workers
    ensures Step(s, e).0.workers[w].lastObserved == s.workers[w].lastObserved
  {
    hide Step; hide Inv; hide Schedulable;
    var leased, k, i, v := PollCase(s, e);
    assert w in AdvanceTime(s, e.at).workers;
    assert AdvanceTime(s, e.at).workers[w].lastObserved == s.workers[w].lastObserved;
  }

  lemma HandleObserved(s: State, message: WorkerMessage, now: U64, w: WorkerId)
    requires w in s.workers && (message.Heartbeat? ==> Sender(message) != w)
    ensures HandleAt(s, message, now).Ok? ==>
      var s' := HandleAt(s, message, now).value;
      w in s'.workers && s'.workers[w].lastObserved == s.workers[w].lastObserved
  {
  }

  lemma OthersKeeps(l: Loop, e: Event)
    requires LoopInv(l) && Enabled(l, Others(e))
    ensures LoopInv(Next(l, Others(e))) && Next(l, Others(e)).phase == l.phase
  {
    hide Step; hide Inv; hide Ours; hide Covered;
    var s, w := l.coordinator, l.worker;
    StepInv(s, e);
    RegistrationKept(s, e, w);
    ObservedKept(s, e, w);
    if !l.phase.Stopped? { KnownKept(l, e); }
    var l' := Next(l, Others(e));
    assert l'.Known() == l.Known();
  }

  lemma BeatKeeps(l: Loop, observed: U64, at: U64, free: U64)
    requires LoopInv(l) && Enabled(l, Beat(observed, at, free))
    ensures LoopInv(Next(l, Beat(observed, at, free))) && Next(l, Beat(observed, at, free)).phase.Waiting?
  {
    hide Step; hide Inv; hide Ours; hide Covered;
    var s, w := l.coordinator, l.worker;
    var e := Message(BeatMessage(l, observed, free), at);
    HeartbeatAccepted(l, observed, at, free);
    StepInv(s, e);
    RegistrationKept(s, e, w);
    KnownKept(l, e);
    BeatObserved(s, e, w);
    var l' := Next(l, Beat(observed, at, free));
    assert l'.Known() == l.Known();
  }

  lemma BeatObserved(s: State, e: Event, w: WorkerId)
    requires Inv(s) && e.Message? && e.message.Heartbeat? && e.message.heartbeat.workerId == w
    requires Step(s, e).1 == Ack && w in Step(s, e).0.workers
    ensures Step(s, e).0.workers[w].lastObserved == e.message.heartbeat.observedAt
  {
  }

  lemma CompleteKeeps(l: Loop, task: TaskAttemptId)
    requires LoopInv(l) && Enabled(l, Complete(task))
    ensures LoopInv(Next(l, Complete(task))) && Next(l, Complete(task)).phase.Finishing?
  {
    hide Step; hide Inv; hide Ours; hide Covered;
    var l' := Next(l, Complete(task));
    assert l'.Known() == l.Known();
  }

  lemma StartKeeps(l: Loop, at: U64)
    requires LoopInv(l) && Enabled(l, ReportStart(at))
    ensures LoopInv(Next(l, ReportStart(at))) && Next(l, ReportStart(at)).phase.Waiting?
  {
    hide Step; hide Inv; hide Ours; hide Covered; hide ValidWorkerMessage;
    var s, w, t := l.coordinator, l.worker, l.phase.task;
    var state := Running(l.phase.lease.issuedAt);
    var e := Message(UpdateMessage(l, t, state), at);
    assert t in l.Known() && Ours(s, w, t, l.Known()[t]);
    OursMessage(s, w, t, l.Known()[t], state);
    ReportAccepted(l, t, state, at);
    StepInv(s, e);
    RegistrationKept(s, e, w);
    ObservedKept(s, e, w);
    KnownKept(l, e);
    var l' := Next(l, ReportStart(at));
    if Step(s, e).1 == Ack {
      assert l'.Known() == l.Known();
    } else {
      SupersededNotHeld(s, w, t, l.Known()[t], state, at);
      DropHand(l, Step(s, e).0);
      DropSize(l.active, t, l.phase.lease);
      assert l'.Known() == l.active;
      ActiveKnown(l);
    }
  }

  /** A message about a task we know passes the checks on identifiers. */
  lemma OursMessage(s: State, w: WorkerId, t: TaskAttemptId, lease: TaskLease, state: TaskState)
    requires Inv(s) && w in s.workers && Ours(s, w, t, lease) && ValidTaskState(state, t, w)
    ensures KeyOf(t) in s.stages && ValidTaskFor(t, s.stages[KeyOf(t)].plan)
    ensures ValidWorkerMessage(TaskUpdate(PROTOCOL_VERSION, w, t, state))
  {
    assert WorkerOk(s, w) && StageOk(s, KeyOf(t));
  }

  lemma ActiveKnown(l: Loop)
    requires l.phase.Offered? || l.phase.Finishing? ==> l.phase.task !in l.active
    ensures forall t | t in l.active :: t in l.Known() && l.Known()[t] == l.active[t]
  {
  }

  /** Adding a task adds at most one entry. */
  lemma DropSize(active: map<TaskAttemptId, TaskLease>, t: TaskAttemptId, lease: TaskLease)
    requires t !in active
    ensures |active[t := lease]| == |active| + 1
  {
    assert active[t := lease].Keys == active.Keys + {t};
    assert |active[t := lease].Keys| == |active[t := lease]| && |active.Keys| == |active|;
  }

  /** What was in hand is no longer held, so the running tasks alone cover the leases. */
  lemma DropHand(l: Loop, s': State)
    requires l.phase.Offered? || l.phase.Finishing?
    requires Covered(s', l.worker, l.Known())
    requires forall k, i | s'.Has(k, i) && s'.At(k, i).HeldBy(l.worker) :: s'.At(k, i).task != l.phase.task
    ensures Covered(s', l.worker, l.active)
  {
  }

  lemma SupersededNotHeld(s: State, w: WorkerId, t: TaskAttemptId, lease: TaskLease, state: TaskState, at: U64)
    requires Inv(s) && w in s.workers && Ours(s, w, t, lease)
    requires ValidWorkerMessage(TaskUpdate(PROTOCOL_VERSION, w, t, state))
    requires Step(s, Message(TaskUpdate(PROTOCOL_VERSION, w, t, state), at)).1 == Refused(TaskSuperseded)
    ensures var s' := Step(s, Message(TaskUpdate(PROTOCOL_VERSION, w, t, state), at)).0;
      forall k, i | s'.Has(k, i) && s'.At(k, i).HeldBy(w) :: s'.At(k, i).task != t
  {
    hide Step; hide AdvanceTime; hide ValidWorkerMessage; hide Inv;
    AdvanceInv(s, at);
    AdvanceEvolves(s, at);
    var now := AdvanceTime(s, at);
    RankDecidesSuperseded(now, t);
    UpdateRefusals(s, w, t, state, at);
    forall k, i | now.Has(k, i) && now.At(k, i).HeldBy(w) ensures now.At(k, i).task != t {
      TaskNamesPartition(now, k, i);
    }
  }

  lemma TaskNamesPartition(s: State, k: StageKey, i: int)
    requires Inv(s) && s.Has(k, i) && s.At(k, i).Live()
    ensures KeyOf(s.At(k, i).task) == k && s.At(k, i).task.partitionId == i
  {
    assert PartitionOk(s, k, i, s.At(k, i));
  }

  lemma EndedNotHeld(s: State, w: WorkerId, t: TaskAttemptId, state: TaskState, at: U64)
    requires Inv(s) && !state.Running?
    requires Step(s, Message(TaskUpdate(PROTOCOL_VERSION, w, t, state), at)).1 == Ack
    ensures var s' := Step(s, Message(TaskUpdate(PROTOCOL_VERSION, w, t, state), at)).0;
      forall k, i | s'.Has(k, i) && s'.At(k, i).HeldBy(w) :: s'.At(k, i).task != t
  {
    hide Step; hide Inv;
    var e := Message(TaskUpdate(PROTOCOL_VERSION, w, t, state), at);
    StepInv(s, e);
    AckEnds(s, w, t, state, at);
    var s' := Step(s, e).0;
    forall k, i | s'.Has(k, i) && s'.At(k, i).HeldBy(w) ensures s'.At(k, i).task != t {
      TaskNamesPartition(s', k, i);
    }
  }

  lemma AckEnds(s: State, w: WorkerId, t: TaskAttemptId, state: TaskState, at: U64)
    requires Inv(s) && !state.Running?
    requires Step(s, Message(TaskUpdate(PROTOCOL_VERSION, w, t, state), at)).1 == Ack
    ensures var s' := Step(s, Message(TaskUpdate(PROTOCOL_VERSION, w, t, state), at)).0;
      s'.Has(KeyOf(t), t.partitionId) && !s'.At(KeyOf(t), t.partitionId).Live()
  {
    TerminalEnds(AdvanceTime(s, at), w, t, state, at);
    hide RecordTaskUpdate; hide AdvanceTime; hide Inv;
  }

  lemma TerminalEnds(s: State, w: WorkerId, t: TaskAttemptId, state: TaskState, at: U64)
    requires !state.Running?
    ensures RecordTaskUpdate(s, w, t, state, at).Ok? ==>
      var s' := RecordTaskUpdate(s, w, t, state, at).value;
      s'.Has(KeyOf(t), t.partitionId) && !s'.At(KeyOf(t), t.partitionId).Live()
  {
  }

  lemma EndKeeps(l: Loop, at: U64, state: TaskState)
    requires LoopInv(l) && Enabled(l, ReportEnd(at, state))
    ensures LoopInv(Next(l, ReportEnd(at, state)))
  {
    hide Step; hide Inv; hide Ours; hide Covered; hide ValidWorkerMessage;
    var s, w, t := l.coordinator, l.worker, l.phase.task;
    var e := Message(UpdateMessage(l, t, state), at);
    StepInv(s, e);
    RegistrationKept(s, e, w);
    ObservedKept(s, e, w);
    var l' := Next(l, ReportEnd(at, state));
    if !l'.phase.Stopped? {
      EndNotHeld(l, at, state);
      CoveredKept(s, e, w, l.Known());
      forall t' | t' in l.active ensures Ours(Step(s, e).0, w, t', l.active[t']) {
        assert t' in l.Known() && l.Known()[t'] == l.active[t'];
        OursKept(s, e, w, t', l.active[t']);
      }
      DropHand(l, Step(s, e).0);
      DropSize(l.active, t, l.phase.lease);
      assert l'.Known() == l.active;
      ActiveKnown(l);
    }
  }

  /** Accepted or superseded, the reported task no longer holds a lease. */
  lemma EndNotHeld(l: Loop, at: U64, state: TaskState)
    requires LoopInv(l) && Enabled(l, ReportEnd(at, state)) && !Next(l, ReportEnd(at, state)).phase.Stopped?
    ensures var s' := Next(l, ReportEnd(at, state)).coordinator;
      forall k, i | s'.Has(k, i) && s'.At(k, i).HeldBy(l.worker) :: s'.At(k, i).task != l.phase.task
  {
    hide Inv; hide Ours; hide Covered; hide Step;
    var s, w, t := l.coordinator, l.worker, l.phase.task;
    assert t in l.Known() && Ours(s, w, t, l.Known()[t]);
    var reply := Step(s, Message(UpdateMessage(l, t, state), at)).1;
    MessageReplies(s, UpdateMessage(l, t, state), at);
    if reply.Refused? {
      SupersededNotHeld(s, w, t, l.Known()[t], state, at);
    } else {
      EndedNotHeld(s, w, t, state, at);
    }
  }

  lemma MessageReplies(s: State, message: WorkerMessage, at: U64)
    ensures Step(s, Message(message, at)).1 == Ack || Step(s, Message(message, at)).1.Refused?
    ensures Step(s, Message(message, at)).1 == Refused(TaskSuperseded) ==> ValidWorkerMessage(message)
  {
  }

  lemma PollKeeps(l: Loop, at: U64)
    requires LoopInv(l) && Enabled(l, PollTurn(at))
    ensures LoopInv(Next(l, PollTurn(at)))
    ensures Next(l, PollTurn(at)).phase.Stopped? ==> at + l.coordinator.config.leaseDuration > U64_MAX
  {
    hide Step; hide Inv; hide Ours; hide Covered; hide Leases; hide AdvanceTime;
    if |l.active| < l.slots {
      var s, w := l.coordinator, l.worker;
      var e := PollFor(w, at);
      StepInv(s, e);
      RegistrationKept(s, e, w);
      ObservedKept(s, e, w);
      PollStops(s, w, at);
      var leased, k, i, v := PollCase(s, e);
      if leased {
        LeaseWorker(s, e, k, i, v);
        PollLeases(l, at, k, i);
      } else {
        KnownAtClock(l, at);
        forall t | t in l.active ensures Ours(Step(s, e).0, w, t, l.active[t]) {
          assert t in l.Known();
          OursKept(s, e, w, t, l.active[t]);
        }
        PollEmpty(s, e);
        var l' := Next(l, PollTurn(at));
        assert l'.phase.Waiting? || l'.phase.Stopped?;
        assert l'.Known() == l.Known() == l.active;
      }
    }
  }

  lemma LeaseWorker(s: State, e: Event, k: StageKey, i: int, w: WorkerId)
    requires e.PollFor? && Leases(s, e, k, i, w)
    ensures w == e.worker
  {
  }

  lemma PollStops(s: State, w: WorkerId, at: U64)
    requires Inv(s) && w in s.workers
    ensures Step(s, PollFor(w, at)).1.Refused? ==> at + s.config.leaseDuration > U64_MAX
  {
    PollOutcomes(s, PollFor(w, at));
  }

  lemma PollEmpty(s: State, e: Event)
    requires Inv(s) && e.PollFor? && Step(s, e).0 == AdvanceTime(s, e.at)
    ensures Step(s, e).1 == Sent(None) || Step(s, e).1.Refused?
  {
    hide Step; hide AdvanceTime; hide Inv; hide Schedulable;
    PollOutcomes(s, e);
    if k, i, w :| Leases(s, e, k, i, w) {
      LeaseReads(s, e, k, i, w);
      assert AdvanceTime(s, e.at).At(k, i).Pending?;
    }
  }

  /** A poll that leases puts exactly the new lease in the worker's hand. */
  lemma PollLeases(l: Loop, at: U64, k: StageKey, i: int)
    requires LoopInv(l) && Enabled(l, PollTurn(at)) && |l.active| < l.slots
    requires Leases(l.coordinator, PollFor(l.worker, at), k, i, l.worker)
    ensures Next(l, PollTurn(at)).phase.Offered?
    ensures KnownOk(Next(l, PollTurn(at)))
  {
    hide Step; hide Inv; hide Ours; hide Covered; hide Leases;
    var s, w := l.coordinator, l.worker;
    var e := PollFor(w, at);
    var l', s' := Next(l, PollTurn(at)), Step(s, e).0;
    LeaseMessage(s, e, k, i, w);
    var task, lease := s'.At(k, i).task, s'.At(k, i).lease;
    assert l'.phase == Offered(task, lease);
    NewLeaseOurs(s, e, k, i, w);
    forall t | t in l.active ensures t != task && Ours(s', w, t, l.active[t]) {
      assert t in l.Known() && Ours(s, w, t, l.Known()[t]);
      OursKept(s, e, w, t, l.active[t]);
      FreshLease(s, e, k, i, w, t, l.active[t]);
    }
    NewLeaseCovered(s, e, k, i, w, l.active);
    DropSize(l.active, task, lease);
  }

  lemma NewLeaseOurs(s: State, e: Event, k: StageKey, i: int, w: WorkerId)
    requires Inv(s) && Leases(s, e, k, i, w)
    ensures Step(s, e).0.Has(k, i) && Step(s, e).0.At(k, i).Active?
    ensures Ours(Step(s, e).0, w, Step(s, e).0.At(k, i).task, Step(s, e).0.At(k, i).lease)
  {
    LeaseFacts(s, e, k, i, w);
    LeaseMessage(s, e, k, i, w);
    StepEvolves(s, e);
    hide Step; hide Inv; hide Leases;
  }

  lemma FreshLease(s: State, e: Event, k: StageKey, i: int, w: WorkerId, t: TaskAttemptId, lease: TaskLease)
    requires Inv(s) && Leases(s, e, k, i, w) && Ours(s, w, t, lease)
    ensures Step(s, e).0.Has(k, i) && Step(s, e).0.At(k, i).Active? && t != Step(s, e).0.At(k, i).task
  {
    hide Step; hide Inv; hide Leases;
    LeaseFacts(s, e, k, i, w);
  }

  lemma NewLeaseCovered(s: State, e: Event, k: StageKey, i: int, w: WorkerId, active: map<TaskAttemptId, TaskLease>)
    requires Inv(s) && (e.Poll? || e.PollFor?) && Leases(s, e, k, i, w) && Covered(s, w, active)
    ensures Step(s, e).0.Has(k, i) && Step(s, e).0.At(k, i).Active?
    ensures Covered(Step(s, e).0, w, active[Step(s, e).0.At(k, i).task := Step(s, e).0.At(k, i).lease])
  {
    hide Step; hide Inv; hide Leases; hide AdvanceTime;
    LeaseReads(s, e, k, i, w);
    var s' := Step(s, e).0;
    forall k', i' | s'.Has(k', i') && s'.At(k', i').HeldBy(w) && (k', i') != (k, i)
      ensures s'.At(k', i').task in active
    {
      ClockHoldings(s, e.at, e, k', i', w);
    }
  }

  lemma LeaseMessage(s: State, e: Event, k: StageKey, i: int, w: WorkerId)
    requires Inv(s) && Leases(s, e, k, i, w)
    ensures var (s', reply) := Step(s, e);
      && s'.Has(k, i) && s'.At(k, i).Active? && s'.At(k, i).startedAt == None
      && reply.Sent? && reply.message.Some? && reply.message.value.AssignTask?
      && reply.message.value.task == s'.At(k, i).task
      && reply.message.value.lease == s'.At(k, i).lease
      && s'.At(k, i).workerId == w && s'.At(k, i).lease.workerId == w && s'.At(k, i).lease.issuedAt == e.at
  {
    AdvanceInv(s, e.at);
    hide Step; hide Schedulable; hide Inv; hide AdvanceTime; hide Take;
    TakeReads(AdvanceTime(s, e.at), k, i, w, e.at);
  }

  // ----- runs ------------------------------------------------------------------------------

  /** The report a finishing task sends is well formed. */
  ghost predicate WellFormedEnd(l: Loop, state: TaskState) {
    && l.phase.Finishing? && KeyOf(l.phase.task) in l.coordinator.stages
    && ValidTaskState(state, l.phase.task, l.worker)
    && ExchangeOk(l.coordinator.stages[KeyOf(l.phase.task)].plan, state)
  }

  lemma NextKeeps(l: Loop, turn: Turn)
    requires LoopInv(l)
    ensures LoopInv(Next(l, turn))
  {
    if Enabled(l, turn) {
      match turn
      case Others(e) => OthersKeeps(l, e);
      case Beat(observed, at, free) => BeatKeeps(l, observed, at, free);
      case PollTurn(at) => PollKeeps(l, at);
      case ReportStart(at) => StartKeeps(l, at);
      case Complete(task) => CompleteKeeps(l, task);
      case ReportEnd(at, state) => EndKeeps(l, at, state);
    }
  }

  /** The loop ends with an error only on an overflowing lease timestamp or a malformed result:
      never because of slots, of its heartbeats, or of losing a lease to expiry or cancellation. */
  lemma LoopGoesOn(l: Loop, turn: Turn)
    requires LoopInv(l) && !l.phase.Stopped?
    requires turn.PollTurn? ==> turn.at + l.coordinator.config.leaseDuration <= U64_MAX
    requires turn.ReportEnd? ==> WellFormedEnd(l, turn.state)
    ensures !Next(l, turn).phase.Stopped?
  {
    hide Step; hide Inv; hide KnownOk;
    if Enabled(l, turn) {
      match turn
      case Others(e) => OthersKeeps(l, e);
      case Beat(observed, at, free) => BeatKeeps(l, observed, at, free);
      case PollTurn(at) => PollKeeps(l, at);
      case ReportStart(at) => StartKeeps(l, at);
      case Complete(task) => CompleteKeeps(l, task);
      case ReportEnd(at, state) =>
        ReportAccepted(l, l.phase.task, state, at);
    }
  }

  /** A freshly registered worker. */
  ghost predicate Registered(l: Loop) {
    && Inv(l.coordinator) && l.worker in l.coordinator.workers
    && l.coordinator.workers[l.worker].registration == WorkerRegistration(l.worker, l.slots, l.memory)
    && l.coordinator.workers[l.worker].lastObserved == 0
    && LiveTasks(l.coordinator, l.worker) == {}
    && l.active == map[] && l.phase.Waiting?
  }

  ghost predicate LoopRun(turns: seq<Turn>, loops: seq<Loop>) {
    && |loops| == |turns| + 1 && Registered(loops[0])
    && forall n | 0 <= n < |turns| :: TurnsInto(turns, loops, n)
  }

  ghost predicate TurnsInto(turns: seq<Turn>, loops: seq<Loop>, n: int)
    requires 0 <= n < |turns| && |loops| == |turns| + 1
  {
    loops[n + 1] == Next(loops[n], turns[n])
  }

  lemma RegisteredInv(l: Loop)
    requires Registered(l)
    ensures LoopInv(l)
  {
    hide Inv;
    var s, w := l.coordinator, l.worker;
    forall k, i | s.Has(k, i) ensures !s.At(k, i).HeldBy(w) {
      assert (k, i) in LiveTasks(s, w) <==> s.At(k, i).HeldBy(w);
    }
  }

  lemma {:induction false} LoopRunInv(turns: seq<Turn>, loops: seq<Loop>, n: nat)
    requires LoopRun(turns, loops) && n < |loops|
    ensures LoopInv(loops[n])
  {
    hide LoopInv; hide Next; hide Registered;
    if n == 0 {
      RegisteredInv(loops[0]);
    } else {
      LoopRunInv(turns, loops, n - 1);
      assert TurnsInto(turns, loops, n - 1);
      NextKeeps(loops[n - 1], turns[n - 1]);
    }
  }

  /** In every run of the loop: it never runs more tasks than it has slots, and whenever it waits
      for its next event the coordinator's live leases for it are among its running tasks. */
  lemma WorkerAndCoordinatorAgree(turns: seq<Turn>, loops: seq<Loop>, n: nat)
    requires LoopRun(turns, loops) && n < |loops| && !loops[n].phase.Stopped?
    ensures |loops[n].active| <= loops[n].slots
    ensures loops[n].phase.Waiting? ==>
      && Covered(loops[n].coordinator, loops[n].worker, loops[n].active)
      && |LiveTasks(loops[n].coordinator, loops[n].worker)| <= |loops[n].active|
  {
    LoopRunInv(turns, loops, n);
    var l := loops[n];
    if l.phase.Waiting? {
      LiveTasksKnown(l.coordinator, l.worker, l.active);
    } else {
      DropSize(l.active, l.phase.task, l.phase.lease);
    }
  }
}
