/** The coordinator's state and its transitions as functions of that state. The class in
    `Coordinator.dfy` performs them in place; everything proved about runs is proved here. */
module CoordinatorState {
  import opened Basics
  import opened Protocol

  datatype Config = Config(
    leaseDuration: U64, heartbeatTimeout: U64, maxTaskAttempts: U32, maxStagePartitions: U32)

  predicate ValidConfig(config: Config) {
    && config.leaseDuration > 0 && config.heartbeatTimeout > 0
    && config.maxTaskAttempts > 0 && config.maxStagePartitions > 0
  }

  datatype WorkerRuntime = WorkerRuntime(
    registration: WorkerRegistration,
    lastObserved: U64,
    lastReceived: U64,
    availableSlots: U32,
    availableMemory: U64,
    alive: bool)

  datatype Partition =
    | Pending(nextAttempt: U32)
    | Active(task: TaskAttemptId, workerId: WorkerId, lease: TaskLease, startedAt: Option<U64>)
    | Cancelling(task: TaskAttemptId, workerId: WorkerId, lease: TaskLease)
    | Done(task: TaskAttemptId, outputBlocks: seq<ShuffleBlock>)
    | Lost(attempt: U32, error: string, retryable: bool)
    | Withdrawn
  {
    /** Holds a worker slot: `Active` or `Cancelling`. */
    predicate Live() { Active? || Cancelling? }

    predicate HeldBy(worker: WorkerId) { Live() && workerId == worker }
  }

  datatype StageRuntime = StageRuntime(plan: StagePlan, partitions: seq<Partition>)

  type StageKey = (QueryId, StageId)

  datatype State = State(
    config: Config,
    workers: map<WorkerId, WorkerRuntime>,
    stages: map<StageKey, StageRuntime>,
    cancelled: map<QueryId, string>)
  {
    predicate Has(k: StageKey, i: int) {
      k in stages && 0 <= i < |stages[k].partitions|
    }

    function At(k: StageKey, i: int): Partition
      requires Has(k, i)
    {
      stages[k].partitions[i]
    }

    /** Overwrites one partition. */
    function Put(k: StageKey, i: int, p: Partition): State
      requires Has(k, i)
    {
      this.(stages := stages[k := stages[k].(partitions := stages[k].partitions[i := p])])
    }
  }

  function Init(config: Config): State { State(config, map[], map[], map[]) }

  /** Stage plans agree with the key they are stored under and with their partition vector. */
  predicate Shaped(s: State) {
    forall k | k in s.stages ::
      && s.stages[k].plan.queryId == k.0
      && s.stages[k].plan.stageId == k.1
      && |s.stages[k].partitions| == s.stages[k].plan.partitionCount
  }

  // ----- readers ---------------------------------------------------------------------------

  predicate QueryKnown(s: State, q: QueryId) {
    exists k | k in s.stages :: k.0 == q
  }

  predicate AllDone(partitions: seq<Partition>) {
    forall i | 0 <= i < |partitions| :: partitions[i].Done?
  }

  predicate StageDone(s: State, k: StageKey) {
    k in s.stages && AllDone(s.stages[k].partitions)
  }

  predicate DependenciesDone(s: State, plan: StagePlan) {
    forall d | d in plan.inputStages :: StageDone(s, (plan.queryId, d))
  }

  /** The live tasks of a worker, each named by its stage and partition index. */
  function LiveTasks(s: State, w: WorkerId): set<(StageKey, int)> {
    set k, i | k in s.stages && 0 <= i < |s.stages[k].partitions| && s.At(k, i).HeldBy(w) :: (k, i)
  }

  function ActiveWorkers(s: State, q: QueryId): set<WorkerId> {
    set k, i | k in s.stages && k.0 == q && 0 <= i < |s.stages[k].partitions| && s.At(k, i).Active? ::
      s.At(k, i).workerId
  }

  /** The committed blocks of a partition vector, in partition order. */
  function CommittedBlocks(partitions: seq<Partition>): seq<ShuffleBlock> {
    if partitions == [] then []
    else (if partitions[0].Done? then partitions[0].outputBlocks else []) + CommittedBlocks(partitions[1..])
  }

  function DependencyBlocks(s: State, q: QueryId, dependencies: seq<StageId>): seq<ShuffleBlock> {
    if dependencies == [] then []
    else
      var k := (q, dependencies[0]);
      (if k in s.stages then CommittedBlocks(s.stages[k].partitions) else [])
      + DependencyBlocks(s, q, dependencies[1..])
  }

  function AddressedTo(blocks: seq<ShuffleBlock>, partition: U32): seq<ShuffleBlock> {
    if blocks == [] then []
    else (if blocks[0].outputPartition == partition then [blocks[0]] else [])
         + AddressedTo(blocks[1..], partition)
  }

  /** What a task reads: all dependency blocks, or those addressed to it. */
  function InputBlocks(s: State, plan: StagePlan, partition: U32): seq<ShuffleBlock> {
    var blocks := DependencyBlocks(s, plan.queryId, plan.inputStages);
    if plan.partitionedInput then AddressedTo(blocks, partition) else blocks
  }

  /** `stage_output_blocks`. */
  function StageOutputBlocks(s: State, k: StageKey): Result<seq<ShuffleBlock>, Failure> {
    if k !in s.stages then Err(NotFound)
    else if k.0 !in s.cancelled && !AllDone(s.stages[k].partitions) then Err(ProtocolError)
    else Ok(CommittedBlocks(s.stages[k].partitions))
  }

  // ----- submit_stage ----------------------------------------------------------------------

  predicate Submittable(s: State, plan: StagePlan) {
    && ValidStage(plan)
    && plan.partitionCount <= s.config.maxStagePartitions
    && plan.queryId !in s.cancelled
    && (plan.queryId, plan.stageId) !in s.stages
    && (forall d | d in plan.inputStages :: (plan.queryId, d) in s.stages)
    && (plan.partitionedInput ==>
          forall d | d in plan.inputStages ::
            var upstream := s.stages[(plan.queryId, d)].plan.outputExchange;
            upstream.Some? && upstream.value.partitionCount == plan.partitionCount)
    && (plan.outputExchange.Some? ==>
          plan.outputExchange.value.partitionCount <= s.config.maxStagePartitions)
  }

  function SubmitStage(s: State, plan: StagePlan): (State, Result<(), Failure>) {
    if Submittable(s, plan) then
      (s.(stages := s.stages[(plan.queryId, plan.stageId) :=
                      StageRuntime(plan, seq(plan.partitionCount, _ => Pending(0)))]),
       Ok(()))
    else (s, Err(ProtocolError))
  }

  // ----- advance_time ----------------------------------------------------------------------

  predicate TimedOut(s: State, w: WorkerId, now: U64) {
    && w in s.workers
    && s.workers[w].alive
    && SaturatingSub(now, s.workers[w].lastReceived) > s.config.heartbeatTimeout
  }

  /** The lease of a live partition is gone: its worker went silent or its time is up. */
  predicate Expired(s: State, p: Partition, now: U64) {
    p.Live() && (TimedOut(s, p.workerId, now) || p.lease.expiresAt <= now)
  }

  function RetryOrFail(maxTaskAttempts: U32, attempt: U32, error: string): Partition {
    var next := Min(attempt + 1, U32_MAX);
    if next < maxTaskAttempts then Pending(next) else Lost(attempt, error, true)
  }

  function Expire(s: State, p: Partition, now: U64): Partition {
    if !Expired(s, p, now) then p
    else if p.Cancelling? then Withdrawn
    else RetryOrFail(s.config.maxTaskAttempts, p.task.attempt,
                     if TimedOut(s, p.workerId, now) then "worker heartbeat timed out" else "task lease expired")
  }

  /** The slots of worker `w` whose leases have run out at `now`. */
  function ExpiredTasks(s: State, w: WorkerId, now: U64): set<(StageKey, int)> {
    set k, i | k in s.stages && 0 <= i < |s.stages[k].partitions|
               && s.At(k, i).HeldBy(w) && Expired(s, s.At(k, i), now) :: (k, i)
  }

  /** `release_worker_slot` applied `n` times. */
  function Release(worker: WorkerRuntime, n: nat): WorkerRuntime {
    if worker.alive && n > 0 then
      worker.(availableSlots := Min(worker.availableSlots + n, worker.registration.slots))
    else worker
  }

  function AdvanceWorker(s: State, w: WorkerId, now: U64): WorkerRuntime
    requires w in s.workers
  {
    if TimedOut(s, w, now) then
      s.workers[w].(alive := false, availableSlots := 0, availableMemory := 0)
    else Release(s.workers[w], |ExpiredTasks(s, w, now)|)
  }

  function AdvanceStage(s: State, k: StageKey, now: U64): StageRuntime
    requires k in s.stages
  {
    var partitions := s.stages[k].partitions;
    s.stages[k].(partitions :=
      seq(|partitions|, i requires 0 <= i < |partitions| => Expire(s, partitions[i], now)))
  }

  function AdvanceTime(s: State, now: U64): State {
    s.(workers := map w | w in s.workers :: AdvanceWorker(s, w, now),
       stages := map k | k in s.stages :: AdvanceStage(s, k, now))
  }

  // ----- assignment ------------------------------------------------------------------------

  predicate KeyLeq(a: StageKey, b: StageKey) {
    if a.0 == b.0 then a.1 <= b.1 else StringLeq(a.0, b.0)
  }

  /** A stage the scheduler may take work from. */
  predicate Schedulable(s: State, k: StageKey) {
    && k in s.stages
    && k.0 !in s.cancelled
    && DependenciesDone(s, s.stages[k].plan)
    && exists i | 0 <= i < |s.stages[k].partitions| :: s.stages[k].partitions[i].Pending?
  }

  /** The stage the ascending scan of the stage map stops at. */
  ghost predicate FirstSchedulable(s: State, k: StageKey) {
    Schedulable(s, k) && forall other | Schedulable(s, other) :: KeyLeq(k, other)
  }

  predicate FirstPending(partitions: seq<Partition>, i: int) {
    && 0 <= i < |partitions| && partitions[i].Pending?
    && forall j | 0 <= j < i :: !partitions[j].Pending?
  }

  lemma {:induction false} FirstPendingExists(partitions: seq<Partition>, i: nat)
    requires i < |partitions| && partitions[i].Pending?
    ensures exists j :: FirstPending(partitions, j)
  {
    if j :| 0 <= j < i && partitions[j].Pending? {
      FirstPendingExists(partitions, j);
    } else {
      assert FirstPending(partitions, i);
    }
  }

  lemma KeyLeqTotal(a: StageKey, b: StageKey)
    ensures KeyLeq(a, b) || KeyLeq(b, a)
  {
    StringLeqTotal(a.0, b.0);
  }

  lemma {:induction false} LeastKey(keys: set<StageKey>) returns (least: StageKey)
    requires keys != {}
    ensures least in keys && forall other | other in keys :: KeyLeq(least, other)
  {
    hide KeyLeq;
    var x :| x in keys;
    KeyLeqTotal(x, x);
    least := x;
    if keys != {x} {
      var k := LeastKey(keys - {x});
      KeyLeqTotal(x, k);
      if !KeyLeq(x, k) { least := k; }
      forall other | other in keys ensures KeyLeq(least, other) {
        if other != x && KeyLeq(x, k) { KeyLeqTransitive(x, k, other); }
      }
    }
  }

  lemma LeastKeyExists(keys: set<StageKey>)
    requires keys != {}
    ensures exists k | k in keys :: forall other | other in keys :: KeyLeq(k, other)
  {
    hide KeyLeq;
    var least := LeastKey(keys);
  }

  lemma KeyLeqTransitive(a: StageKey, b: StageKey, c: StageKey)
    requires KeyLeq(a, b) && KeyLeq(b, c)
    ensures KeyLeq(a, c)
  {
    if a.0 != b.0 && b.0 != c.0 {
      StringLeqTransitive(a.0, b.0, c.0);
      if a.0 == c.0 { StringLeqAntisymmetric(a.0, b.0); }
    }
  }

  lemma FirstSchedulableExists(s: State, k: StageKey)
    requires Schedulable(s, k)
    ensures exists first :: FirstSchedulable(s, first)
  {
    var keys := set x | x in s.stages && Schedulable(s, x);
    assert k in keys;
    LeastKeyExists(keys);
    var first :| first in keys && forall other | other in keys :: KeyLeq(first, other);
    assert FirstSchedulable(s, first);
  }

  /** `next_pending_partition`: the first pending partition of the first schedulable stage. */
  ghost function NextPending(s: State): (r: Option<(StageKey, int)>)
    ensures r.Some? ==> FirstSchedulable(s, r.value.0) && FirstPending(s.stages[r.value.0].partitions, r.value.1)
    ensures r.None? ==> forall k :: !Schedulable(s, k)
  {
    if k :| Schedulable(s, k) then
      FirstSchedulableExists(s, k);
      var first :| FirstSchedulable(s, first);
      var i :| 0 <= i < |s.stages[first].partitions| && s.stages[first].partitions[i].Pending?;
      FirstPendingExists(s.stages[first].partitions, i);
      var index :| FirstPending(s.stages[first].partitions, index);
      Some((first, index))
    else None
  }

  function LeaseFor(s: State, w: WorkerId, now: U64): TaskLease
    requires now + s.config.leaseDuration <= U64_MAX
  {
    TaskLease(w, now, now + s.config.leaseDuration)
  }

  function TaskFor(k: StageKey, i: int, p: Partition): TaskAttemptId
    requires p.Pending? && 0 <= i <= U32_MAX
  {
    TaskAttemptId(k.0, k.1, i, p.nextAttempt)
  }

  /** Takes partition `i` of stage `k` for worker `w`: the state after the two writes. */
  function Take(s: State, k: StageKey, i: int, w: WorkerId, now: U64): State
    requires s.Has(k, i) && s.At(k, i).Pending? && i <= U32_MAX
    requires w in s.workers && s.workers[w].availableSlots > 0
    requires now + s.config.leaseDuration <= U64_MAX
  {
    var worker := s.workers[w];
    s.Put(k, i, Active(TaskFor(k, i, s.At(k, i)), w, LeaseFor(s, w, now), None))
     .(workers := s.workers[w := worker.(availableSlots := worker.availableSlots - 1)])
  }

  function AssignmentFor(s: State, k: StageKey, i: int, w: WorkerId, now: U64): CoordinatorMessage
    requires s.Has(k, i) && s.At(k, i).Pending? && i <= U32_MAX
    requires now + s.config.leaseDuration <= U64_MAX
  {
    var plan := s.stages[k].plan;
    AssignTask(PROTOCOL_VERSION, plan, TaskFor(k, i, s.At(k, i)), LeaseFor(s, w, now), InputBlocks(s, plan, i))
  }

  type PollReply = Result<Option<CoordinatorMessage>, Failure>

  /** `assign_to_worker`. The message is checked only after the state has been taken. */
  ghost function Assign(s: State, w: WorkerId, now: U64): (State, PollReply)
    requires w in s.workers && s.workers[w].availableSlots > 0
  {
    match NextPending(s)
    case None => (s, Ok(None))
    case Some((k, i)) =>
      if now + s.config.leaseDuration > U64_MAX || i > U32_MAX then (s, Err(ProtocolError))
      else
        var message := AssignmentFor(s, k, i, w, now);
        (Take(s, k, i, w, now), if ValidCoordinatorMessage(message) then Ok(Some(message)) else Err(ProtocolError))
  }

  predicate Idle(s: State, w: WorkerId) {
    w in s.workers && s.workers[w].alive && s.workers[w].availableSlots > 0
  }

  ghost predicate FirstIdle(s: State, w: WorkerId) {
    Idle(s, w) && forall other | Idle(s, other) :: StringLeq(w, other)
  }

  lemma FirstIdleExists(s: State, w: WorkerId)
    requires Idle(s, w)
    ensures exists first :: FirstIdle(s, first)
  {
    var names := set x | x in s.workers && Idle(s, x);
    assert w in names;
    LeastNameExists(names);
    var first :| first in names && forall other | other in names :: StringLeq(first, other);
    assert FirstIdle(s, first);
  }

  /** `next_assignment`: the first idle worker, in identifier order, is served. */
  ghost function NextAssignment(s0: State, now: U64): (State, PollReply)
  {
    var s := AdvanceTime(s0, now);
    if w :| Idle(s, w) then
      FirstIdleExists(s, w);
      var first :| FirstIdle(s, first);
      Assign(s, first, now)
    else (s, Ok(None))
  }

  ghost function NextAssignmentFor(s0: State, w: WorkerId, now: U64): (State, PollReply)
  {
    var s := AdvanceTime(s0, now);
    if w !in s.workers then (s, Err(ProtocolError))
    else if !Idle(s, w) then (s, Ok(None))
    else Assign(s, w, now)
  }

  // ----- cancel_query ----------------------------------------------------------------------

  function Withdraw(p: Partition): Partition {
    match p
    case Active(task, w, lease, _) => Cancelling(task, w, lease)
    case Done(_, _) => p
    case _ => Withdrawn
  }

  function WithdrawQuery(s: State, q: QueryId): map<StageKey, StageRuntime> {
    map k | k in s.stages ::
      if k.0 != q then s.stages[k]
      else
        var partitions := s.stages[k].partitions;
        s.stages[k].(partitions :=
          seq(|partitions|, i requires 0 <= i < |partitions| => Withdraw(partitions[i])))
  }

  function Cancel(s: State, q: QueryId, reason: string): (State, Result<CoordinatorMessage, Failure>) {
    var message := CancelQuery(PROTOCOL_VERSION, q, reason);
    if !ValidCoordinatorMessage(message) then (s, Err(ProtocolError))
    else if !QueryKnown(s, q) then (s, Err(NotFound))
    else if q in s.cancelled then
      (s, if s.cancelled[q] == reason then Ok(message) else Err(ProtocolError))
    else
      (s.(stages := WithdrawQuery(s, q), cancelled := s.cancelled[q := reason]), Ok(message))
  }

  // ----- worker messages -------------------------------------------------------------------

  function RegisterWorker(s: State, r: WorkerRegistration, now: U64): Result<State, Failure> {
    if r.workerId in s.workers then Err(ProtocolError)
    else Ok(s.(workers := s.workers[r.workerId := WorkerRuntime(r, 0, now, r.slots, r.memoryBytes, true)]))
  }

  function RecordHeartbeat(s: State, h: WorkerHeartbeat, now: U64): Result<State, Failure> {
    if h.workerId !in s.workers then Err(ProtocolError)
    else
      var worker := s.workers[h.workerId];
      var activeTasks := Min(|LiveTasks(s, h.workerId)|, U32_MAX);
      if h.observedAt < worker.lastObserved then Err(ProtocolError)
      else if h.availableSlots > SaturatingSub(worker.registration.slots, activeTasks) then Err(ProtocolError)
      else if h.availableMemory > worker.registration.memoryBytes then Err(ProtocolError)
      else
        Ok(s.(workers := s.workers[h.workerId :=
          WorkerRuntime(worker.registration, h.observedAt, now, h.availableSlots, h.availableMemory, true)]))
  }

  /** The attempt has been retired: another attempt, or none, speaks for the partition now. */
  predicate Superseded(p: Partition, attempt: U32) {
    match p
    case Pending(next) => attempt < next
    case Active(task, _, _, _) => attempt < task.attempt
    case Cancelling(task, _, _) => attempt < task.attempt
    case Done(task, _) => attempt < task.attempt
    case Lost(last, _, _) => attempt <= last
    case Withdrawn => true
  }

  function Destinations(blocks: seq<ShuffleBlock>): set<nat> {
    set i | 0 <= i < |blocks| :: blocks[i].outputPartition
  }

  /** A hash exchange commits exactly one block per destination. */
  predicate OneBlockPerDestination(blocks: seq<ShuffleBlock>, count: nat) {
    && |blocks| == count
    && |Destinations(blocks)| == count
    && forall d | d in Destinations(blocks) :: d < count
  }

  predicate ExchangeOk(plan: StagePlan, state: TaskState) {
    plan.outputExchange.Some? && state.Succeeded? ==>
      OneBlockPerDestination(state.outputBlocks, plan.outputExchange.value.partitionCount)
  }

  /** `validate_reported_time`. */
  predicate ReportedTimeOk(time: U64, lease: TaskLease, received: U64) {
    lease.issuedAt <= time < lease.expiresAt && time <= received
  }

  function ReportedTime(state: TaskState): U64 {
    if state.Running? then state.startedAt else state.finishedAt
  }

  /** What a terminal report turns an active partition into. */
  function Conclude(maxTaskAttempts: U32, task: TaskAttemptId, state: TaskState): Partition
    requires !state.Running?
  {
    match state
    case Succeeded(_, blocks) => Done(task, blocks)
    case Failed(_, error, retryable) =>
      if retryable then RetryOrFail(maxTaskAttempts, task.attempt, error) else Lost(task.attempt, error, false)
    case Cancelled(_, _) => Withdrawn
  }

  function ReleaseSlot(s: State, w: WorkerId): State {
    if w in s.workers then s.(workers := s.workers[w := Release(s.workers[w], 1)]) else s
  }

  /** `record_task_update`. */
  function RecordTaskUpdate(s: State, w: WorkerId, task: TaskAttemptId, state: TaskState, now: U64)
    : Result<State, Failure>
  {
    var k := (task.queryId, task.stageId);
    if w !in s.workers then Err(ProtocolError)
    else if k !in s.stages then Err(NotFound)
    else if !ValidTaskFor(task, s.stages[k].plan) || !s.Has(k, task.partitionId) then Err(ProtocolError)
    else
      var i := task.partitionId;
      var p := s.At(k, i);
      if Superseded(p, task.attempt) then Err(TaskSuperseded)
      else if !ExchangeOk(s.stages[k].plan, state) then Err(ProtocolError)
      else if !p.Live() then Err(ProtocolError)
      else if p.task != task || p.workerId != w || p.lease.workerId != w then Err(ProtocolError)
      else if p.Active? && p.lease.expiresAt <= now then Err(ProtocolError)
      else if !ReportedTimeOk(ReportedTime(state), p.lease, now) then Err(ProtocolError)
      else if p.Cancelling? then
        if state.Running? then Ok(s) else Ok(ReleaseSlot(s.Put(k, i, Withdrawn), w))
      else if state.Running? then
        if p.startedAt == Some(state.startedAt) then Ok(s)
        else if p.startedAt.Some? then Err(ProtocolError)
        else Ok(s.Put(k, i, p.(startedAt := Some(state.startedAt))))
      else Ok(ReleaseSlot(s.Put(k, i, Conclude(s.config.maxTaskAttempts, task, state)), w))
  }

  function HandleAt(s: State, message: WorkerMessage, now: U64): Result<State, Failure>
  {
    match message
    case Register(_, registration) => RegisterWorker(s, registration, now)
    case Heartbeat(_, heartbeat) => RecordHeartbeat(s, heartbeat, now)
    case TaskUpdate(_, w, task, state) => RecordTaskUpdate(s, w, task, state, now)
  }

  /** `handle_worker_message`: a rejected message leaves only the effect of the clock. */
  function Handle(s: State, message: WorkerMessage, now: U64): (State, Result<(), Failure>)
  {
    if !ValidWorkerMessage(message) then (s, Err(ProtocolError))
    else
      var advanced := AdvanceTime(s, now);
      match HandleAt(advanced, message, now)
      case Ok(next) => (next, Ok(()))
      case Err(e) => (advanced, Err(e))
  }
}
