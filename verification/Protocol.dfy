/** Messages between the coordinator and its workers, and the checks each side runs on them
    before use. Protobuf bytes are not modelled: a stage carries its decoded wire tree. */
module Protocol {
  import opened Basics
  import WireFormat

  const PROTOCOL_VERSION: nat := 5

  type QueryId = string
  type WorkerId = string
  type StageId = U32

  datatype Failure = ProtocolError | NotFound | TaskSuperseded

  datatype HashExchange = HashExchange(columns: seq<nat>, partitionCount: U32)

  datatype StagePlan = StagePlan(
    queryId: QueryId,
    stageId: StageId,
    inputStages: seq<StageId>,
    partitionCount: U32,
    planFragment: WireFormat.WirePlan,
    outputExchange: Option<HashExchange>,
    partitionedInput: bool)

  datatype TaskAttemptId = TaskAttemptId(queryId: QueryId, stageId: StageId, partitionId: U32, attempt: U32)

  datatype TaskLease = TaskLease(workerId: WorkerId, issuedAt: U64, expiresAt: U64)

  datatype ShuffleLocation =
    | AtWorker(workerId: WorkerId)
    | Flight(workerId: WorkerId, endpoint: string, ticket: string)
    | ObjectStore(uri: string)

  datatype ShuffleBlock = ShuffleBlock(
    producer: TaskAttemptId,
    outputPartition: U32,
    rows: U64,
    bytes: U64,
    checksum: string,
    location: ShuffleLocation)

  datatype TaskState =
    | Running(startedAt: U64)
    | Succeeded(finishedAt: U64, outputBlocks: seq<ShuffleBlock>)
    | Failed(finishedAt: U64, error: string, retryable: bool)
    | Cancelled(finishedAt: U64, reason: string)

  datatype WorkerRegistration = WorkerRegistration(workerId: WorkerId, slots: U32, memoryBytes: U64)

  datatype WorkerHeartbeat = WorkerHeartbeat(
    workerId: WorkerId, observedAt: U64, availableSlots: U32, availableMemory: U64)

  datatype CoordinatorMessage =
    | AssignTask(version: nat, stage: StagePlan, task: TaskAttemptId, lease: TaskLease,
                 inputBlocks: seq<ShuffleBlock>)
    | CancelQuery(version: nat, queryId: QueryId, reason: string)

  datatype WorkerMessage =
    | Register(version: nat, registration: WorkerRegistration)
    | Heartbeat(version: nat, heartbeat: WorkerHeartbeat)
    | TaskUpdate(version: nat, workerId: WorkerId, task: TaskAttemptId, state: TaskState)

  /** Length in UTF-8 bytes, which is what `str::len` counts. */
  function Utf8Length(text: string): nat {
    if text == [] then 0
    else
      Utf8Length(text[1..]) +
      (if text[0] < '\U{80}' then 1
       else if text[0] < '\U{800}' then 2
       else if text[0] < '\U{10000}' then 3
       else 4)
  }

  predicate ValidTextId(id: string) {
    !Blank(id) && Utf8Length(id) <= 128
  }

  predicate ValidStage(stage: StagePlan) {
    && ValidTextId(stage.queryId)
    && stage.partitionCount > 0
    && (stage.outputExchange.Some? ==>
          stage.outputExchange.value.partitionCount > 0 && stage.outputExchange.value.columns != [])
    && (stage.partitionedInput ==> stage.inputStages != [])
    && WireFormat.ValidFragment(stage.planFragment)
    && stage.stageId !in stage.inputStages
    && (forall i, j | 0 <= i < j < |stage.inputStages| :: stage.inputStages[i] != stage.inputStages[j])
  }

  predicate ValidTaskFor(task: TaskAttemptId, stage: StagePlan) {
    && ValidTextId(task.queryId)
    && task.queryId == stage.queryId
    && task.stageId == stage.stageId
    && task.partitionId < stage.partitionCount
  }

  predicate ValidLease(lease: TaskLease) {
    ValidTextId(lease.workerId) && lease.issuedAt < lease.expiresAt
  }

  predicate ValidAuthority(text: string) {
    !Blank(text) && forall i | 0 <= i < |text| :: !IsWhitespace(text[i])
  }

  predicate ValidEndpoint(endpoint: string) {
    || ("http://" <= endpoint && ValidAuthority(endpoint[7..]))
    || ("https://" <= endpoint && ValidAuthority(endpoint[8..]))
  }

  predicate ValidLocation(location: ShuffleLocation) {
    match location
    case AtWorker(workerId) => ValidTextId(workerId)
    case Flight(workerId, endpoint, ticket) =>
      ValidTextId(workerId) && ValidEndpoint(endpoint) && !Blank(ticket)
    case ObjectStore(uri) => !Blank(uri)
  }

  predicate ValidBlock(block: ShuffleBlock) {
    ValidTextId(block.producer.queryId) && !Blank(block.checksum) && ValidLocation(block.location)
  }

  /** A block a worker may report: produced by the reported task and held by that worker. */
  predicate ValidBlockFor(block: ShuffleBlock, task: TaskAttemptId, worker: WorkerId) {
    && ValidBlock(block)
    && block.producer == task
    && (block.location.ObjectStore? || block.location.workerId == worker)
  }

  predicate ValidTaskState(state: TaskState, task: TaskAttemptId, worker: WorkerId) {
    match state
    case Running(_) => true
    case Succeeded(_, blocks) => forall i | 0 <= i < |blocks| :: ValidBlockFor(blocks[i], task, worker)
    case Failed(_, error, _) => !Blank(error)
    case Cancelled(_, reason) => !Blank(reason)
  }

  predicate ValidWorkerMessage(message: WorkerMessage) {
    && message.version == PROTOCOL_VERSION
    && match message
       case Register(_, r) => ValidTextId(r.workerId) && r.slots > 0 && r.memoryBytes > 0
       case Heartbeat(_, h) => ValidTextId(h.workerId)
       case TaskUpdate(_, worker, task, state) =>
         ValidTextId(worker) && ValidTextId(task.queryId) && ValidTaskState(state, task, worker)
  }

  predicate ValidInputBlock(block: ShuffleBlock, stage: StagePlan, task: TaskAttemptId) {
    && ValidBlock(block)
    && (stage.partitionedInput ==> block.outputPartition == task.partitionId)
    && block.producer.queryId == stage.queryId
    && block.producer.stageId in stage.inputStages
  }

  predicate ValidCoordinatorMessage(message: CoordinatorMessage) {
    && message.version == PROTOCOL_VERSION
    && match message
       case AssignTask(_, stage, task, lease, blocks) =>
         && ValidStage(stage) && ValidTaskFor(task, stage) && ValidLease(lease)
         && forall i | 0 <= i < |blocks| :: ValidInputBlock(blocks[i], stage, task)
       case CancelQuery(_, queryId, reason) => ValidTextId(queryId) && !Blank(reason)
  }

  /** `StagePlan::validate`: dependencies go one by one into a set, which refuses repeats. */
  method ValidateStage(stage: StagePlan) returns (ok: bool)
    ensures ok == ValidStage(stage)
  {
    if !ValidTextId(stage.queryId) || stage.partitionCount == 0 { return false; }
    if stage.outputExchange.Some? &&
       (stage.outputExchange.value.partitionCount == 0 || stage.outputExchange.value.columns == [])
    {
      return false;
    }
    if stage.partitionedInput && stage.inputStages == [] { return false; }
    if !WireFormat.ValidFragment(stage.planFragment) { return false; }
    var dependencies: set<StageId> := {};
    for n := 0 to |stage.inputStages|
      invariant dependencies == set i | 0 <= i < n :: stage.inputStages[i]
      invariant stage.stageId !in dependencies
      invariant forall i, j | 0 <= i < j < n :: stage.inputStages[i] != stage.inputStages[j]
    {
      var dependency := stage.inputStages[n];
      if dependency == stage.stageId || dependency in dependencies { return false; }
      dependencies := dependencies + {dependency};
    }
    return true;
  }
}
