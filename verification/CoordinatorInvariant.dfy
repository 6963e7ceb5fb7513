/** The invariant every coordinator transition keeps: slots are conserved, dead workers hold
    nothing, committed blocks are well addressed and cancelled queries have no work left. */
module CoordinatorInvariant {
  import opened Basics
  import opened Protocol
  import opened CoordinatorState

  ghost predicate TaskIs(task: TaskAttemptId, k: StageKey, i: int, config: Config) {
    && task.queryId == k.0 && task.stageId == k.1 && task.partitionId == i
    && task.attempt < config.maxTaskAttempts
  }

  ghost predicate LeaseIs(lease: TaskLease, w: WorkerId) {
    lease.workerId == w && lease.issuedAt < lease.expiresAt
  }

  /** What partition `i` of stage `k` may look like, given whether its query is cancelled. */
  ghost predicate PartitionOk(s: State, k: StageKey, i: int, p: Partition)
    requires k in s.stages
  {
    var isCancelled := k.0 in s.cancelled;
    match p
    case Pending(next) => next < s.config.maxTaskAttempts && !isCancelled
    case Active(task, w, lease, _) =>
      TaskIs(task, k, i, s.config) && LeaseIs(lease, w) && w in s.workers && !isCancelled
    case Cancelling(task, w, lease) =>
      TaskIs(task, k, i, s.config) && LeaseIs(lease, w) && w in s.workers && isCancelled
    case Done(task, blocks) =>
      && TaskIs(task, k, i, s.config)
      && (forall b | 0 <= b < |blocks| :: ValidBlock(blocks[b]) && blocks[b].producer == task)
      && ExchangeOk(s.stages[k].plan, Succeeded(0, blocks))
    case Lost(attempt, _, _) => attempt < s.config.maxTaskAttempts && !isCancelled
    case Withdrawn => true
  }

  ghost predicate PartitionsOk(s: State) {
    forall k, i | s.Has(k, i) :: PartitionOk(s, k, i, s.At(k, i))
  }

  /** Dependencies are submitted first, and a partitioned reader matches its producers' exchange. */
  ghost predicate StageOk(s: State, k: StageKey)
    requires k in s.stages
  {
    var plan := s.stages[k].plan;
    && ValidStage(plan)
    && (forall d | d in plan.inputStages ::
          && (k.0, d) in s.stages
          && (plan.partitionedInput ==>
                var upstream := s.stages[(k.0, d)].plan.outputExchange;
                upstream.Some? && upstream.value.partitionCount == plan.partitionCount))
  }

  /** Slot conservation for one worker. */
  ghost predicate WorkerOk(s: State, w: WorkerId)
    requires w in s.workers
  {
    var worker := s.workers[w];
    && worker.registration.workerId == w
    && ValidTextId(w)
    && (worker.alive ==> worker.availableSlots + |LiveTasks(s, w)| <= worker.registration.slots)
    && (!worker.alive ==> worker.availableSlots == 0 && LiveTasks(s, w) == {})
  }

  ghost predicate PlansOk(s: State) {
    forall k | k in s.stages :: StageOk(s, k)
  }

  ghost predicate WorkersOk(s: State) {
    forall w | w in s.workers :: WorkerOk(s, w)
  }

  ghost predicate Inv(s: State) {
    && ValidConfig(s.config)
    && Shaped(s)
    && PlansOk(s)
    && PartitionsOk(s)
    && WorkersOk(s)
  }

  lemma InitInv(config: Config)
    requires ValidConfig(config)
    ensures Inv(Init(config))
  {
  }

  /** Plans never change, so whatever is true of them stays true. */
  lemma PlansKept(s: State, s': State)
    requires Shaped(s) && PlansOk(s) && s'.stages.Keys == s.stages.Keys
    requires forall k | k in s.stages ::
               s'.stages[k].plan == s.stages[k].plan
               && |s'.stages[k].partitions| == |s.stages[k].partitions|
    ensures Shaped(s') && PlansOk(s')
  {
    forall k | k in s'.stages ensures StageOk(s', k) { assert StageOk(s, k); }
  }

  lemma PartitionKept(s: State, s': State, k: StageKey, i: int, p: Partition)
    requires k in s.stages && k in s'.stages && PartitionOk(s, k, i, p)
    requires s'.config == s.config && s'.stages[k].plan == s.stages[k].plan
    requires s.workers.Keys <= s'.workers.Keys && (k.0 in s'.cancelled <==> k.0 in s.cancelled)
    ensures PartitionOk(s', k, i, p)
  {
  }

  // ----- single-partition writes -----------------------------------------------------------

  lemma PutReads(s: State, k: StageKey, i: int, p: Partition)
    requires s.Has(k, i)
    ensures forall k', i' :: s.Put(k, i, p).Has(k', i') <==> s.Has(k', i')
    ensures forall k', i' | s.Has(k', i') ::
              s.Put(k, i, p).At(k', i') == if (k', i') == (k, i) then p else s.At(k', i')
  {
  }

  lemma LiveTasksPut(s: State, k: StageKey, i: int, p: Partition, w: WorkerId)
    requires s.Has(k, i)
    ensures LiveTasks(s.Put(k, i, p), w) ==
            LiveTasks(s, w) - {(k, i)} + (if p.HeldBy(w) then {(k, i)} else {})
  {
    PutReads(s, k, i, p);
    var s' := s.Put(k, i, p);
    forall k', i'
      ensures (k', i') in LiveTasks(s', w) <==>
              (k', i') in LiveTasks(s, w) - {(k, i)} + (if p.HeldBy(w) then {(k, i)} else {})
    {
      assert (k', i') in LiveTasks(s', w) <==> s'.Has(k', i') && s'.At(k', i').HeldBy(w);
      assert (k', i') in LiveTasks(s, w) <==> s.Has(k', i') && s.At(k', i').HeldBy(w);
    }
  }

  lemma LiveTasksPutSame(s: State, k: StageKey, i: int, p: Partition, w: WorkerId)
    requires s.Has(k, i) && (p.HeldBy(w) <==> s.At(k, i).HeldBy(w))
    ensures LiveTasks(s.Put(k, i, p), w) == LiveTasks(s, w)
  {
    LiveTasksPut(s, k, i, p, w);
    assert (k, i) in LiveTasks(s, w) <==> s.At(k, i).HeldBy(w);
  }

  /** A state with the same stages map has the same live tasks. */
  lemma LiveTasksSameStages(s: State, s': State, w: WorkerId)
    requires s.stages == s'.stages
    ensures LiveTasks(s, w) == LiveTasks(s', w)
  {
    forall k, i ensures (k, i) in LiveTasks(s, w) <==> (k, i) in LiveTasks(s', w) {
      assert s.Has(k, i) <==> s'.Has(k, i);
    }
  }

  /** Writing one well-formed partition keeps every clause that is not about slots. */
  lemma PutKeeps(s: State, s': State, k: StageKey, i: int, p: Partition)
    requires Inv(s) && s.Has(k, i) && PartitionOk(s, k, i, p)
    requires s'.stages == s.Put(k, i, p).stages && s'.workers.Keys == s.workers.Keys
    requires s'.config == s.config && s'.cancelled == s.cancelled
    ensures Shaped(s') && PartitionsOk(s') && PlansOk(s')
  {
    PutReads(s, k, i, p);
    PlansKept(s, s');
    forall k', i' | s'.Has(k', i') ensures PartitionOk(s', k', i', s'.At(k', i')) {
      assert s.Put(k, i, p).Has(k', i') && s.Has(k', i');
      PartitionKept(s, s', k', i', s'.At(k', i'));
    }
  }

  /** Ending a live task: its slot goes back to the worker that held it. */
  lemma EndTaskInv(s: State, k: StageKey, i: int, p: Partition)
    requires Inv(s) && s.Has(k, i) && s.At(k, i).Live() && !p.Live()
    requires PartitionOk(s, k, i, p)
    ensures Inv(ReleaseSlot(s.Put(k, i, p), s.At(k, i).workerId))
  {
    var holder := s.At(k, i).workerId;
    var s' := ReleaseSlot(s.Put(k, i, p), holder);
    assert PartitionOk(s, k, i, s.At(k, i));
    PutKeeps(s, s', k, i, p);
    forall w | w in s'.workers ensures WorkerOk(s', w) { EndTaskWorker(s, k, i, p, w); }
  }

  lemma EndTaskWorker(s: State, k: StageKey, i: int, p: Partition, w: WorkerId)
    requires s.Has(k, i) && s.At(k, i).Live() && !p.Live()
    requires w in s.workers && WorkerOk(s, w)
    ensures WorkerOk(ReleaseSlot(s.Put(k, i, p), s.At(k, i).workerId), w)
  {
    LiveTasksPut(s, k, i, p, w);
    LiveTasksSameStages(s.Put(k, i, p), ReleaseSlot(s.Put(k, i, p), s.At(k, i).workerId), w);
    assert (k, i) in LiveTasks(s, w) <==> s.At(k, i).workerId == w;
  }

  // ----- transitions -----------------------------------------------------------------------

  lemma SubmitInv(s: State, plan: StagePlan)
    requires Inv(s)
    ensures Inv(SubmitStage(s, plan).0)
  {
    if Submittable(s, plan) {
      var s' := SubmitStage(s, plan).0;
      var key := (plan.queryId, plan.stageId);
      forall k, i | s'.Has(k, i) ensures PartitionOk(s', k, i, s'.At(k, i)) {
        if k != key {
          assert s.Has(k, i);
          PartitionKept(s, s', k, i, s.At(k, i));
        }
      }
      forall k | k in s'.stages ensures StageOk(s', k) {
        if k != key { assert StageOk(s, k); }
      }
      hide PartitionOk; hide StageOk; hide WorkerOk;
      forall w | w in s'.workers ensures WorkerOk(s', w) { SubmittedWorkerOk(s, plan, w); }
    }
  }

  lemma SubmittedWorkerOk(s: State, plan: StagePlan, w: WorkerId)
    requires WorkersOk(s) && Submittable(s, plan) && w in s.workers
    ensures WorkerOk(SubmitStage(s, plan).0, w)
  {
    var s', key := SubmitStage(s, plan).0, (plan.queryId, plan.stageId);
    assert WorkerOk(s, w);
    forall k, i ensures (k, i) in LiveTasks(s, w) <==> (k, i) in LiveTasks(s', w) {
      if k != key { assert s.Has(k, i) <==> s'.Has(k, i); }
    }
    assert LiveTasks(s, w) == LiveTasks(s', w);
  }

  lemma AdvanceReads(s: State, now: U64)
    ensures forall k, i :: AdvanceTime(s, now).Has(k, i) <==> s.Has(k, i)
    ensures forall k, i | s.Has(k, i) :: AdvanceTime(s, now).At(k, i) == Expire(s, s.At(k, i), now)
  {
  }

  lemma AdvanceLiveTasks(s: State, w: WorkerId, now: U64)
    ensures LiveTasks(AdvanceTime(s, now), w) == LiveTasks(s, w) - ExpiredTasks(s, w, now)
    ensures ExpiredTasks(s, w, now) <= LiveTasks(s, w)
    ensures TimedOut(s, w, now) ==> LiveTasks(AdvanceTime(s, now), w) == {}
  {
    AdvanceReads(s, now);
    var s' := AdvanceTime(s, now);
    forall k, i
      ensures (k, i) in LiveTasks(s', w) <==> (k, i) in LiveTasks(s, w) - ExpiredTasks(s, w, now)
      ensures (k, i) in ExpiredTasks(s, w, now) ==> (k, i) in LiveTasks(s, w)
    {
      assert (k, i) in LiveTasks(s', w) <==> s'.Has(k, i) && s'.At(k, i).HeldBy(w);
    }
    assert LiveTasks(s', w) == LiveTasks(s, w) - ExpiredTasks(s, w, now);
  }

  lemma ExpireOk(s: State, k: StageKey, i: int, now: U64)
    requires s.Has(k, i) && PartitionOk(s, k, i, s.At(k, i))
    ensures PartitionOk(s, k, i, Expire(s, s.At(k, i), now))
  {
  }

  lemma AdvanceInv(s: State, now: U64)
    requires Inv(s)
    ensures Inv(AdvanceTime(s, now))
  {
    AdvanceReads(s, now);
    var s' := AdvanceTime(s, now);
    forall k, i | s'.Has(k, i) ensures PartitionOk(s', k, i, s'.At(k, i)) {
      assert s.Has(k, i);
      ExpireOk(s, k, i, now);
      PartitionKept(s, s', k, i, s'.At(k, i));
    }
    PlansKept(s, s');
    hide PartitionOk; hide StageOk; hide WorkerOk;
    forall w | w in s'.workers ensures WorkerOk(s', w) { AdvancedWorkerOk(s, w, now); }
  }

  lemma AdvancedWorkerOk(s: State, w: WorkerId, now: U64)
    requires WorkersOk(s) && w in s.workers
    ensures WorkerOk(AdvanceTime(s, now), w)
  {
    var s' := AdvanceTime(s, now);
    assert WorkerOk(s, w);
    AdvanceLiveTasks(s, w, now);
    SubsetCardinality(ExpiredTasks(s, w, now), LiveTasks(s, w));
    assert |LiveTasks(s', w)| == |LiveTasks(s, w)| - |ExpiredTasks(s, w, now)|;
  }

  lemma TakeInv(s: State, k: StageKey, i: int, w: WorkerId, now: U64)
    requires Inv(s) && s.Has(k, i) && s.At(k, i).Pending? && Idle(s, w)
    requires now + s.config.leaseDuration <= U64_MAX
    ensures Inv(Take(s, k, i, w, now))
  {
    var s' := Take(s, k, i, w, now);
    var p := Active(TaskFor(k, i, s.At(k, i)), w, LeaseFor(s, w, now), None);
    assert PartitionOk(s, k, i, s.At(k, i));
    PutKeeps(s, s', k, i, p);
    hide PartitionsOk; hide PlansOk; hide Shaped; hide WorkerOk;
    forall v | v in s'.workers ensures WorkerOk(s', v) { TakenWorkerOk(s, k, i, w, now, v); }
  }

  lemma TakenWorkerOk(s: State, k: StageKey, i: int, w: WorkerId, now: U64, v: WorkerId)
    requires WorkersOk(s) && s.Has(k, i) && s.At(k, i).Pending? && i <= U32_MAX && Idle(s, w) && v in s.workers
    requires now + s.config.leaseDuration <= U64_MAX
    ensures WorkerOk(Take(s, k, i, w, now), v)
  {
    var p := Active(TaskFor(k, i, s.At(k, i)), w, LeaseFor(s, w, now), None);
    assert WorkerOk(s, v);
    LiveTasksPut(s, k, i, p, v);
    LiveTasksSameStages(s.Put(k, i, p), Take(s, k, i, w, now), v);
    assert (k, i) !in LiveTasks(s, v);
  }

  lemma AssignInv(s: State, w: WorkerId, now: U64)
    requires Inv(s) && Idle(s, w)
    ensures Inv(Assign(s, w, now).0)
  {
    var next := NextPending(s);
    if next.Some? && now + s.config.leaseDuration <= U64_MAX {
      TakeInv(s, next.value.0, next.value.1, w, now);
    }
  }

  lemma CancelReads(s: State, q: QueryId, reason: string)
    ensures var s' := Cancel(s, q, reason).0;
      && (forall k, i :: s'.Has(k, i) <==> s.Has(k, i))
      && (forall k, i | s.Has(k, i) ::
            s'.At(k, i) == if s' != s && k.0 == q then Withdraw(s.At(k, i)) else s.At(k, i))
  {
  }

  lemma CancelInv(s: State, q: QueryId, reason: string)
    requires Inv(s)
    ensures Inv(Cancel(s, q, reason).0)
  {
    var s' := Cancel(s, q, reason).0;
    if s' != s {
      CancelReads(s, q, reason);
      PlansKept(s, s');
      forall k, i | s'.Has(k, i) ensures PartitionOk(s', k, i, s'.At(k, i)) {
        assert s.Has(k, i);
        if k.0 == q { WithdrawOk(s, s', k, i, s.At(k, i)); }
        else { PartitionKept(s, s', k, i, s.At(k, i)); }
      }
      forall w | w in s'.workers ensures WorkerOk(s', w) {
        assert WorkerOk(s, w);
        CancelLiveTasks(s, q, reason, w);
      }
    }
  }

  lemma WithdrawOk(s: State, s': State, k: StageKey, i: int, p: Partition)
    requires k in s.stages && k in s'.stages && PartitionOk(s, k, i, p)
    requires s'.config == s.config && s'.stages[k].plan == s.stages[k].plan
    requires s.workers == s'.workers && k.0 !in s.cancelled && k.0 in s'.cancelled
    ensures PartitionOk(s', k, i, Withdraw(p))
  {
  }

  /** Cancelling keeps every slot taken until the worker answers or its lease runs out. */
  lemma CancelLiveTasks(s: State, q: QueryId, reason: string, w: WorkerId)
    requires Inv(s)
    ensures LiveTasks(Cancel(s, q, reason).0, w) == LiveTasks(s, w)
  {
    var s' := Cancel(s, q, reason).0;
    if s' != s {
      CancelReads(s, q, reason);
      forall k, i ensures (k, i) in LiveTasks(s', w) <==> (k, i) in LiveTasks(s, w) {
        assert s'.Has(k, i) <==> s.Has(k, i);
        if s.Has(k, i) { assert PartitionOk(s, k, i, s.At(k, i)); }
      }
    }
  }

  lemma RegisterInv(s: State, r: WorkerRegistration, now: U64)
    requires Inv(s) && ValidTextId(r.workerId)
    ensures RegisterWorker(s, r, now).Ok? ==> Inv(RegisterWorker(s, r, now).value)
  {
    if r.workerId !in s.workers {
      var s' := RegisterWorker(s, r, now).value;
      forall w | w in s'.workers ensures WorkerOk(s', w) {
        LiveTasksSameStages(s, s', w);
        if w != r.workerId { assert WorkerOk(s, w); }
        else { NoTasksUnlessRegistered(s, w); }
      }
      forall k, i | s'.Has(k, i) ensures PartitionOk(s', k, i, s'.At(k, i)) {
        assert s.Has(k, i);
        PartitionKept(s, s', k, i, s.At(k, i));
      }
      PlansKept(s, s');
    }
  }

  lemma NoTasksUnlessRegistered(s: State, w: WorkerId)
    requires Inv(s) && w !in s.workers
    ensures LiveTasks(s, w) == {}
  {
    forall k, i ensures (k, i) !in LiveTasks(s, w) {
      if s.Has(k, i) { assert PartitionOk(s, k, i, s.At(k, i)); }
    }
  }

  lemma HeartbeatInv(s: State, h: WorkerHeartbeat, now: U64)
    requires Inv(s)
    ensures RecordHeartbeat(s, h, now).Ok? ==> Inv(RecordHeartbeat(s, h, now).value)
  {
    if RecordHeartbeat(s, h, now).Ok? {
      var s' := RecordHeartbeat(s, h, now).value;
      forall w | w in s'.workers ensures WorkerOk(s', w) {
        assert WorkerOk(s, w);
        LiveTasksSameStages(s, s', w);
      }
      forall k, i | s'.Has(k, i) ensures PartitionOk(s', k, i, s'.At(k, i)) {
        assert s.Has(k, i);
        PartitionKept(s, s', k, i, s.At(k, i));
      }
      PlansKept(s, s');
    }
  }

  /** A report that neither starts nor ends a task leaves the slots alone. */
  lemma StartedInv(s: State, k: StageKey, i: int, at: U64)
    requires Inv(s) && s.Has(k, i) && s.At(k, i).Active?
    ensures Inv(s.Put(k, i, s.At(k, i).(startedAt := Some(at))))
  {
    var p := s.At(k, i).(startedAt := Some(at));
    var s' := s.Put(k, i, p);
    assert PartitionOk(s, k, i, s.At(k, i));
    PutKeeps(s, s', k, i, p);
    forall w | w in s'.workers ensures WorkerOk(s', w) {
      assert WorkerOk(s, w);
      LiveTasksPutSame(s, k, i, p, w);
    }
  }

  lemma TaskUpdateInv(s: State, w: WorkerId, task: TaskAttemptId, state: TaskState, now: U64)
    requires Inv(s) && ValidTaskState(state, task, w)
    ensures RecordTaskUpdate(s, w, task, state, now).Ok? ==>
              Inv(RecordTaskUpdate(s, w, task, state, now).value)
  {
    if RecordTaskUpdate(s, w, task, state, now).Ok? {
      var k, i := (task.queryId, task.stageId), task.partitionId;
      var p := s.At(k, i);
      assert PartitionOk(s, k, i, p);
      if !state.Running? {
        var ended := if p.Cancelling? then Withdrawn else Conclude(s.config.maxTaskAttempts, task, state);
        if p.Active? { ConcludeOk(s, k, i, w, task, state); }
        EndTaskInv(s, k, i, ended);
      } else if p.Active? {
        StartedInv(s, k, i, state.startedAt);
      }
    }
  }

  lemma ConcludeOk(s: State, k: StageKey, i: int, w: WorkerId, task: TaskAttemptId, state: TaskState)
    requires k in s.stages && TaskIs(task, k, i, s.config) && k.0 !in s.cancelled
    requires ValidTaskState(state, task, w) && !state.Running? && ExchangeOk(s.stages[k].plan, state)
    ensures PartitionOk(s, k, i, Conclude(s.config.maxTaskAttempts, task, state))
    ensures !Conclude(s.config.maxTaskAttempts, task, state).Live()
  {
  }

  lemma HandleInv(s: State, message: WorkerMessage, now: U64)
    requires Inv(s)
    ensures Inv(Handle(s, message, now).0)
  {
    if ValidWorkerMessage(message) {
      AdvanceInv(s, now);
      var s' := AdvanceTime(s, now);
      match message
      case Register(_, r) => RegisterInv(s', r, now);
      case Heartbeat(_, h) => HeartbeatInv(s', h, now);
      case TaskUpdate(_, w, task, state) => TaskUpdateInv(s', w, task, state, now);
    }
  }
}
