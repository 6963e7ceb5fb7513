/** Runs of the coordinator: any sequence of calls with any timestamps, and how the state
    may evolve along one. */
module CoordinatorRuns {
  import opened Basics
  import opened Protocol
  import opened CoordinatorState
  import opened CoordinatorInvariant

  datatype Event =
    | Submit(plan: StagePlan)
    | Message(message: WorkerMessage, at: U64)
    | Poll(at: U64)
    | PollFor(worker: WorkerId, at: U64)
    | RequestCancel(queryId: QueryId, reason: string)
    | Clock(at: U64)

  datatype Reply = Ack | Sent(message: Option<CoordinatorMessage>) | Refused(error: Failure)

  function AckOf(r: Result<(), Failure>): Reply {
    if r.Ok? then Ack else Refused(r.error)
  }

  function PollReplyOf(r: PollReply): Reply {
    if r.Ok? then Sent(r.value) else Refused(r.error)
  }

  ghost function Step(s: State, e: Event): (State, Reply)
  {
    match e
    case Submit(plan) => var (s', r) := SubmitStage(s, plan); (s', AckOf(r))
    case Message(message, at) => var (s', r) := Handle(s, message, at); (s', AckOf(r))
    case Poll(at) => var (s', r) := NextAssignment(s, at); (s', PollReplyOf(r))
    case PollFor(w, at) => var (s', r) := NextAssignmentFor(s, w, at); (s', PollReplyOf(r))
    case RequestCancel(q, reason) =>
      var (s', r) := Cancel(s, q, reason);
      (s', if r.Ok? then Sent(Some(r.value)) else Refused(r.error))
    case Clock(at) => (AdvanceTime(s, at), Ack)
  }

  lemma NextAssignmentInv(s: State, now: U64)
    requires Inv(s)
    ensures Inv(NextAssignment(s, now).0)
  {
    AdvanceInv(s, now);
    var s1 := AdvanceTime(s, now);
    if w :| Idle(s1, w) {
      FirstIdleExists(s1, w);
      forall first | FirstIdle(s1, first) { AssignInv(s1, first, now); }
    }
  }

  lemma NextAssignmentForInv(s: State, w: WorkerId, now: U64)
    requires Inv(s)
    ensures Inv(NextAssignmentFor(s, w, now).0)
  {
    AdvanceInv(s, now);
    if Idle(AdvanceTime(s, now), w) { AssignInv(AdvanceTime(s, now), w, now); }
  }

  lemma StepInv(s: State, e: Event)
    requires Inv(s)
    ensures Inv(Step(s, e).0)
  {
    match e
    case Submit(plan) => SubmitInv(s, plan);
    case Message(message, at) => HandleInv(s, message, at);
    case Poll(at) => NextAssignmentInv(s, at);
    case PollFor(w, at) => NextAssignmentForInv(s, w, at);
    case RequestCancel(q, reason) => CancelInv(s, q, reason);
    case Clock(at) => AdvanceInv(s, at);
  }

  /** A run: the calls made, the state before and after each, and the replies. */
  datatype Trace = Trace(config: Config, events: seq<Event>, states: seq<State>, replies: seq<Reply>)

  ghost predicate Steps(t: Trace, n: int)
    requires 0 <= n < |t.events| == |t.replies| && |t.states| == |t.events| + 1
  {
    Step(t.states[n], t.events[n]) == (t.states[n + 1], t.replies[n])
  }

  ghost predicate IsRun(t: Trace) {
    && ValidConfig(t.config)
    && |t.replies| == |t.events| && |t.states| == |t.events| + 1
    && t.states[0] == Init(t.config)
    && forall n | 0 <= n < |t.events| :: Steps(t, n)
  }

  /** Every sequence of calls has a run. */
  lemma {:induction false} RunExists(config: Config, events: seq<Event>) returns (t: Trace)
    requires ValidConfig(config)
    ensures IsRun(t) && t.config == config && t.events == events
  {
    if events == [] {
      t := Trace(config, [], [Init(config)], []);
    } else {
      var last := |events| - 1;
      var before := RunExists(config, events[..last]);
      RunInv(before, last);
      var (next, reply) := Step(before.states[last], events[last]);
      t := Trace(config, events, before.states + [next], before.replies + [reply]);
      forall n | 0 <= n < |events| ensures Steps(t, n) {
        if n < last { assert Steps(before, n); }
      }
    }
  }

  /** The invariant holds in every state of every run: slots are conserved throughout. */
  lemma {:induction false} RunInv(t: Trace, n: nat)
    requires IsRun(t) && n < |t.states|
    ensures Inv(t.states[n]) && t.states[n].config == t.config
  {
    if n == 0 {
      InitInv(t.config);
    } else {
      RunInv(t, n - 1);
      assert Steps(t, n - 1);
      StepInv(t.states[n - 1], t.events[n - 1]);
      StepEvolves(t.states[n - 1], t.events[n - 1]);
    }
  }

  /** Slot conservation, spelled out: in every state of every run, a live worker's free slots and
      the tasks it holds fit the slots it registered, and a dead worker has neither. */
  lemma SlotsAreConserved(t: Trace, n: nat, w: WorkerId)
    requires IsRun(t) && n < |t.states| && w in t.states[n].workers
    ensures var s := t.states[n];
      if s.workers[w].alive then s.workers[w].availableSlots + |LiveTasks(s, w)| <= s.workers[w].registration.slots
      else s.workers[w].availableSlots == 0 && LiveTasks(s, w) == {}
  {
    hide Step;
    RunInv(t, n);
    assert WorkerOk(t.states[n], w);
  }

  // ----- evolution -------------------------------------------------------------------------

  /** How many leases a partition has used up; withdrawn partitions have used all of them. */
  function Rank(config: Config, p: Partition): nat {
    match p
    case Pending(next) => next
    case Active(task, _, _, _) => task.attempt + 1
    case Cancelling(task, _, _) => task.attempt + 1
    case Done(task, _) => task.attempt + 1
    case Lost(attempt, _, _) => attempt + 1
    case Withdrawn => config.maxTaskAttempts
  }

  /** The moves a partition can make: its rank never falls, a commit is permanent, and once its
      query is cancelled only the end of a cancelling lease remains. */
  ghost predicate Moves(config: Config, isCancelled: bool, p: Partition, p': Partition) {
    && Rank(config, p) <= Rank(config, p')
    && (p.Done? ==> p' == p)
    && (p.Withdrawn? ==> p' == p)
    && (isCancelled ==> p' == p || (p.Cancelling? && p'.Withdrawn?))
  }

  ghost predicate Evolves(s: State, s': State) {
    && s'.config == s.config
    && (forall q | q in s.cancelled :: q in s'.cancelled)
    && (forall w | w in s.workers ::
          w in s'.workers && s'.workers[w].registration == s.workers[w].registration)
    && (forall k | k in s.stages :: k in s'.stages && s'.stages[k].plan == s.stages[k].plan)
    && (forall k | k in s'.stages && k.0 in s.cancelled :: k in s.stages)
    && (forall k, i | s.Has(k, i) ::
          s'.Has(k, i) && Moves(s.config, k.0 in s.cancelled, s.At(k, i), s'.At(k, i)))
  }

  lemma EvolvesReflexive(s: State)
    ensures Evolves(s, s)
  {
  }

  lemma EvolvesTransitive(s: State, s': State, s'': State)
    requires Evolves(s, s') && Evolves(s', s'')
    ensures Evolves(s, s'')
  {
    forall k, i | s.Has(k, i)
      ensures s''.Has(k, i) && Moves(s.config, k.0 in s.cancelled, s.At(k, i), s''.At(k, i))
    {
      assert s'.Has(k, i);
    }
  }

  lemma AdvanceEvolves(s: State, now: U64)
    requires Inv(s)
    ensures Evolves(s, AdvanceTime(s, now))
  {
    AdvanceReads(s, now);
    assert PartitionsOk(s);
    hide Inv; hide Expire; hide AdvanceStage;
    forall k, i | s.Has(k, i)
      ensures Moves(s.config, k.0 in s.cancelled, s.At(k, i), AdvanceTime(s, now).At(k, i))
    {
      ExpireMoves(s, k, i, now);
    }
    AdvancePlans(s, now);
  }

  lemma ExpireMoves(s: State, k: StageKey, i: int, now: U64)
    requires s.Has(k, i) && PartitionOk(s, k, i, s.At(k, i))
    ensures Moves(s.config, k.0 in s.cancelled, s.At(k, i), Expire(s, s.At(k, i), now))
  {
  }

  lemma AdvancePlans(s: State, now: U64)
    ensures AdvanceTime(s, now).stages.Keys == s.stages.Keys
    ensures forall k | k in s.stages :: AdvanceTime(s, now).stages[k].plan == s.stages[k].plan
  {
  }

  lemma PutEvolves(s: State, s': State, k: StageKey, i: int, p: Partition)
    requires s.Has(k, i) && Moves(s.config, k.0 in s.cancelled, s.At(k, i), p)
    requires s'.stages == s.Put(k, i, p).stages && s'.config == s.config && s'.cancelled == s.cancelled
    requires forall w | w in s.workers ::
               w in s'.workers && s'.workers[w].registration == s.workers[w].registration
    ensures Evolves(s, s')
  {
    PutReads(s, k, i, p);
    forall k', i' | s.Has(k', i')
      ensures s'.Has(k', i') && Moves(s.config, k'.0 in s.cancelled, s.At(k', i'), s'.At(k', i'))
    {
      assert s.Put(k, i, p).Has(k', i');
    }
  }

  lemma TakeReads(s: State, k: StageKey, i: int, w: WorkerId, now: U64)
    requires Inv(s) && s.Has(k, i) && s.At(k, i).Pending? && Idle(s, w)
    requires now + s.config.leaseDuration <= U64_MAX
    ensures forall k', i' :: Take(s, k, i, w, now).Has(k', i') <==> s.Has(k', i')
    ensures forall k', i' | s.Has(k', i') && (k', i') != (k, i) ::
              Take(s, k, i, w, now).At(k', i') == s.At(k', i')
    ensures Take(s, k, i, w, now).At(k, i) ==
              Active(TaskAttemptId(k.0, k.1, i, s.At(k, i).nextAttempt), w, LeaseFor(s, w, now), None)
  {
    var p := Active(TaskFor(k, i, s.At(k, i)), w, LeaseFor(s, w, now), None);
    PutReads(s, k, i, p);
    assert Take(s, k, i, w, now).stages == s.Put(k, i, p).stages;
    forall k', i' ensures Take(s, k, i, w, now).Has(k', i') <==> s.Has(k', i') {
      assert s.Put(k, i, p).Has(k', i') <==> s.Has(k', i');
    }
  }

  lemma TakeEvolves(s: State, k: StageKey, i: int, w: WorkerId, now: U64)
    requires Inv(s) && s.Has(k, i) && s.At(k, i).Pending? && Idle(s, w)
    requires now + s.config.leaseDuration <= U64_MAX
    ensures Evolves(s, Take(s, k, i, w, now))
  {
    assert PartitionOk(s, k, i, s.At(k, i));
    PutEvolves(s, Take(s, k, i, w, now), k, i,
               Active(TaskFor(k, i, s.At(k, i)), w, LeaseFor(s, w, now), None));
  }

  lemma AssignEvolves(s: State, w: WorkerId, now: U64)
    requires Inv(s) && Idle(s, w)
    ensures Evolves(s, Assign(s, w, now).0)
  {
    hide Inv; hide Evolves; hide Take;
    EvolvesReflexive(s);
    var next := NextPending(s);
    if next.Some? && now + s.config.leaseDuration <= U64_MAX {
      TakeEvolves(s, next.value.0, next.value.1, w, now);
    }
  }

  lemma SubmitEvolves(s: State, plan: StagePlan)
    requires Inv(s)
    ensures Evolves(s, SubmitStage(s, plan).0)
  {
    hide Inv;
    forall k, i | s.Has(k, i)
      ensures SubmitStage(s, plan).0.Has(k, i) && SubmitStage(s, plan).0.At(k, i) == s.At(k, i)
    {
    }
  }

  lemma WithdrawMoves(s: State, k: StageKey, i: int)
    requires s.Has(k, i) && PartitionOk(s, k, i, s.At(k, i))
    ensures k.0 !in s.cancelled ==> Moves(s.config, false, s.At(k, i), Withdraw(s.At(k, i)))
    ensures Moves(s.config, k.0 in s.cancelled, s.At(k, i), s.At(k, i))
  {
  }

  lemma CancelEvolves(s: State, q: QueryId, reason: string)
    requires Inv(s)
    ensures Evolves(s, Cancel(s, q, reason).0)
  {
    CancelReads(s, q, reason);
    var s' := Cancel(s, q, reason).0;
    assert PartitionsOk(s);
    hide Inv; hide ValidCoordinatorMessage; hide QueryKnown;
    forall k, i | s.Has(k, i)
      ensures s'.Has(k, i) && Moves(s.config, k.0 in s.cancelled, s.At(k, i), s'.At(k, i))
    {
      WithdrawMoves(s, k, i);
    }
  }

  lemma ReportMoves(s: State, k: StageKey, i: int, task: TaskAttemptId, state: TaskState, p': Partition)
    requires s.Has(k, i) && s.At(k, i).Live() && s.At(k, i).task == task
    requires PartitionOk(s, k, i, s.At(k, i))
    requires s.At(k, i).Cancelling? ==> p'.Withdrawn?
    requires s.At(k, i).Active? && state.Running? ==> p' == s.At(k, i).(startedAt := Some(state.startedAt))
    requires s.At(k, i).Active? && !state.Running? ==> p' == Conclude(s.config.maxTaskAttempts, task, state)
    ensures Moves(s.config, k.0 in s.cancelled, s.At(k, i), p')
  {
  }

  lemma TaskUpdateEvolves(s: State, w: WorkerId, task: TaskAttemptId, state: TaskState, now: U64)
    requires Inv(s)
    ensures RecordTaskUpdate(s, w, task, state, now).Ok? ==>
              Evolves(s, RecordTaskUpdate(s, w, task, state, now).value)
  {
    EvolvesReflexive(s);
    var r := RecordTaskUpdate(s, w, task, state, now);
    if r.Ok? && r.value != s {
      var k, i := (task.queryId, task.stageId), task.partitionId;
      var p := s.At(k, i);
      assert PartitionOk(s, k, i, p);
      var p' := if p.Cancelling? then Withdrawn
                else if state.Running? then p.(startedAt := Some(state.startedAt))
                else Conclude(s.config.maxTaskAttempts, task, state);
      ReportMoves(s, k, i, task, state, p');
      PutEvolves(s, r.value, k, i, p');
    }
  }

  lemma HandleEvolves(s: State, message: WorkerMessage, now: U64)
    requires Inv(s)
    ensures Evolves(s, Handle(s, message, now).0)
  {
    EvolvesReflexive(s);
    if ValidWorkerMessage(message) {
      AdvanceEvolves(s, now);
      AdvanceInv(s, now);
      var s1 := AdvanceTime(s, now);
      EvolvesReflexive(s1);
      HandleAtEvolves(s1, message, now);
      EvolvesTransitive(s, s1, Handle(s, message, now).0);
    }
  }

  lemma HandleAtEvolves(s: State, message: WorkerMessage, now: U64)
    requires Inv(s)
    ensures HandleAt(s, message, now).Ok? ==> Evolves(s, HandleAt(s, message, now).value)
  {
    match message
    case Register(_, r) => SameStagesEvolves(s, RegisterWorker(s, r, now));
    case Heartbeat(_, h) => SameStagesEvolves(s, RecordHeartbeat(s, h, now));
    case TaskUpdate(_, w, task, state) => TaskUpdateEvolves(s, w, task, state, now);
  }

  lemma SameStagesEvolves(s: State, r: Result<State, Failure>)
    requires r.Ok? ==> r.value.stages == s.stages && r.value.config == s.config && r.value.cancelled == s.cancelled
    requires r.Ok? ==> forall w | w in s.workers ::
               w in r.value.workers && r.value.workers[w].registration == s.workers[w].registration
    ensures r.Ok? ==> Evolves(s, r.value)
  {
  }

  lemma NextAssignmentEvolves(s: State, now: U64)
    requires Inv(s)
    ensures Evolves(s, NextAssignment(s, now).0)
  {
    hide Inv; hide Evolves; hide AdvanceTime; hide Assign;
    AdvanceInv(s, now);
    AdvanceEvolves(s, now);
    var s1 := AdvanceTime(s, now);
    if w :| Idle(s1, w) {
      FirstIdleExists(s1, w);
      forall first | FirstIdle(s1, first) ensures Evolves(s, Assign(s1, first, now).0) {
        AssignEvolves(s1, first, now);
        EvolvesTransitive(s, s1, Assign(s1, first, now).0);
      }
    }
  }

  lemma NextAssignmentForEvolves(s: State, w: WorkerId, now: U64)
    requires Inv(s)
    ensures Evolves(s, NextAssignmentFor(s, w, now).0)
  {
    AdvanceInv(s, now);
    AdvanceEvolves(s, now);
    var s1 := AdvanceTime(s, now);
    if Idle(s1, w) {
      AssignEvolves(s1, w, now);
      EvolvesTransitive(s, s1, Assign(s1, w, now).0);
    }
  }

  lemma StepEvolves(s: State, e: Event)
    requires Inv(s)
    ensures Evolves(s, Step(s, e).0)
  {
    match e
    case Submit(plan) => SubmitEvolves(s, plan);
    case Message(message, at) => HandleEvolves(s, message, at);
    case Poll(at) => NextAssignmentEvolves(s, at);
    case PollFor(w, at) => NextAssignmentForEvolves(s, w, at);
    case RequestCancel(q, reason) => CancelEvolves(s, q, reason);
    case Clock(at) => AdvanceEvolves(s, at);
  }

  /** Any later state of a run has evolved from any earlier one. */
  lemma {:induction false} RunEvolves(t: Trace, m: nat, n: nat)
    requires IsRun(t) && m <= n < |t.states|
    ensures Evolves(t.states[m], t.states[n])
    decreases n
  {
    if m == n {
      EvolvesReflexive(t.states[n]);
    } else {
      RunEvolves(t, m, n - 1);
      RunInv(t, n - 1);
      assert Steps(t, n - 1);
      StepEvolves(t.states[n - 1], t.events[n - 1]);
      hide Step;
      EvolvesTransitive(t.states[m], t.states[n - 1], t.states[n]);
    }
  }
}
