/** Fencing, commits and cancellation over whole runs. */
module CoordinatorCommits {
  import opened Basics
  import opened Protocol
  import opened CoordinatorState
  import opened CoordinatorInvariant
  import opened CoordinatorRuns
  import opened CoordinatorLeases

  // ----- fencing ---------------------------------------------------------------------------

  /** The attempt still speaks for its partition: it holds the lease or made the commit. */
  predicate Speaks(p: Partition, task: TaskAttemptId) {
    (p.Live() || p.Done?) && p.task == task
  }

  lemma RankDecidesSuperseded(s: State, task: TaskAttemptId)
    requires Inv(s) && s.Has(KeyOf(task), task.partitionId)
    requires Rank(s.config, s.At(KeyOf(task), task.partitionId)) > task.attempt
    requires task.attempt < s.config.maxTaskAttempts
    ensures var p := s.At(KeyOf(task), task.partitionId);
      Superseded(p, task.attempt) <==> !Speaks(p, task)
  {
    assert PartitionOk(s, KeyOf(task), task.partitionId, s.At(KeyOf(task), task.partitionId));
  }

  lemma UpdateRefusals(s: State, w: WorkerId, task: TaskAttemptId, state: TaskState, at: U64)
    requires Inv(s) && ValidWorkerMessage(TaskUpdate(PROTOCOL_VERSION, w, task, state))
    requires w in s.workers && AdvanceTime(s, at).Has(KeyOf(task), task.partitionId)
    ensures var (s', reply) := Step(s, Message(TaskUpdate(PROTOCOL_VERSION, w, task, state), at));
      && (reply == Refused(TaskSuperseded) <==>
            Superseded(AdvanceTime(s, at).At(KeyOf(task), task.partitionId), task.attempt))
      && (reply.Refused? ==> s' == AdvanceTime(s, at))
  {
    AdvanceInv(s, at);
    var now := AdvanceTime(s, at);
    assert w in now.workers;
    assert ValidTaskFor(task, now.stages[KeyOf(task)].plan);
    hide Inv; hide AdvanceTime; hide ValidTaskFor; hide ExchangeOk; hide RecordTaskUpdate; hide Superseded; hide ValidWorkerMessage;
    RecordRefusals(now, w, task, state, at);
  }

  lemma RecordRefusals(s: State, w: WorkerId, task: TaskAttemptId, state: TaskState, at: U64)
    requires w in s.workers && s.Has(KeyOf(task), task.partitionId) && ValidTaskFor(task, s.stages[KeyOf(task)].plan)
    ensures RecordTaskUpdate(s, w, task, state, at) == Err(TaskSuperseded) <==> Superseded(s.At(KeyOf(task), task.partitionId), task.attempt)
  {
    hide ValidTaskFor; hide ExchangeOk; hide Superseded;
  }

  /** An update about an attempt that was leased at any earlier point is answered
      `TaskSuperseded` exactly when the attempt is neither the live one nor the committed one,
      and a refused update leaves nothing behind but the clock. */
  lemma LeasedAttemptIsFenced(t: Trace, m: nat, n: nat,
                              w: WorkerId, task: TaskAttemptId, state: TaskState, at: U64)
    requires IsRun(t) && Leased(t, m, task) && m < n < |t.states|
    requires ValidWorkerMessage(TaskUpdate(PROTOCOL_VERSION, w, task, state))
    requires w in t.states[n].workers
    ensures Inv(t.states[n])
    ensures var now := AdvanceTime(t.states[n], at);
      var (s', reply) := Step(t.states[n], Message(TaskUpdate(PROTOCOL_VERSION, w, task, state), at));
      && now.Has(KeyOf(task), task.partitionId)
      && (reply == Refused(TaskSuperseded) <==> !Speaks(now.At(KeyOf(task), task.partitionId), task))
      && (reply.Refused? ==> s' == now)
  {
    hide Step; hide Inv; hide ValidWorkerMessage; hide Speaks; hide Superseded;
    RunInv(t, n);
    var s := t.states[n];
    RankAfterLease(t, m, task, n);
    AdvanceEvolves(s, at);
    AdvanceInv(s, at);
    RankDecidesSuperseded(AdvanceTime(s, at), task);
    UpdateRefusals(s, w, task, state, at);
  }

  // ----- commits ---------------------------------------------------------------------------

  /** Call `e` commits partition `i` of stage `k`: its sender holds the lease, the lease has not
      run out, and the committed blocks are the reported ones. */
  ghost predicate Commits(s: State, e: Event, k: StageKey, i: int, committed: Partition) {
    && e.Message? && e.message.TaskUpdate? && e.message.state.Succeeded?
    && AdvanceTime(s, e.at).Has(k, i)
    && var p := AdvanceTime(s, e.at).At(k, i);
    && p.Active?
    && p.task == e.message.task && p.workerId == p.lease.workerId == e.message.workerId
    && p.lease.issuedAt <= e.message.state.finishedAt <= e.at < p.lease.expiresAt
    && committed == Done(p.task, e.message.state.outputBlocks)
  }

  lemma PollCommitsNothing(s: State, e: Event, k: StageKey, i: int)
    requires Inv(s) && (e.Poll? || e.PollFor?)
    requires Step(s, e).0.Has(k, i) && Step(s, e).0.At(k, i).Done?
    ensures s.Has(k, i) && s.At(k, i).Done?
  {
    hide Step; hide Inv; hide Take; hide Schedulable; hide AdvanceTime;
    AdvanceReads(s, e.at);
    PollOutcomes(s, e);
    if k', i', w :| Leases(s, e, k', i', w) {
      TakeReads(AdvanceTime(s, e.at), k', i', w, e.at);
    }
  }

  lemma UpdateWrites(s: State, w: WorkerId, task: TaskAttemptId, state: TaskState, at: U64, k: StageKey, i: int)
    requires RecordTaskUpdate(s, w, task, state, at).Ok?
    requires var s' := RecordTaskUpdate(s, w, task, state, at).value;
      s'.Has(k, i) && s'.At(k, i).Done? && !(s.Has(k, i) && s.At(k, i).Done?)
    ensures s.Has(k, i) && k == KeyOf(task) && i == task.partitionId
    ensures state.Succeeded? && s.At(k, i).Active? && s.At(k, i).task == task
    ensures s.At(k, i).workerId == s.At(k, i).lease.workerId == w
    ensures s.At(k, i).lease.issuedAt <= state.finishedAt <= at < s.At(k, i).lease.expiresAt
    ensures RecordTaskUpdate(s, w, task, state, at).value.At(k, i) == Done(task, state.outputBlocks)
  {
    var k', i' := KeyOf(task), task.partitionId;
    var p := s.At(k', i');
    var p' := if p.Cancelling? then Withdrawn
              else if state.Running? then p.(startedAt := Some(state.startedAt))
              else Conclude(s.config.maxTaskAttempts, task, state);
    var s' := RecordTaskUpdate(s, w, task, state, at).value;
    if s' != s {
      PutReads(s, k', i', p');
      assert s'.stages == s.Put(k', i', p').stages;
      assert s'.Has(k, i) <==> s.Put(k', i', p').Has(k, i);
    }
  }

  lemma UpdateCommits(s: State, e: Event, k: StageKey, i: int)
    requires Inv(s) && e.Message?
    requires Step(s, e).0.Has(k, i) && Step(s, e).0.At(k, i).Done?
    requires !(s.Has(k, i) && s.At(k, i).Done?)
    ensures Commits(s, e, k, i, Step(s, e).0.At(k, i))
  {
    hide RecordTaskUpdate; hide ValidWorkerMessage; hide AdvanceTime;
    OnlyUpdatesCommit(s, e, k, i);
    AdvanceReads(s, e.at);
    UpdateWrites(AdvanceTime(s, e.at), e.message.workerId, e.message.task, e.message.state, e.at, k, i);
  }

  lemma OnlyUpdatesCommit(s: State, e: Event, k: StageKey, i: int)
    requires Inv(s) && e.Message?
    requires Step(s, e).0.Has(k, i) && Step(s, e).0.At(k, i).Done?
    requires !(s.Has(k, i) && s.At(k, i).Done?)
    ensures ValidWorkerMessage(e.message) && e.message.TaskUpdate?
    ensures var r := RecordTaskUpdate(AdvanceTime(s, e.at), e.message.workerId, e.message.task, e.message.state, e.at);
      r.Ok? && r.value == Step(s, e).0
  {
    hide RecordTaskUpdate; hide ValidWorkerMessage; hide AdvanceTime;
    ClockCommitsNothing(s, e.at, k, i);
  }

  lemma ClockCommitsNothing(s: State, now: U64, k: StageKey, i: int)
    ensures AdvanceTime(s, now).Has(k, i) && AdvanceTime(s, now).At(k, i).Done? <==>
            s.Has(k, i) && s.At(k, i).Done?
  {
    AdvanceReads(s, now);
  }

  /** A partition becomes committed only through a report by its lease owner. */
  lemma CommitNeedsOwner(s: State, e: Event, k: StageKey, i: int)
    requires Inv(s)
    requires Step(s, e).0.Has(k, i) && Step(s, e).0.At(k, i).Done?
    requires !(s.Has(k, i) && s.At(k, i).Done?)
    ensures Commits(s, e, k, i, Step(s, e).0.At(k, i))
  {
    match e
    case Message(_, _) => UpdateCommits(s, e, k, i);
    case Poll(_) => PollCommitsNothing(s, e, k, i);
    case PollFor(_, _) => PollCommitsNothing(s, e, k, i);
    case RequestCancel(q, reason) => CancelReads(s, q, reason);
    case Clock(at) => AdvanceReads(s, at);
    case Submit(plan) =>
  }

  /** Every commit in a reachable state goes back to one report by the lease owner, made before
      the lease ran out, and carries exactly the blocks of that report. */
  lemma {:induction false} CommitWasOwned(t: Trace, n: nat, k: StageKey, i: int)
    requires IsRun(t) && n < |t.states| && t.states[n].Has(k, i) && t.states[n].At(k, i).Done?
    ensures exists m | 0 <= m < n :: Commits(t.states[m], t.events[m], k, i, t.states[n].At(k, i))
  {
    hide Commits;
    if n > 0 {
      CommitLastStep(t, n, k, i);
      if !Commits(t.states[n - 1], t.events[n - 1], k, i, t.states[n].At(k, i)) {
        CommitWasOwned(t, n - 1, k, i);
      }
    }
  }

  lemma CommitLastStep(t: Trace, n: nat, k: StageKey, i: int)
    requires IsRun(t) && 0 < n < |t.states| && t.states[n].Has(k, i) && t.states[n].At(k, i).Done?
    ensures
      || (t.states[n - 1].Has(k, i) && t.states[n - 1].At(k, i) == t.states[n].At(k, i))
      || Commits(t.states[n - 1], t.events[n - 1], k, i, t.states[n].At(k, i))
  {
    var before := t.states[n - 1];
    RunInv(t, n - 1);
    assert Steps(t, n - 1);
    hide Step; hide Inv; hide Commits;
    StepEvolves(before, t.events[n - 1]);
    if !(before.Has(k, i) && before.At(k, i).Done?) {
      CommitNeedsOwner(before, t.events[n - 1], k, i);
    }
  }

  /** A committed partition keeps its task and blocks for the rest of the run. */
  lemma CommitIsPermanent(t: Trace, m: nat, n: nat, k: StageKey, i: int)
    requires IsRun(t) && m <= n < |t.states| && t.states[m].Has(k, i) && t.states[m].At(k, i).Done?
    ensures t.states[n].Has(k, i) && t.states[n].At(k, i) == t.states[m].At(k, i)
  {
    RunEvolves(t, m, n);
  }

  // ----- inputs of retries -----------------------------------------------------------------

  lemma {:induction false} DependencyBlocksStable(s: State, s': State, q: QueryId, dependencies: seq<StageId>)
    requires Shaped(s) && Shaped(s') && Evolves(s, s')
    requires forall d | d in dependencies :: StageDone(s, (q, d))
    ensures DependencyBlocks(s', q, dependencies) == DependencyBlocks(s, q, dependencies)
  {
    if dependencies != [] {
      var k := (q, dependencies[0]);
      assert dependencies[0] in dependencies && StageDone(s, k);
      var before, after := s.stages[k].partitions, s'.stages[k].partitions;
      forall i | 0 <= i < |before| ensures after[i] == before[i] {
        assert s.Has(k, i) && s.At(k, i).Done?;
      }
      assert before == after;
      DependencyBlocksStable(s, s', q, dependencies[1..]);
    }
  }

  lemma LeaseReadsInputs(s: State, e: Event, task: TaskAttemptId)
    requires Inv(s) && LeasesTask(s, e, task)
    ensures Inv(AdvanceTime(s, e.at)) && KeyOf(task) in s.stages
    ensures var plan := s.stages[KeyOf(task)].plan;
      && DependenciesDone(AdvanceTime(s, e.at), plan)
      && Step(s, e).1.message.value.inputBlocks == InputBlocks(AdvanceTime(s, e.at), plan, task.partitionId)
  {
    LeaseUsesAttempt(s, e, task);
    AdvanceInv(s, e.at);
    hide Step; hide Inv;
    var w :| Leases(s, e, KeyOf(task), task.partitionId, w);
  }

  /** Every retry of a partition is handed the identical list of input blocks. */
  lemma RetriesReadSameBlocks(t: Trace, m: nat, n: nat, first: TaskAttemptId, second: TaskAttemptId)
    requires IsRun(t) && m < n && Leased(t, m, first) && Leased(t, n, second)
    requires KeyOf(first) == KeyOf(second) && first.partitionId == second.partitionId
    ensures t.replies[m].message.value.inputBlocks == t.replies[n].message.value.inputBlocks
  {
    hide Step; hide Inv; hide LeasesTask; hide AdvanceTime; hide InputBlocks; hide DependenciesDone;
    var s, s' := t.states[m], t.states[n];
    LeasedStep(t, m, first);
    LeasedStep(t, n, second);
    OnlyPollsLease(s, t.events[m], first);
    OnlyPollsLease(s', t.events[n], second);
    LeaseReadsInputs(s, t.events[m], first);
    LeaseReadsInputs(s', t.events[n], second);
    LeaseStateEvolves(t, m, n);
    RunEvolves(t, m, n);
    InputsStable(AdvanceTime(s, t.events[m].at), AdvanceTime(s', t.events[n].at),
                 s.stages[KeyOf(first)].plan, first.partitionId);
  }

  lemma InputsStable(s: State, s': State, plan: StagePlan, partition: U32)
    requires Inv(s) && Inv(s') && Evolves(s, s') && DependenciesDone(s, plan)
    ensures InputBlocks(s', plan, partition) == InputBlocks(s, plan, partition)
  {
    DependencyBlocksStable(s, s', plan.queryId, plan.inputStages);
  }

  /** The state a poll leased from evolves into the state a later poll leases from. */
  lemma LeaseStateEvolves(t: Trace, m: nat, n: nat)
    requires IsRun(t) && m < n < |t.events|
    requires (t.events[m].Poll? || t.events[m].PollFor?) && (t.events[n].Poll? || t.events[n].PollFor?)
    ensures Evolves(AdvanceTime(t.states[m], t.events[m].at), AdvanceTime(t.states[n], t.events[n].at))
  {
    hide Step; hide Inv; hide AdvanceTime; hide Evolves;
    RunInv(t, m);
    RunInv(t, n);
    assert Steps(t, m);
    PollEvolvesFromNow(t.states[m], t.events[m]);
    RunEvolves(t, m + 1, n);
    var now := AdvanceTime(t.states[m], t.events[m].at);
    EvolvesTransitive(now, t.states[m + 1], t.states[n]);
    AdvanceEvolves(t.states[n], t.events[n].at);
    EvolvesTransitive(now, t.states[n], AdvanceTime(t.states[n], t.events[n].at));
  }

  lemma PollEvolvesFromNow(s: State, e: Event)
    requires Inv(s) && (e.Poll? || e.PollFor?)
    ensures Evolves(AdvanceTime(s, e.at), Step(s, e).0)
  {
    hide Step; hide Inv; hide Take; hide Schedulable; hide AdvanceTime; hide Evolves;
    EvolvesReflexive(AdvanceTime(s, e.at));
    PollOutcomes(s, e);
    if k, i, w :| Leases(s, e, k, i, w) {
      TakeEvolves(AdvanceTime(s, e.at), k, i, w, e.at);
    }
  }

  // ----- cancellation ----------------------------------------------------------------------

  lemma {:induction false} FrozenBlocks(before: seq<Partition>, after: seq<Partition>)
    requires |before| == |after|
    requires forall i | 0 <= i < |before| ::
               after[i] == before[i] || (before[i].Cancelling? && after[i].Withdrawn?)
    ensures CommittedBlocks(after) == CommittedBlocks(before)
  {
    if before != [] {
      assert forall i | 0 <= i < |before| - 1 :: after[1..][i] == after[i + 1] && before[1..][i] == before[i + 1];
      FrozenBlocks(before[1..], after[1..]);
    }
  }

  lemma CancelledOutputFrozen(s: State, s': State, k: StageKey)
    requires Shaped(s) && Shaped(s') && Evolves(s, s') && k.0 in s.cancelled
    ensures StageOutputBlocks(s', k) == StageOutputBlocks(s, k)
  {
    if k in s.stages {
      var before, after := s.stages[k].partitions, s'.stages[k].partitions;
      forall i | 0 <= i < |before|
        ensures after[i] == before[i] || (before[i].Cancelling? && after[i].Withdrawn?)
      {
        assert s.Has(k, i);
      }
      FrozenBlocks(before, after);
    }
  }

  /** Once a query is cancelled, no partition of it is ever leased or committed again, and the
      output blocks of each of its stages are frozen. */
  lemma CancellationIsFinal(t: Trace, m: nat, n: nat, q: QueryId)
    requires IsRun(t) && m <= n < |t.states| && q in t.states[m].cancelled
    ensures q in t.states[n].cancelled
    ensures forall task | m <= n && Leased(t, n, task) :: task.queryId != q
    ensures forall k: StageKey, i | k.0 == q && t.states[n].Has(k, i) && t.states[n].At(k, i).Done? ::
              t.states[m].Has(k, i) && t.states[m].At(k, i).Done?
    ensures forall k: StageKey | k.0 == q ::
              StageOutputBlocks(t.states[n], k) == StageOutputBlocks(t.states[m], k)
  {
    RunEvolves(t, m, n);
    RunInv(t, m);
    RunInv(t, n);
    var s, s' := t.states[m], t.states[n];
    forall task | Leased(t, n, task) ensures task.queryId != q {
      LeasedStep(t, n, task);
      LeaseUsesAttempt(s', t.events[n], task);
    }
    hide Leased;
    forall k: StageKey | k.0 == q ensures StageOutputBlocks(s', k) == StageOutputBlocks(s, k) {
      CancelledOutputFrozen(s, s', k);
    }
    forall k: StageKey, i | k.0 == q && s'.Has(k, i) && s'.At(k, i).Done?
      ensures s.Has(k, i) && s.At(k, i).Done?
    {
      assert k in s.stages && s.Has(k, i);
    }
  }
}
