/** Leases over whole runs: attempts are never leased twice, retired attempts are fenced off,
    commits are made by lease owners and are permanent, and an assignment never fails late. */
module CoordinatorLeases {
  import opened Basics
  import opened Protocol
  import opened CoordinatorState
  import opened CoordinatorInvariant
  import opened CoordinatorRuns

  // ----- what a poll does ------------------------------------------------------------------

  /** Call `e` leases partition `i` of stage `k` to worker `w`. */
  ghost predicate Leases(s: State, e: Event, k: StageKey, i: int, w: WorkerId) {
    && (e.Poll? || (e.PollFor? && e.worker == w))
    && var now := AdvanceTime(s, e.at);
    && Idle(now, w)
    && Schedulable(now, k) && now.Has(k, i) && now.At(k, i).Pending? && i <= U32_MAX
    && e.at + s.config.leaseDuration <= U64_MAX
    && Step(s, e) == (Take(now, k, i, w, e.at), Sent(Some(AssignmentFor(now, k, i, w, e.at))))
  }

  lemma {:induction false} CommittedBlockHasProducer(partitions: seq<Partition>, b: ShuffleBlock)
    requires b in CommittedBlocks(partitions)
    ensures exists j | 0 <= j < |partitions| :: partitions[j].Done? && b in partitions[j].outputBlocks
  {
    if partitions[0].Done? && b in partitions[0].outputBlocks {
    } else {
      CommittedBlockHasProducer(partitions[1..], b);
      var j :| 0 <= j < |partitions[1..]| && partitions[1..][j].Done? && b in partitions[1..][j].outputBlocks;
      assert partitions[j + 1] == partitions[1..][j];
    }
  }

  lemma {:induction false} DependencyBlockOk(s: State, q: QueryId, dependencies: seq<StageId>, b: ShuffleBlock)
    requires Inv(s) && b in DependencyBlocks(s, q, dependencies)
    ensures ValidBlock(b) && b.producer.queryId == q && b.producer.stageId in dependencies
  {
    var k := (q, dependencies[0]);
    if k in s.stages && b in CommittedBlocks(s.stages[k].partitions) {
      CommittedBlockHasProducer(s.stages[k].partitions, b);
      var partitions := s.stages[k].partitions;
      var j :| 0 <= j < |partitions| && partitions[j].Done? && b in partitions[j].outputBlocks;
      assert s.Has(k, j) && PartitionOk(s, k, j, s.At(k, j));
    } else {
      DependencyBlockOk(s, q, dependencies[1..], b);
    }
  }

  lemma {:induction false} AddressedToMembers(blocks: seq<ShuffleBlock>, p: U32, b: ShuffleBlock)
    ensures b in AddressedTo(blocks, p) <==> b in blocks && b.outputPartition == p
  {
    if blocks != [] {
      AddressedToMembers(blocks[1..], p, b);
      assert blocks == [blocks[0]] + blocks[1..];
    }
  }

  /** The check made after the state was already taken cannot fail. */
  lemma AssignmentIsValid(s: State, k: StageKey, i: int, w: WorkerId, now: U64)
    requires Inv(s) && s.Has(k, i) && s.At(k, i).Pending? && w in s.workers
    requires now + s.config.leaseDuration <= U64_MAX
    ensures ValidCoordinatorMessage(AssignmentFor(s, k, i, w, now))
  {
    var message := AssignmentFor(s, k, i, w, now);
    assert StageOk(s, k) && WorkerOk(s, w);
    forall b | b in message.inputBlocks ensures ValidInputBlock(b, message.stage, message.task) {
      var all := DependencyBlocks(s, k.0, message.stage.inputStages);
      AddressedToMembers(all, i, b);
      DependencyBlockOk(s, k.0, message.stage.inputStages, b);
    }
  }

  lemma AssignCases(s: State, w: WorkerId, now: U64)
    requires Inv(s) && Idle(s, w)
    ensures Assign(s, w, now) == (s, Ok(None)) ==> forall k :: !Schedulable(s, k)
    ensures Assign(s, w, now).1.Err? ==>
              now + s.config.leaseDuration > U64_MAX && Assign(s, w, now).0 == s
    ensures Assign(s, w, now) != (s, Ok(None)) && Assign(s, w, now).1.Ok? ==>
              exists k, i ::
                && Schedulable(s, k) && s.Has(k, i) && s.At(k, i).Pending?
                && now + s.config.leaseDuration <= U64_MAX
                && Assign(s, w, now) == (Take(s, k, i, w, now), Ok(Some(AssignmentFor(s, k, i, w, now))))
  {
    var next := NextPending(s);
    if next.Some? && now + s.config.leaseDuration <= U64_MAX {
      var (k, i) := next.value;
      assert s.Has(k, i);
      AssignmentIsValid(s, k, i, w, now);
    }
  }

  /** Every call either leases exactly one pending partition of a schedulable stage, or hands
      out no task at all. A refused poll has changed nothing but the clock. */
  lemma PollOutcomes(s: State, e: Event)
    requires Inv(s) && (e.Poll? || e.PollFor?)
    ensures Inv(AdvanceTime(s, e.at))
    ensures var (s', reply) := Step(s, e);
      || (exists k, i, w :: Leases(s, e, k, i, w))
      || (s' == AdvanceTime(s, e.at) && (reply == Sent(None) || reply.Refused?))
    ensures Step(s, e).1.Refused? ==>
      || e.at + s.config.leaseDuration > U64_MAX
      || (e.PollFor? && e.worker !in s.workers)
    ensures e.PollFor? && Step(s, e).1 == Sent(None) && Idle(AdvanceTime(s, e.at), e.worker) ==>
      forall k :: !Schedulable(AdvanceTime(s, e.at), k)
  {
    AdvanceInv(s, e.at);
    var now := AdvanceTime(s, e.at);
    if e.PollFor? {
      if Idle(now, e.worker) { PollServes(s, e, e.worker); }
    } else if w :| Idle(now, w) {
      FirstIdleExists(now, w);
      var first :| FirstIdle(now, first) && NextAssignment(s, e.at) == Assign(now, first, e.at);
      PollServes(s, e, first);
    }
  }

  lemma PollServes(s: State, e: Event, w: WorkerId)
    requires Inv(s) && (e.Poll? || (e.PollFor? && e.worker == w)) && Inv(AdvanceTime(s, e.at))
    requires Idle(AdvanceTime(s, e.at), w)
    requires Step(s, e).0 == Assign(AdvanceTime(s, e.at), w, e.at).0
    requires Step(s, e).1 == PollReplyOf(Assign(AdvanceTime(s, e.at), w, e.at).1)
    ensures
      || (exists k, i :: Leases(s, e, k, i, w))
      || (Step(s, e).0 == AdvanceTime(s, e.at) && (Step(s, e).1 == Sent(None) || Step(s, e).1.Refused?))
    ensures Step(s, e).1.Refused? ==> e.at + s.config.leaseDuration > U64_MAX
    ensures Step(s, e).1 == Sent(None) ==> forall k :: !Schedulable(AdvanceTime(s, e.at), k)
  {
    var now := AdvanceTime(s, e.at);
    AssignCases(now, w, e.at);
    if Assign(now, w, e.at) != (now, Ok(None)) && Assign(now, w, e.at).1.Ok? {
      var k, i :|
        && Schedulable(now, k) && now.Has(k, i) && now.At(k, i).Pending?
        && e.at + now.config.leaseDuration <= U64_MAX
        && Assign(now, w, e.at) == (Take(now, k, i, w, e.at), Ok(Some(AssignmentFor(now, k, i, w, e.at))));
      assert Leases(s, e, k, i, w);
    }
  }

  function KeyOf(task: TaskAttemptId): StageKey { (task.queryId, task.stageId) }

  lemma LeaseFacts(s: State, e: Event, k: StageKey, i: int, w: WorkerId)
    requires Inv(s) && Leases(s, e, k, i, w)
    ensures s.Has(k, i) && Step(s, e).0.Has(k, i) && Step(s, e).0.At(k, i).Active? && k.0 !in s.cancelled
    ensures var task := Step(s, e).0.At(k, i).task;
      && KeyOf(task) == k && task.partitionId == i
      && Rank(s.config, s.At(k, i)) <= task.attempt < s.config.maxTaskAttempts
      && Step(s, e).1.message.value.AssignTask? && Step(s, e).1.message.value.task == task
  {
    var now := AdvanceTime(s, e.at);
    AdvanceInv(s, e.at);
    AdvanceReads(s, e.at);
    AdvanceEvolves(s, e.at);
    assert s.Has(k, i) && Moves(s.config, k.0 in s.cancelled, s.At(k, i), now.At(k, i));
    assert PartitionOk(now, k, i, now.At(k, i));
    TakeReads(now, k, i, w, e.at);
  }

  /** Call `e` of state `s` answers with a lease of `task`. */
  ghost predicate LeasesTask(s: State, e: Event, task: TaskAttemptId) {
    var reply := Step(s, e).1;
    reply.Sent? && reply.message.Some? && reply.message.value.AssignTask? && reply.message.value.task == task
  }

  /** A lease uses up exactly the next attempt of its partition. */
  lemma LeaseUsesAttempt(s: State, e: Event, task: TaskAttemptId)
    requires Inv(s) && LeasesTask(s, e, task)
    ensures s.Has(KeyOf(task), task.partitionId)
    ensures Rank(s.config, s.At(KeyOf(task), task.partitionId)) <= task.attempt < s.config.maxTaskAttempts
    ensures Step(s, e).0.Has(KeyOf(task), task.partitionId)
    ensures Rank(s.config, Step(s, e).0.At(KeyOf(task), task.partitionId)) == task.attempt + 1
    ensures task.queryId !in s.cancelled
    ensures exists w :: Leases(s, e, KeyOf(task), task.partitionId, w)
  {
    hide Step; hide Inv; hide Leases;
    OnlyPollsLease(s, e, task);
    PollOutcomes(s, e);
    var k, i, w :| Leases(s, e, k, i, w);
    LeaseFacts(s, e, k, i, w);
  }

  lemma OnlyPollsLease(s: State, e: Event, task: TaskAttemptId)
    requires Inv(s) && LeasesTask(s, e, task)
    ensures e.Poll? || e.PollFor?
  {
  }

  /** The reply to call `n` of the run is a lease of attempt `task`. */
  ghost predicate Leased(t: Trace, n: int, task: TaskAttemptId) {
    && 0 <= n < |t.replies|
    && t.replies[n].Sent? && t.replies[n].message.Some?
    && t.replies[n].message.value.AssignTask? && t.replies[n].message.value.task == task
  }

  lemma LeasedStep(t: Trace, n: int, task: TaskAttemptId)
    requires IsRun(t) && Leased(t, n, task)
    ensures Inv(t.states[n]) && LeasesTask(t.states[n], t.events[n], task)
    ensures Step(t.states[n], t.events[n]) == (t.states[n + 1], t.replies[n])
  {
    RunInv(t, n);
    assert Steps(t, n);
  }

  /** No task attempt is ever leased twice, to whomever. */
  lemma NoAttemptLeasedTwice(t: Trace, m: nat, n: nat, task: TaskAttemptId)
    requires IsRun(t) && Leased(t, m, task) && Leased(t, n, task)
    ensures m == n
  {
    if m < n { LeasesAreOrdered(t, m, n, task, task); }
    if n < m { LeasesAreOrdered(t, n, m, task, task); }
  }

  /** Later leases of a partition carry strictly larger attempt numbers. */
  lemma LeasesAreOrdered(t: Trace, m: nat, n: nat, first: TaskAttemptId, second: TaskAttemptId)
    requires IsRun(t) && m < n && Leased(t, m, first) && Leased(t, n, second)
    requires KeyOf(first) == KeyOf(second) && first.partitionId == second.partitionId
    ensures first.attempt < second.attempt
  {
    hide Step; hide Inv; hide LeasesTask;
    RankAfterLease(t, m, first, n);
    LeasedStep(t, n, second);
    RunInv(t, n);
    LeaseUsesAttempt(t.states[n], t.events[n], second);
  }

  /** After a lease of attempt `a`, the partition's rank stays above `a` for the rest of the run. */
  lemma RankAfterLease(t: Trace, m: int, task: TaskAttemptId, n: nat)
    requires IsRun(t) && Leased(t, m, task) && m < n < |t.states|
    ensures t.states[n].Has(KeyOf(task), task.partitionId)
    ensures Rank(t.config, t.states[n].At(KeyOf(task), task.partitionId)) > task.attempt
    ensures task.attempt < t.config.maxTaskAttempts
  {
    hide Step; hide Inv; hide LeasesTask;
    LeasedStep(t, m, task);
    RunInv(t, m);
    RunInv(t, m + 1);
    LeaseUsesAttempt(t.states[m], t.events[m], task);
    RunEvolves(t, m + 1, n);
    assert t.states[m + 1].Has(KeyOf(task), task.partitionId);
  }

  /** Call `n` leased some attempt below `bound` of partition `i` of stage `k`. */
  ghost predicate LeasedPartition(t: Trace, n: int, k: StageKey, i: U32, bound: nat) {
    exists a: U32 :: a < bound && Leased(t, n, TaskAttemptId(k.0, k.1, i, a))
  }

  /** A partition is leased at most `max_task_attempts` times in any run. */
  lemma LeasesAreBounded(t: Trace, k: StageKey, i: U32, calls: set<int>)
    requires IsRun(t) && forall n | n in calls :: LeasedPartition(t, n, k, i, U32_MAX + 1)
    ensures |calls| <= t.config.maxTaskAttempts
  {
    hide Leased;
    forall n | n in calls ensures LeasedPartition(t, n, k, i, t.config.maxTaskAttempts) {
      assert LeasedPartition(t, n, k, i, U32_MAX + 1);
      var a: U32 :| Leased(t, n, TaskAttemptId(k.0, k.1, i, a));
      LeasedIndex(t, n, TaskAttemptId(k.0, k.1, i, a));
      RankAfterLease(t, n, TaskAttemptId(k.0, k.1, i, a), n + 1);
    }
    LeaseCallsBelow(t, k, i, t.config.maxTaskAttempts, calls);
  }

  lemma {:induction false} LeaseCallsBelow(t: Trace, k: StageKey, i: U32, bound: nat, calls: set<int>)
    requires IsRun(t) && bound <= U32_MAX + 1 && forall n | n in calls :: LeasedPartition(t, n, k, i, bound)
    ensures |calls| <= bound
    decreases bound
  {
    hide Leased;
    if bound == 0 {
      forall n: int ensures n !in calls { assert !LeasedPartition(t, n, k, i, 0); }
      assert calls == {};
    } else if last: int :| last in calls && Leased(t, last, TaskAttemptId(k.0, k.1, i, bound - 1)) {
      LeasedIndex(t, last, TaskAttemptId(k.0, k.1, i, bound - 1));
      forall n: int | n in calls - {last} ensures LeasedPartition(t, n, k, i, bound - 1) {
        assert LeasedPartition(t, n, k, i, bound);
        var a: U32 :| a < bound && Leased(t, n, TaskAttemptId(k.0, k.1, i, a));
        LeasedIndex(t, n, TaskAttemptId(k.0, k.1, i, a));
        if a == bound - 1 { NoAttemptLeasedTwice(t, last, n, TaskAttemptId(k.0, k.1, i, a)); }
      }
      LeaseCallsBelow(t, k, i, bound - 1, calls - {last});
    } else {
      forall n: int | n in calls ensures LeasedPartition(t, n, k, i, bound - 1) {
        assert LeasedPartition(t, n, k, i, bound);
      }
      LeaseCallsBelow(t, k, i, bound - 1, calls);
    }
  }

  lemma LeasedIndex(t: Trace, n: int, task: TaskAttemptId)
    requires IsRun(t) && Leased(t, n, task)
    ensures 0 <= n < |t.events|
  {
  }
}
