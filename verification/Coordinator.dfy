/** The coordinator object. Each method changes the worker, stage and cancellation maps in place
    and is proved to perform exactly the transition of the same name in `CoordinatorState`. */
module CoordinatorObject {
  import opened Basics
  import opened Protocol
  import opened CoordinatorInvariant
  import S = CoordinatorState

  type StageKey = S.StageKey

  class Coordinator {
    const config: S.Config
    var workers: map<WorkerId, S.WorkerRuntime>
    var stages: map<StageKey, S.StageRuntime>
    var cancelled: map<QueryId, string>

    ghost function Contents(): S.State
      reads this
    {
      S.State(config, workers, stages, cancelled)
    }

    ghost predicate Valid()
      reads this
    {
      Inv(Contents())
    }

    constructor (config: S.Config)
      requires S.ValidConfig(config)
      ensures Valid() && Contents() == S.Init(config)
    {
      this.config := config;
      workers, stages, cancelled := map[], map[], map[];
      new;
      InitInv(config);
    }

    method SubmitStage(plan: StagePlan) returns (r: Result<(), Failure>)
      requires Valid()
      modifies this
      ensures Valid()
      ensures (Contents(), r) == S.SubmitStage(old(Contents()), plan)
    {
      ghost var before := Contents();
      SubmitInv(before, plan);
      var valid := ValidateStage(plan);
      if !valid || plan.partitionCount > config.maxStagePartitions || plan.queryId in cancelled {
        return Err(ProtocolError);
      }
      var key := (plan.queryId, plan.stageId);
      if key in stages { return Err(ProtocolError); }
      for n := 0 to |plan.inputStages|
        invariant Contents() == before
        invariant forall i | 0 <= i < n :: (plan.queryId, plan.inputStages[i]) in stages
      {
        if (plan.queryId, plan.inputStages[n]) !in stages { return Err(ProtocolError); }
      }
      if plan.partitionedInput {
        for n := 0 to |plan.inputStages|
          invariant Contents() == before
          invariant forall i | 0 <= i < n ::
            var e := stages[(plan.queryId, plan.inputStages[i])].plan.outputExchange;
            e.Some? && e.value.partitionCount == plan.partitionCount
        {
          var upstream := stages[(plan.queryId, plan.inputStages[n])].plan.outputExchange;
          if upstream.None? || upstream.value.partitionCount != plan.partitionCount {
            assert plan.inputStages[n] in plan.inputStages;
            return Err(ProtocolError);
          }
        }
      }
      if plan.outputExchange.Some? && plan.outputExchange.value.partitionCount > config.maxStagePartitions {
        return Err(ProtocolError);
      }
      stages := stages[key := S.StageRuntime(plan, seq(plan.partitionCount, _ => S.Pending(0)))];
      return Ok(());
    }

    /** Marks silent workers dead, then retires every lease that has run out. */
    method AdvanceTime(now: U64)
      requires Valid()
      modifies this
      ensures Valid()
      ensures Contents() == S.AdvanceTime(old(Contents()), now)
    {
      hide Inv; hide S.AdvanceTime;
      ghost var s := Contents();
      AdvanceInv(s, now);
      var timedOut := set w | w in workers && workers[w].alive
                              && SaturatingSub(now, workers[w].lastReceived) > config.heartbeatTimeout;
      var todo := timedOut;
      while todo != {}
        invariant todo <= timedOut
        invariant stages == s.stages && cancelled == s.cancelled && workers.Keys == s.workers.Keys
        invariant forall w | w in workers ::
          workers[w] == if w in timedOut - todo then Dead(s.workers[w]) else s.workers[w]
      {
        var w :| w in todo;
        workers := workers[w := Dead(workers[w])];
        todo := todo - {w};
      }
      var expired := set k, i | k in stages && 0 <= i < |stages[k].partitions|
                                && LeaseGone(stages[k].partitions[i], timedOut, now) :: (k, i);
      RetireLeases(s, timedOut, expired, now);
    }

    static function Dead(worker: S.WorkerRuntime): S.WorkerRuntime {
      worker.(alive := false, availableSlots := 0, availableMemory := 0)
    }

    static predicate LeaseGone(p: S.Partition, timedOut: set<WorkerId>, now: U64) {
      p.Live() && (p.workerId in timedOut || p.lease.expiresAt <= now)
    }

    /** The second half of `advance_time`: one expired lease after another. */
    method RetireLeases(ghost s: S.State, timedOut: set<WorkerId>, expired: set<(StageKey, int)>, now: U64)
      requires s.config == config && s.stages == stages && s.cancelled == cancelled
      requires timedOut == set w | w in s.workers && S.TimedOut(s, w, now)
      requires workers == map w | w in s.workers :: if w in timedOut then Dead(s.workers[w]) else s.workers[w]
      requires expired == set k, i | k in stages && 0 <= i < |stages[k].partitions|
                                     && LeaseGone(stages[k].partitions[i], timedOut, now) :: (k, i)
      modifies this
      ensures Contents() == S.AdvanceTime(s, now)
    {
      var todo := expired;
      ghost var done: set<(StageKey, int)> := {};
      assert forall t | t in expired :: s.Has(t.0, t.1) && S.Expired(s, s.At(t.0, t.1), now);
      NothingRetired(s, timedOut, now);
      while todo != {}
        invariant done !! todo && done + todo == expired
        invariant Midway(s, done, now)
        decreases todo
      {
        var t :| t in todo;
        assert t in expired && t !in done;
        RetireOne(s, done, timedOut, t, now);
        todo, done := todo - {t}, done + {t};
      }
      assert done == expired;
      AllRetired(s, timedOut, expired, now);
    }

    /** Every lease in `done`, and no other, has been retired. */
    ghost predicate Midway(s: S.State, done: set<(StageKey, int)>, now: U64)
      reads this
    {
      && config == s.config && cancelled == s.cancelled
      && workers.Keys == s.workers.Keys && stages.Keys == s.stages.Keys
      && (forall w | w in workers :: workers[w] == Retired(s, w, done, now))
      && (forall k | k in stages :: PartlyExpired(s, k, done, now, stages[k]))
    }

    lemma NothingRetired(s: S.State, timedOut: set<WorkerId>, now: U64)
      requires s.config == config && s.stages == stages && s.cancelled == cancelled
      requires timedOut == set w | w in s.workers && S.TimedOut(s, w, now)
      requires workers == map w | w in s.workers :: if w in timedOut then Dead(s.workers[w]) else s.workers[w]
      ensures Midway(s, {}, now)
    {
      forall w | w in workers ensures workers[w] == Retired(s, w, {}, now) {
        assert {} * S.ExpiredTasks(s, w, now) == {};
      }
    }

    lemma AllRetired(s: S.State, timedOut: set<WorkerId>, expired: set<(StageKey, int)>, now: U64)
      requires Midway(s, expired, now)
      requires timedOut == set w | w in s.workers && S.TimedOut(s, w, now)
      requires expired == set k, i | k in s.stages && 0 <= i < |s.stages[k].partitions|
                                     && LeaseGone(s.stages[k].partitions[i], timedOut, now) :: (k, i)
      ensures Contents() == S.AdvanceTime(s, now)
    {
      forall w | w in workers ensures workers[w] == S.AdvanceWorker(s, w, now) {
        assert S.ExpiredTasks(s, w, now) <= expired;
        assert expired * S.ExpiredTasks(s, w, now) == S.ExpiredTasks(s, w, now);
      }
      assert workers == S.AdvanceTime(s, now).workers;
      forall k | k in stages ensures stages[k] == S.AdvanceStage(s, k, now) {
        assert PartlyExpired(s, k, expired, now, stages[k]);
        forall i | 0 <= i < |s.stages[k].partitions|
          ensures stages[k].partitions[i] == S.Expire(s, s.stages[k].partitions[i], now)
        {
          assert (k, i) in expired <==> LeaseGone(s.At(k, i), timedOut, now);
        }
      }
      assert stages == S.AdvanceTime(s, now).stages;
    }

    /** Retires one lease: frees the slot unless its worker is dead, then replaces the partition. */
    method RetireOne(ghost s: S.State, ghost done: set<(StageKey, int)>, timedOut: set<WorkerId>,
                     t: (StageKey, int), now: U64)
      requires Midway(s, done, now) && t !in done
      requires timedOut == set w | w in s.workers && S.TimedOut(s, w, now)
      requires s.Has(t.0, t.1) && S.Expired(s, s.At(t.0, t.1), now)
      modifies this
      ensures Midway(s, done + {t}, now)
    {
      hide Retired; hide PartlyExpired; hide S.Release; hide S.ExpiredTasks; hide S.Expire;
      var (k, i) := t;
      assert PartlyExpired(s, k, done, now, stages[k]);
      Untouched(s, k, i, done, now, stages[k]);
      var p := stages[k].partitions[i];
      if p.workerId !in timedOut { ReleaseWorkerSlot(p.workerId); }
      WorkersMore(s, done, t, now, old(workers), workers);
      var replacement := Replacement(config.maxTaskAttempts, p, p.workerId in timedOut);
      stages := stages[k := stages[k].(partitions := stages[k].partitions[i := replacement])];
      StagesMore(s, done, t, now, old(stages), stages);
    }

    static function Replacement(maxTaskAttempts: U32, p: S.Partition, workerTimedOut: bool): S.Partition
      requires p.Live()
    {
      if p.Cancelling? then S.Withdrawn
      else S.RetryOrFail(maxTaskAttempts, p.task.attempt,
                         if workerTimedOut then "worker heartbeat timed out" else "task lease expired")
    }

    static lemma WorkersMore(s: S.State, done: set<(StageKey, int)>, t: (StageKey, int), now: U64,
                             before: map<WorkerId, S.WorkerRuntime>, after: map<WorkerId, S.WorkerRuntime>)
      requires s.Has(t.0, t.1) && S.Expired(s, s.At(t.0, t.1), now) && t !in done
      requires before.Keys == s.workers.Keys && forall w | w in before :: before[w] == Retired(s, w, done, now)
      requires var h := s.At(t.0, t.1).workerId;
        after == if !S.TimedOut(s, h, now) && h in before then before[h := S.Release(before[h], 1)] else before
      ensures after.Keys == s.workers.Keys
      ensures forall w | w in after :: after[w] == Retired(s, w, done + {t}, now)
    {
      RetiredMore(s, done, t, now);
      hide Retired; hide S.Release;
    }

    static lemma StagesMore(s: S.State, done: set<(StageKey, int)>, t: (StageKey, int), now: U64,
                            before: map<StageKey, S.StageRuntime>, after: map<StageKey, S.StageRuntime>)
      requires s.Has(t.0, t.1) && S.Expired(s, s.At(t.0, t.1), now) && t !in done
      requires before.Keys == s.stages.Keys && forall k | k in before :: PartlyExpired(s, k, done, now, before[k])
      requires PartlyExpired(s, t.0, done, now, before[t.0])
      requires after == before[t.0 := before[t.0].(partitions := before[t.0].partitions[t.1 :=
        Replacement(s.config.maxTaskAttempts, s.At(t.0, t.1), S.TimedOut(s, s.At(t.0, t.1).workerId, now))])]
      ensures after.Keys == s.stages.Keys
      ensures forall k | k in after :: PartlyExpired(s, k, done + {t}, now, after[k])
    {
      forall k | k in after ensures PartlyExpired(s, k, done + {t}, now, after[k]) {
        PartlyExpiredMore(s, k, done, t, now, before[k], after[k]);
      }
    }

    static lemma PartlyExpiredMore(s: S.State, k: StageKey, done: set<(StageKey, int)>, t: (StageKey, int), now: U64,
                                   before: S.StageRuntime, after: S.StageRuntime)
      requires PartlyExpired(s, k, done, now, before) && s.Has(t.0, t.1) && t !in done
      requires k != t.0 ==> after == before
      requires k == t.0 ==>
        after == before.(partitions := before.partitions[t.1 := S.Expire(s, s.At(t.0, t.1), now)])
      ensures PartlyExpired(s, k, done + {t}, now, after)
    {
    }

    /** A worker after the leases in `done` have been retired. */
    static ghost function Retired(s: S.State, w: WorkerId, done: set<(StageKey, int)>, now: U64): S.WorkerRuntime
      requires w in s.workers
    {
      if S.TimedOut(s, w, now) then Dead(s.workers[w])
      else S.Release(s.workers[w], |done * S.ExpiredTasks(s, w, now)|)
    }

    static ghost predicate PartlyExpired(s: S.State, k: StageKey, done: set<(StageKey, int)>, now: U64,
                                         stage: S.StageRuntime)
    {
      && k in s.stages
      && stage.plan == s.stages[k].plan
      && |stage.partitions| == |s.stages[k].partitions|
      && forall i | 0 <= i < |stage.partitions| ::
           stage.partitions[i] == if (k, i) in done then S.Expire(s, s.At(k, i), now) else s.At(k, i)
    }

    static lemma Untouched(s: S.State, k: StageKey, i: int, done: set<(StageKey, int)>, now: U64, stage: S.StageRuntime)
      requires PartlyExpired(s, k, done, now, stage) && s.Has(k, i) && (k, i) !in done
      ensures i < |stage.partitions| && stage.partitions[i] == s.At(k, i)
    {
    }

    static lemma RetiredMore(s: S.State, done: set<(StageKey, int)>, t: (StageKey, int), now: U64)
      requires t !in done && s.Has(t.0, t.1) && S.Expired(s, s.At(t.0, t.1), now)
      ensures forall w | w in s.workers ::
        Retired(s, w, done + {t}, now) ==
          if !S.TimedOut(s, w, now) && s.At(t.0, t.1).workerId == w
          then S.Release(Retired(s, w, done, now), 1) else Retired(s, w, done, now)
    {
      forall w | w in s.workers
        ensures Retired(s, w, done + {t}, now) ==
          if !S.TimedOut(s, w, now) && s.At(t.0, t.1).workerId == w
          then S.Release(Retired(s, w, done, now), 1) else Retired(s, w, done, now)
      {
        var expired := S.ExpiredTasks(s, w, now);
        assert t in expired <==> s.At(t.0, t.1).workerId == w;
        if t in expired {
          assert (done + {t}) * expired == done * expired + {t};
        } else {
          assert (done + {t}) * expired == done * expired;
        }
      }
    }

    method ReleaseWorkerSlot(w: WorkerId)
      modifies this`workers
      ensures workers == if w in old(workers) then old(workers)[w := S.Release(old(workers)[w], 1)] else old(workers)
    {
      if w in workers && workers[w].alive {
        var worker := workers[w];
        var raised := Min(worker.availableSlots + 1, U32_MAX);
        workers := workers[w := worker.(availableSlots := Min(raised, worker.registration.slots))];
      }
    }

    // ----- assignment ----------------------------------------------------------------------

    /** `next_pending_partition`. The ascending scan of the stage map becomes a search for the
        least schedulable key. */
    method NextPendingPartition() returns (r: Option<(StageKey, int)>)
      ensures r == S.NextPending(Contents())
    {
      ghost var s := Contents();
      var todo := stages.Keys;
      var best: Option<StageKey> := None;
      while todo != {}
        invariant todo <= stages.Keys
        invariant best.None? ==> forall k | k in stages && k !in todo :: !S.Schedulable(s, k)
        invariant best.Some? ==>
          && best.value in stages && best.value !in todo && S.Schedulable(s, best.value)
          && forall k | k in stages && k !in todo && S.Schedulable(s, k) :: S.KeyLeq(best.value, k)
        decreases todo
      {
        var k :| k in todo;
        todo := todo - {k};
        var schedulable := IsSchedulable(k);
        if schedulable {
          if best.None? {
            KeyLeqReflexive(k);
            best := Some(k);
          } else if !S.KeyLeq(best.value, k) {
            KeyLeqTotal(best.value, k);
            KeyLeqReflexive(k);
            forall other | other in stages && other !in todo && S.Schedulable(s, other) ensures S.KeyLeq(k, other) {
              if other != k { S.KeyLeqTransitive(k, best.value, other); }
            }
            best := Some(k);
          }
        }
      }
      if best.None? { return None; }
      assert S.FirstSchedulable(s, best.value);
      var partitions := stages[best.value].partitions;
      var i := 0;
      while !partitions[i].Pending?
        invariant 0 <= i < |partitions|
        invariant forall j | 0 <= j < i :: !partitions[j].Pending?
        invariant exists j | i <= j < |partitions| :: partitions[j].Pending?
        decreases |partitions| - i
      {
        i := i + 1;
      }
      assert S.FirstPending(partitions, i);
      NextPendingUnique(s, best.value, i);
      return Some((best.value, i));
    }

    method IsSchedulable(k: StageKey) returns (b: bool)
      requires k in stages
      ensures b == S.Schedulable(Contents(), k)
    {
      ghost var s := Contents();
      if k.0 in cancelled { return false; }
      var plan := stages[k].plan;
      for n := 0 to |plan.inputStages|
        invariant forall i | 0 <= i < n :: S.StageDone(s, (plan.queryId, plan.inputStages[i]))
      {
        var d := (plan.queryId, plan.inputStages[n]);
        if d !in stages || !S.AllDone(stages[d].partitions) {
          assert !S.StageDone(s, d) && plan.inputStages[n] in plan.inputStages;
          return false;
        }
      }
      assert S.DependenciesDone(s, plan);
      return exists i | 0 <= i < |stages[k].partitions| :: stages[k].partitions[i].Pending?;
    }

    static lemma KeyLeqReflexive(k: StageKey)
      ensures S.KeyLeq(k, k)
    {
    }

    static lemma KeyLeqTotal(a: StageKey, b: StageKey)
      ensures S.KeyLeq(a, b) || S.KeyLeq(b, a)
    {
      StringLeqTotal(a.0, b.0);
    }

    static lemma NextPendingHas(s: S.State)
      requires S.Shaped(s) && S.NextPending(s).Some?
      ensures var (k, i) := S.NextPending(s).value; s.Has(k, i) && s.At(k, i).Pending? && i <= U32_MAX
    {
    }

    static lemma InvShaped(s: S.State)
      requires Inv(s)
      ensures S.Shaped(s)
    {
    }

    /** The three ways an assignment can go. */
    static lemma AssignCases(s: S.State, w: WorkerId, now: U64)
      requires S.Shaped(s) && S.Idle(s, w)
      ensures S.NextPending(s).None? ==> S.Assign(s, w, now) == (s, Ok(None))
      ensures S.NextPending(s).Some? && now + s.config.leaseDuration > U64_MAX ==>
        S.Assign(s, w, now) == (s, Err(ProtocolError))
      ensures S.NextPending(s).Some? && now + s.config.leaseDuration <= U64_MAX ==>
        var (k, i) := S.NextPending(s).value;
        var message := S.AssignmentFor(s, k, i, w, now);
        S.Assign(s, w, now) ==
          (S.Take(s, k, i, w, now), if ValidCoordinatorMessage(message) then Ok(Some(message)) else Err(ProtocolError))
    {
    }

    static lemma NextPendingUnique(s: S.State, k: StageKey, i: int)
      requires S.FirstSchedulable(s, k) && S.FirstPending(s.stages[k].partitions, i)
      ensures S.NextPending(s) == Some((k, i))
    {
      var next := S.NextPending(s);
      assert next.Some?;
      var (k', i') := next.value;
      assert S.KeyLeq(k, k') && S.KeyLeq(k', k);
      if k.0 != k'.0 { StringLeqAntisymmetric(k.0, k'.0); }
    }

    /** `dependency_output_blocks`: all committed blocks in dependency and partition order. */
    method DependencyOutputBlocks(plan: StagePlan) returns (blocks: seq<ShuffleBlock>)
      ensures blocks == S.DependencyBlocks(Contents(), plan.queryId, plan.inputStages)
    {
      blocks := [];
      var n := |plan.inputStages|;
      while n > 0
        invariant 0 <= n <= |plan.inputStages|
        invariant blocks == S.DependencyBlocks(Contents(), plan.queryId, plan.inputStages[n..])
      {
        n := n - 1;
        var k := (plan.queryId, plan.inputStages[n]);
        assert plan.inputStages[n..][1..] == plan.inputStages[n + 1..];
        if k in stages {
          var committed := OutputBlocks(stages[k].partitions);
          blocks := committed + blocks;
        }
      }
      assert plan.inputStages[0..] == plan.inputStages;
    }

    static method OutputBlocks(partitions: seq<S.Partition>) returns (blocks: seq<ShuffleBlock>)
      ensures blocks == S.CommittedBlocks(partitions)
    {
      blocks := [];
      var n := |partitions|;
      while n > 0
        invariant 0 <= n <= |partitions|
        invariant blocks == S.CommittedBlocks(partitions[n..])
      {
        n := n - 1;
        assert partitions[n..][1..] == partitions[n + 1..];
        if partitions[n].Done? { blocks := partitions[n].outputBlocks + blocks; }
      }
      assert partitions[0..] == partitions;
    }

    static method Retain(blocks: seq<ShuffleBlock>, partition: U32) returns (kept: seq<ShuffleBlock>)
      ensures kept == S.AddressedTo(blocks, partition)
    {
      kept := [];
      var n := |blocks|;
      while n > 0
        invariant 0 <= n <= |blocks|
        invariant kept == S.AddressedTo(blocks[n..], partition)
      {
        n := n - 1;
        assert blocks[n..][1..] == blocks[n + 1..];
        if blocks[n].outputPartition == partition { kept := [blocks[n]] + kept; }
      }
      assert blocks[0..] == blocks;
    }

    method InputBlocksFor(plan: StagePlan, partition: U32) returns (blocks: seq<ShuffleBlock>)
      ensures blocks == S.InputBlocks(Contents(), plan, partition)
    {
      blocks := DependencyOutputBlocks(plan);
      if plan.partitionedInput { blocks := Retain(blocks, partition); }
    }

    /** The two writes of an assignment. The slot count cannot underflow: the worker is idle. */
    method TakePartition(k: StageKey, i: int, w: WorkerId, now: U64)
      requires Contents().Has(k, i) && Contents().At(k, i).Pending? && i <= U32_MAX
      requires w in workers && workers[w].availableSlots > 0
      requires now + config.leaseDuration <= U64_MAX
      modifies this
      ensures Contents() == S.Take(old(Contents()), k, i, w, now)
    {
      var task := TaskAttemptId(k.0, k.1, i, stages[k].partitions[i].nextAttempt);
      var lease := TaskLease(w, now, now + config.leaseDuration);
      stages := stages[k := stages[k].(partitions := stages[k].partitions[i := S.Active(task, w, lease, None)])];
      var worker := workers[w];
      workers := workers[w := worker.(availableSlots := worker.availableSlots - 1)];
    }

    method AssignToWorker(w: WorkerId, now: U64) returns (r: S.PollReply)
      requires Valid() && S.Idle(Contents(), w)
      modifies this
      ensures Valid()
      ensures (Contents(), r) == S.Assign(old(Contents()), w, now)
    {
      hide Inv; hide S.Take; hide S.InputBlocks; hide ValidCoordinatorMessage;
      hide S.FirstSchedulable; hide S.FirstPending; hide S.Shaped; hide S.Assign;
      ghost var s := Contents();
      InvShaped(s);
      AssignInv(s, w, now);
      AssignCases(s, w, now);
      var next := NextPendingPartition();
      if next.None? { return Ok(None); }
      var (k, i) := next.value;
      NextPendingHas(s);
      if now + config.leaseDuration > U64_MAX { return Err(ProtocolError); }
      var task := TaskAttemptId(k.0, k.1, i, stages[k].partitions[i].nextAttempt);
      var plan := stages[k].plan;
      var inputBlocks := InputBlocksFor(plan, i);
      TakePartition(k, i, w, now);
      var message := AssignTask(PROTOCOL_VERSION, plan, task, TaskLease(w, now, now + config.leaseDuration), inputBlocks);
      assert message == S.AssignmentFor(s, k, i, w, now);
      if !ValidCoordinatorMessage(message) { return Err(ProtocolError); }
      return Ok(Some(message));
    }

    method NextAssignmentFor(w: WorkerId, now: U64) returns (r: S.PollReply)
      requires Valid()
      modifies this
      ensures Valid()
      ensures (Contents(), r) == S.NextAssignmentFor(old(Contents()), w, now)
    {
      AdvanceTime(now);
      if w !in workers { return Err(ProtocolError); }
      if !workers[w].alive || workers[w].availableSlots == 0 { return Ok(None); }
      r := AssignToWorker(w, now);
    }

    method NextAssignment(now: U64) returns (r: S.PollReply)
      requires Valid()
      modifies this
      ensures Valid()
      ensures (Contents(), r) == S.NextAssignment(old(Contents()), now)
    {
      hide Inv; hide S.AdvanceTime; hide S.Assign;
      AdvanceTime(now);
      ghost var s := Contents();
      var todo := workers.Keys;
      var best: Option<WorkerId> := None;
      while todo != {}
        invariant Contents() == s && todo <= workers.Keys
        invariant best.None? ==> forall w | w in workers && w !in todo :: !S.Idle(s, w)
        invariant best.Some? ==>
          && best.value !in todo && S.Idle(s, best.value)
          && forall w | w in workers && w !in todo && S.Idle(s, w) :: StringLeq(best.value, w)
        decreases todo
      {
        var w :| w in todo;
        todo := todo - {w};
        if workers[w].alive && workers[w].availableSlots > 0 {
          StringLeqTotal(w, w);
          if best.None? {
            best := Some(w);
          } else if !StringLeq(best.value, w) {
            StringLeqTotal(best.value, w);
            forall other | other in workers && other !in todo && S.Idle(s, other) ensures StringLeq(w, other) {
              if other != w { StringLeqTransitive(w, best.value, other); }
            }
            best := Some(w);
          }
        }
      }
      if best.None? { return Ok(None); }
      assert S.FirstIdle(s, best.value);
      forall first | S.FirstIdle(s, first) ensures first == best.value {
        StringLeqAntisymmetric(first, best.value);
      }
      r := AssignToWorker(best.value, now);
    }

    // ----- cancellation --------------------------------------------------------------------

    method CancelQuery(q: QueryId, reason: string) returns (r: Result<CoordinatorMessage, Failure>)
      requires Valid()
      modifies this
      ensures Valid()
      ensures (Contents(), r) == S.Cancel(old(Contents()), q, reason)
    {
      hide Inv;
      ghost var s := Contents();
      CancelInv(s, q, reason);
      var message := CoordinatorMessage.CancelQuery(PROTOCOL_VERSION, q, reason);
      if !ValidCoordinatorMessage(message) { return Err(ProtocolError); }
      if !(exists k | k in stages :: k.0 == q) { return Err(NotFound); }
      if q in cancelled {
        return if cancelled[q] == reason then Ok(message) else Err(ProtocolError);
      }
      var todo := stages.Keys;
      while todo != {}
        invariant todo <= stages.Keys == s.stages.Keys
        invariant workers == s.workers && cancelled == s.cancelled
        invariant forall k | k in stages ::
          stages[k] == if k in todo then s.stages[k] else S.WithdrawQuery(s, q)[k]
        decreases todo
      {
        var k :| k in todo;
        todo := todo - {k};
        if k.0 == q {
          var partitions := WithdrawAll(stages[k].partitions);
          stages := stages[k := stages[k].(partitions := partitions)];
        }
      }
      assert stages == S.WithdrawQuery(s, q);
      cancelled := cancelled[q := reason];
      return Ok(message);
    }

    static method WithdrawAll(partitions: seq<S.Partition>) returns (r: seq<S.Partition>)
      ensures r == seq(|partitions|, i requires 0 <= i < |partitions| => S.Withdraw(partitions[i]))
    {
      r := partitions;
      for n := 0 to |partitions|
        invariant |r| == |partitions|
        invariant forall i | 0 <= i < |partitions| :: r[i] == if i < n then S.Withdraw(partitions[i]) else partitions[i]
      {
        match r[n]
        case Active(task, w, lease, _) => r := r[n := S.Cancelling(task, w, lease)];
        case Done(_, _) =>
        case _ => r := r[n := S.Withdrawn];
      }
    }

    // ----- worker messages -----------------------------------------------------------------

    method HandleWorkerMessage(message: WorkerMessage, now: U64) returns (r: Result<(), Failure>)
      requires Valid()
      modifies this
      ensures Valid()
      ensures (Contents(), r) == S.Handle(old(Contents()), message, now)
    {
      HandleInv(Contents(), message, now);
      if !ValidWorkerMessage(message) { return Err(ProtocolError); }
      AdvanceTime(now);
      match message
      case Register(_, registration) => r := RegisterWorker(registration, now);
      case Heartbeat(_, heartbeat) => r := RecordHeartbeat(heartbeat, now);
      case TaskUpdate(_, w, task, state) => r := RecordTaskUpdate(w, task, state, now);
    }

    ghost predicate Became(before: S.State, spec: Result<S.State, Failure>, r: Result<(), Failure>)
      reads this
    {
      match spec
      case Ok(after) => r == Ok(()) && Contents() == after
      case Err(e) => r == Err(e) && Contents() == before
    }

    method RegisterWorker(registration: WorkerRegistration, now: U64) returns (r: Result<(), Failure>)
      modifies this`workers
      ensures Became(old(Contents()), S.RegisterWorker(old(Contents()), registration, now), r)
    {
      if registration.workerId in workers { return Err(ProtocolError); }
      workers := workers[registration.workerId :=
        S.WorkerRuntime(registration, 0, now, registration.slots, registration.memoryBytes, true)];
      return Ok(());
    }

    method RecordHeartbeat(h: WorkerHeartbeat, now: U64) returns (r: Result<(), Failure>)
      modifies this`workers
      ensures Became(old(Contents()), S.RecordHeartbeat(old(Contents()), h, now), r)
    {
      var held := set k, i | k in stages && 0 <= i < |stages[k].partitions|
                             && stages[k].partitions[i].HeldBy(h.workerId) :: (k, i);
      assert held == S.LiveTasks(Contents(), h.workerId);
      var activeTasks := Min(|held|, U32_MAX);
      if h.workerId !in workers { return Err(ProtocolError); }
      var worker := workers[h.workerId];
      if h.observedAt < worker.lastObserved { return Err(ProtocolError); }
      if h.availableSlots > SaturatingSub(worker.registration.slots, activeTasks) { return Err(ProtocolError); }
      if h.availableMemory > worker.registration.memoryBytes { return Err(ProtocolError); }
      workers := workers[h.workerId :=
        worker.(lastObserved := h.observedAt, lastReceived := now, availableSlots := h.availableSlots,
                availableMemory := h.availableMemory, alive := true)];
      return Ok(());
    }

    method RecordTaskUpdate(w: WorkerId, task: TaskAttemptId, state: TaskState, now: U64)
      returns (r: Result<(), Failure>)
      modifies this
      ensures Became(old(Contents()), S.RecordTaskUpdate(old(Contents()), w, task, state, now), r)
    {
      ghost var s := Contents();
      if w !in workers { return Err(ProtocolError); }
      var k, i := (task.queryId, task.stageId), task.partitionId;
      if k !in stages { return Err(NotFound); }
      var plan := stages[k].plan;
      if !ValidTaskFor(task, plan) || i >= |stages[k].partitions| { return Err(ProtocolError); }
      var p := stages[k].partitions[i];
      assert p == s.At(k, i);
      if S.Superseded(p, task.attempt) { return Err(TaskSuperseded); }
      if plan.outputExchange.Some? && state.Succeeded? {
        var count := plan.outputExchange.value.partitionCount;
        var destinations := S.Destinations(state.outputBlocks);
        if |state.outputBlocks| != count || |destinations| != count || exists d | d in destinations :: d >= count {
          return Err(ProtocolError);
        }
      }
      if p.Cancelling? {
        if p.task != task || p.workerId != w || p.lease.workerId != w { return Err(ProtocolError); }
        if !S.ReportedTimeOk(S.ReportedTime(state), p.lease, now) { return Err(ProtocolError); }
        if state.Running? { return Ok(()); }
        SetPartition(k, i, S.Withdrawn);
        ReleaseWorkerSlot(w);
        return Ok(());
      }
      if !p.Active? || p.task != task || p.workerId != w || p.lease.workerId != w { return Err(ProtocolError); }
      if p.lease.expiresAt <= now { return Err(ProtocolError); }
      if !S.ReportedTimeOk(S.ReportedTime(state), p.lease, now) { return Err(ProtocolError); }
      match state {
        case Running(started) =>
          if p.startedAt.Some? {
            if p.startedAt.value != started { return Err(ProtocolError); }
          } else {
            SetPartition(k, i, p.(startedAt := Some(started)));
          }
        case Succeeded(_, blocks) =>
          SetPartition(k, i, S.Done(task, blocks));
          ReleaseWorkerSlot(w);
        case Failed(_, error, retryable) =>
          SetPartition(k, i, if retryable then S.RetryOrFail(config.maxTaskAttempts, task.attempt, error)
                             else S.Lost(task.attempt, error, false));
          ReleaseWorkerSlot(w);
        case Cancelled(_, _) =>
          SetPartition(k, i, S.Withdrawn);
          ReleaseWorkerSlot(w);
      }
      return Ok(());
    }

    method SetPartition(k: StageKey, i: int, p: S.Partition)
      requires k in stages && 0 <= i < |stages[k].partitions|
      modifies this`stages
      ensures Contents() == old(Contents()).Put(k, i, p)
    {
      stages := stages[k := stages[k].(partitions := stages[k].partitions[i := p])];
    }
  }
}
