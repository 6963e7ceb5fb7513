/** Scheduling cannot deadlock: submitted dependencies are acyclic whatever the stage numbers,
    so unfinished work is always running or ready, and a poll by an idle worker finds it. */
module CoordinatorProgress {
  import opened Basics
  import opened Protocol
  import opened CoordinatorState
  import opened CoordinatorInvariant
  import opened CoordinatorRuns
  import opened CoordinatorLeases

  /** `order` lists every stage after all of its dependencies. */
  ghost predicate Topological(s: State, order: seq<StageKey>) {
    && (forall k | k in s.stages :: k in order)
    && (forall n | 0 <= n < |order| ::
          && order[n] in s.stages
          && forall d | d in s.stages[order[n]].plan.inputStages :: (order[n].0, d) in order[..n])
  }

  /** The stages of a run, listed in the order they were submitted, are in topological order. */
  lemma {:induction false} SubmissionIsTopological(t: Trace, n: nat) returns (order: seq<StageKey>)
    requires IsRun(t) && n < |t.states|
    ensures Topological(t.states[n], order)
  {
    if n == 0 {
      order := [];
    } else {
      var before := SubmissionIsTopological(t, n - 1);
      var s, e := t.states[n - 1], t.events[n - 1];
      RunInv(t, n - 1);
      assert Steps(t, n - 1);
      StepEvolves(s, e);
      StepStages(s, e);
      if e.Submit? && Submittable(s, e.plan) {
        order := before + [(e.plan.queryId, e.plan.stageId)];
        AppendStage(s, e.plan, before);
      } else {
        order := before;
        hide Step;
        assert t.states[n].stages.Keys == s.stages.Keys;
      }
    }
  }

  /** Only a successful submission adds a stage. */
  lemma StepStages(s: State, e: Event)
    requires Inv(s)
    ensures !(e.Submit? && Submittable(s, e.plan)) ==> Step(s, e).0.stages.Keys == s.stages.Keys
  {
    if e.Poll? || e.PollFor? {
      PollStages(s, e);
    } else if e.Message? {
      MessageStages(s, e.message, e.at);
    }
  }

  lemma PollStages(s: State, e: Event)
    requires Inv(s) && (e.Poll? || e.PollFor?)
    ensures Step(s, e).0.stages.Keys == s.stages.Keys
  {
    hide Step; hide Schedulable; hide AdvanceTime; hide Inv;
    PollOutcomes(s, e);
    AdvancePlans(s, e.at);
    if k, i, w :| Leases(s, e, k, i, w) {
      assert Step(s, e).0.stages.Keys == AdvanceTime(s, e.at).stages.Keys;
    }
  }

  lemma MessageStages(s: State, message: WorkerMessage, at: U64)
    requires Inv(s)
    ensures Handle(s, message, at).0.stages.Keys == s.stages.Keys
  {
    if ValidWorkerMessage(message) {
      var now := AdvanceTime(s, at);
      assert now.stages.Keys == s.stages.Keys;
      if message.TaskUpdate? {
        UpdateStages(now, message.workerId, message.task, message.state, at);
      }
    }
  }

  lemma UpdateStages(s: State, w: WorkerId, task: TaskAttemptId, state: TaskState, at: U64)
    ensures RecordTaskUpdate(s, w, task, state, at).Ok? ==>
              RecordTaskUpdate(s, w, task, state, at).value.stages.Keys == s.stages.Keys
  {
  }

  lemma AppendStage(s: State, plan: StagePlan, order: seq<StageKey>)
    requires Inv(s) && Topological(s, order) && Submittable(s, plan)
    ensures Topological(SubmitStage(s, plan).0, order + [(plan.queryId, plan.stageId)])
  {
    var s' := SubmitStage(s, plan).0;
    var key := (plan.queryId, plan.stageId);
    var order' := order + [key];
    forall n | 0 <= n < |order'|
      ensures order'[n] in s'.stages
      ensures forall d | d in s'.stages[order'[n]].plan.inputStages :: (order'[n].0, d) in order'[..n]
    {
      if n < |order| {
        assert order'[..n] == order[..n];
        assert order[n] in s.stages && order[n] != key;
      } else {
        assert order'[..n] == order;
      }
    }
    forall k | k in s'.stages ensures k in order' {
      if k != key { assert k in order; } else { assert order'[|order|] == key; }
    }
  }

  /** Some partition of the query failed or was withdrawn. */
  ghost predicate Broken(s: State, q: QueryId) {
    exists k, i | s.Has(k, i) :: k.0 == q && (s.At(k, i).Lost? || s.At(k, i).Withdrawn?)
  }

  ghost predicate Unfinished(s: State, q: QueryId) {
    exists k | k in s.stages :: k.0 == q && !StageDone(s, k)
  }

  ghost predicate Running(s: State, q: QueryId) {
    exists k, i | s.Has(k, i) :: k.0 == q && s.At(k, i).Active?
  }

  ghost predicate Ready(s: State, q: QueryId) {
    exists k | k in s.stages :: k.0 == q && Schedulable(s, k)
  }

  /** The earliest unfinished stage of a query has only finished dependencies. */
  lemma {:induction false} EarliestUnfinished(s: State, q: QueryId, order: seq<StageKey>, n: nat) returns (m: nat)
    requires Inv(s) && Topological(s, order)
    requires n < |order| && order[n].0 == q && !StageDone(s, order[n])
    ensures m < |order| && order[m].0 == q && !StageDone(s, order[m])
    ensures DependenciesDone(s, s.stages[order[m]].plan)
    decreases n
  {
    if earlier :| 0 <= earlier < n && order[earlier].0 == q && !StageDone(s, order[earlier]) {
      m := EarliestUnfinished(s, q, order, earlier);
    } else {
      m := n;
      var plan := s.stages[order[n]].plan;
      forall d | d in plan.inputStages ensures StageDone(s, (plan.queryId, d)) {
        var j :| 0 <= j < n && order[..n][j] == (q, d);
        assert order[j].0 == q;
      }
    }
  }

  /** A query that is neither cancelled nor broken and still has work is running or ready. */
  lemma NoDeadlock(s: State, q: QueryId, order: seq<StageKey>)
    requires Inv(s) && Topological(s, order)
    requires q !in s.cancelled && Unfinished(s, q) && !Broken(s, q)
    ensures Running(s, q) || Ready(s, q)
  {
    var k :| k in s.stages && k.0 == q && !StageDone(s, k);
    assert k in order;
    var n :| 0 <= n < |order| && order[n] == k;
    var m := EarliestUnfinished(s, q, order, n);
    var stage := order[m];
    var partitions := s.stages[stage].partitions;
    var i :| 0 <= i < |partitions| && !partitions[i].Done?;
    assert s.Has(stage, i) && PartitionOk(s, stage, i, s.At(stage, i));
    if s.At(stage, i).Pending? { assert Schedulable(s, stage); }
  }

  /** A clock tick changes neither the stages nor their plans. */
  lemma TopologicalLater(s: State, order: seq<StageKey>, now: U64)
    requires Inv(s) && Topological(s, order)
    ensures Topological(AdvanceTime(s, now), order)
  {
    AdvanceEvolves(s, now);
    forall n | 0 <= n < |order|
      ensures forall d | d in AdvanceTime(s, now).stages[order[n]].plan.inputStages :: (order[n].0, d) in order[..n]
    {
    }
  }

  /** Over every run: when an idle worker polls and some live query has work but nothing running,
      the poll hands out a task. Only an overflowing lease timestamp can stop it. */
  lemma PollFindsWork(t: Trace, n: nat, w: WorkerId, at: U64, q: QueryId)
    requires IsRun(t) && n < |t.states|
    requires var now := AdvanceTime(t.states[n], at);
      && Idle(now, w) && q !in now.cancelled
      && Unfinished(now, q) && !Broken(now, q) && !Running(now, q)
    ensures Inv(t.states[n])
    ensures var reply := Step(t.states[n], PollFor(w, at)).1;
      if at + t.config.leaseDuration <= U64_MAX
      then reply.Sent? && reply.message.Some? && reply.message.value.AssignTask?
      else reply.Refused?
  {
    var order := SubmissionIsTopological(t, n);
    RunInv(t, n);
    var s := t.states[n];
    TopologicalLater(s, order, at);
    AdvanceInv(s, at);
    var now := AdvanceTime(s, at);
    NoDeadlock(now, q, order);
    var k :| k in now.stages && Schedulable(now, k);
    PollWithWork(s, w, at, k);
  }

  lemma PollWithWork(s: State, w: WorkerId, at: U64, k: StageKey)
    requires Inv(s) && Idle(AdvanceTime(s, at), w) && Schedulable(AdvanceTime(s, at), k)
    ensures var reply := Step(s, PollFor(w, at)).1;
      if at + s.config.leaseDuration <= U64_MAX
      then reply.Sent? && reply.message.Some? && reply.message.value.AssignTask?
      else reply.Refused?
  {
    var e := PollFor(w, at);
    PollOutcomes(s, e);
    hide Step; hide Schedulable; hide AdvanceTime;
    if k', i, v :| Leases(s, e, k', i, v) {
    } else {
      assert Step(s, e).1 != Sent(None);
    }
  }
}
