/** Routing of committed blocks: what a task of a partitioned stage reads, and that the readers
    of a stage together read every committed block exactly once. */
module CoordinatorShuffle {
  import opened Basics
  import opened Protocol
  import opened CoordinatorState
  import opened CoordinatorInvariant
  import opened CoordinatorRuns

  function Producers(blocks: seq<ShuffleBlock>): seq<TaskAttemptId> {
    seq(|blocks|, i requires 0 <= i < |blocks| => blocks[i].producer)
  }

  /** The committed task of every partition, in partition order. */
  function CommittedTasks(partitions: seq<Partition>): seq<TaskAttemptId>
    requires AllDone(partitions)
  {
    seq(|partitions|, i requires 0 <= i < |partitions| => partitions[i].task)
  }

  ghost predicate AllStagesDone(s: State, q: QueryId, dependencies: seq<StageId>) {
    forall i | 0 <= i < |dependencies| :: StageDone(s, (q, dependencies[i]))
  }

  /** All dependencies have succeeded and exchange into `n` destinations. */
  ghost predicate AllExchanged(s: State, q: QueryId, dependencies: seq<StageId>, n: nat) {
    && AllStagesDone(s, q, dependencies)
    && forall i | 0 <= i < |dependencies| ::
         var e := s.stages[(q, dependencies[i])].plan.outputExchange;
         e.Some? && e.value.partitionCount == n
  }

  /** The committed producers of all dependencies, in dependency and partition order. */
  ghost function DependencyTasks(s: State, q: QueryId, dependencies: seq<StageId>): seq<TaskAttemptId>
    requires AllStagesDone(s, q, dependencies)
  {
    if dependencies == [] then []
    else
      assert StageDone(s, (q, dependencies[0]));
      CommittedTasks(s.stages[(q, dependencies[0])].partitions) + DependencyTasks(s, q, dependencies[1..])
  }

  function Range(n: nat): (r: set<nat>)
    ensures |r| == n && forall x: nat :: x in r <==> x < n
  {
    if n == 0 then {} else Range(n - 1) + {n - 1}
  }

  /** As many destinations as blocks means one block for each of them. */
  lemma {:induction false} DistinctDestinations(blocks: seq<ShuffleBlock>, d: U32)
    ensures |Destinations(blocks)| <= |blocks|
    ensures |Destinations(blocks)| == |blocks| ==>
              |AddressedTo(blocks, d)| == if d in Destinations(blocks) then 1 else 0
  {
    if blocks == [] {
      assert Destinations(blocks) == {};
    } else {
      var rest := blocks[1..];
      assert Destinations(blocks) == {blocks[0].outputPartition} + Destinations(rest) by {
        forall x | x in Destinations(blocks) ensures x in {blocks[0].outputPartition} + Destinations(rest) {
          var i :| 0 <= i < |blocks| && blocks[i].outputPartition == x;
          if i > 0 { assert rest[i - 1].outputPartition == x; }
        }
        forall x | x in Destinations(rest) ensures x in Destinations(blocks) {
          var i :| 0 <= i < |rest| && rest[i].outputPartition == x;
          assert blocks[i + 1].outputPartition == x;
        }
      }
      DistinctDestinations(rest, d);
    }
  }

  lemma OneBlockEach(blocks: seq<ShuffleBlock>, n: nat, d: U32)
    requires OneBlockPerDestination(blocks, n) && d < n
    ensures |AddressedTo(blocks, d)| == 1
  {
    SubsetCardinality(Destinations(blocks), Range(n));
    DistinctDestinations(blocks, d);
  }

  lemma {:induction false} AddressedToConcat(a: seq<ShuffleBlock>, b: seq<ShuffleBlock>, d: U32)
    ensures AddressedTo(a + b, d) == AddressedTo(a, d) + AddressedTo(b, d)
  {
    if a == [] {
      assert a + b == b;
    } else {
      assert (a + b)[0] == a[0] && (a + b)[1..] == a[1..] + b;
      AddressedToConcat(a[1..], b, d);
      var head := if a[0].outputPartition == d then [a[0]] else [];
      assert AddressedTo(a + b, d) == head + AddressedTo(a[1..] + b, d);
      assert AddressedTo(a, d) == head + AddressedTo(a[1..], d);
    }
  }

  lemma {:induction false} AddressedToKeeps(blocks: seq<ShuffleBlock>, d: U32)
    ensures forall i | 0 <= i < |AddressedTo(blocks, d)| ::
              AddressedTo(blocks, d)[i] in blocks && AddressedTo(blocks, d)[i].outputPartition == d
  {
    if blocks != [] {
      AddressedToKeeps(blocks[1..], d);
      assert blocks == [blocks[0]] + blocks[1..];
    }
  }

  /** A committed partition of a stage that exchanges into `n` destinations. */
  ghost predicate ExchangedInto(p: Partition, n: nat) {
    && p.Done? && OneBlockPerDestination(p.outputBlocks, n)
    && forall b | 0 <= b < |p.outputBlocks| :: p.outputBlocks[b].producer == p.task
  }

  /** One destination of one stage: exactly one block from each producer partition, in order. */
  lemma {:induction false} StageRouting(partitions: seq<Partition>, n: nat, d: U32)
    requires d < n && AllDone(partitions) && forall i | 0 <= i < |partitions| :: ExchangedInto(partitions[i], n)
    ensures Producers(AddressedTo(CommittedBlocks(partitions), d)) == CommittedTasks(partitions)
  {
    if partitions != [] {
      var p, rest := partitions[0], partitions[1..];
      assert ExchangedInto(p, n);
      AddressedToConcat(p.outputBlocks, CommittedBlocks(rest), d);
      OneBlockEach(p.outputBlocks, n, d);
      AddressedToKeeps(p.outputBlocks, d);
      var mine := AddressedTo(p.outputBlocks, d);
      assert mine[0].producer == p.task;
      StageRouting(rest, n, d);
      assert CommittedTasks(partitions) == [p.task] + CommittedTasks(rest);
      assert Producers(mine + AddressedTo(CommittedBlocks(rest), d)) ==
             [p.task] + Producers(AddressedTo(CommittedBlocks(rest), d));
    }
  }

  lemma DoneStageExchanged(s: State, k: StageKey, n: nat)
    requires Inv(s) && StageDone(s, k)
    requires s.stages[k].plan.outputExchange.Some? && s.stages[k].plan.outputExchange.value.partitionCount == n
    ensures forall i | 0 <= i < |s.stages[k].partitions| :: ExchangedInto(s.stages[k].partitions[i], n)
  {
    forall i | 0 <= i < |s.stages[k].partitions| ensures ExchangedInto(s.stages[k].partitions[i], n) {
      assert s.Has(k, i) && PartitionOk(s, k, i, s.At(k, i));
    }
  }

  lemma ProducersConcat(a: seq<ShuffleBlock>, b: seq<ShuffleBlock>)
    ensures Producers(a + b) == Producers(a) + Producers(b)
  {
  }

  lemma {:induction false} DependencyRouting(s: State, q: QueryId, dependencies: seq<StageId>, n: nat, d: U32)
    requires Inv(s) && d < n && AllExchanged(s, q, dependencies, n)
    ensures Producers(AddressedTo(DependencyBlocks(s, q, dependencies), d)) == DependencyTasks(s, q, dependencies)
  {
    if dependencies != [] {
      var k, rest := (q, dependencies[0]), dependencies[1..];
      assert StageDone(s, k);
      DoneStageExchanged(s, k, n);
      assert forall i | 0 <= i < |rest| :: rest[i] == dependencies[i + 1];
      DependencyRouting(s, q, rest, n, d);
      hide Inv;
      var head, tail := CommittedBlocks(s.stages[k].partitions), DependencyBlocks(s, q, rest);
      StageRouting(s.stages[k].partitions, n, d);
      AddressedToConcat(head, tail, d);
      ProducersConcat(AddressedTo(head, d), AddressedTo(tail, d));
    }
  }

  ghost predicate Distinct(tasks: seq<TaskAttemptId>) {
    forall i, j | 0 <= i < j < |tasks| :: tasks[i] != tasks[j]
  }

  ghost predicate FromStages(tasks: seq<TaskAttemptId>, stages: seq<StageId>) {
    forall i | 0 <= i < |tasks| :: tasks[i].stageId in stages
  }

  lemma DistinctConcat(a: seq<TaskAttemptId>, b: seq<TaskAttemptId>, stage: StageId, rest: seq<StageId>)
    requires Distinct(a) && Distinct(b) && stage !in rest
    requires FromStages(a, [stage]) && FromStages(b, rest)
    ensures Distinct(a + b) && FromStages(a + b, [stage] + rest)
  {
  }

  lemma CommittedTasksDistinct(s: State, k: StageKey)
    requires Inv(s) && StageDone(s, k)
    ensures Distinct(CommittedTasks(s.stages[k].partitions))
    ensures FromStages(CommittedTasks(s.stages[k].partitions), [k.1])
  {
    var tasks := CommittedTasks(s.stages[k].partitions);
    forall i | 0 <= i < |tasks| ensures tasks[i].stageId == k.1 && tasks[i].partitionId == i {
      assert s.Has(k, i) && PartitionOk(s, k, i, s.At(k, i));
    }
  }

  /** No producer is listed twice. */
  lemma {:induction false} ProducersDistinct(s: State, q: QueryId, dependencies: seq<StageId>)
    requires Inv(s) && AllStagesDone(s, q, dependencies)
    requires forall i, j | 0 <= i < j < |dependencies| :: dependencies[i] != dependencies[j]
    ensures Distinct(DependencyTasks(s, q, dependencies))
    ensures FromStages(DependencyTasks(s, q, dependencies), dependencies)
  {
    if dependencies != [] {
      var k, rest := (q, dependencies[0]), dependencies[1..];
      assert StageDone(s, k);
      CommittedTasksDistinct(s, k);
      assert forall i | 0 <= i < |rest| :: rest[i] == dependencies[i + 1];
      ProducersDistinct(s, q, rest);
      DistinctConcat(CommittedTasks(s.stages[k].partitions), DependencyTasks(s, q, rest), k.1, rest);
      assert dependencies == [k.1] + rest;
    }
  }

  /** The blocks read by the first `n` readers. */
  function ReadBy(blocks: seq<ShuffleBlock>, n: nat): multiset<ShuffleBlock>
    requires n <= U32_MAX + 1
  {
    if n == 0 then multiset{} else ReadBy(blocks, n - 1) + multiset(AddressedTo(blocks, n - 1))
  }

  lemma {:induction false} ReadByPrepend(b: ShuffleBlock, rest: seq<ShuffleBlock>, n: nat)
    requires n <= U32_MAX + 1
    ensures ReadBy([b] + rest, n) ==
            ReadBy(rest, n) + if b.outputPartition < n then multiset{b} else multiset{}
  {
    hide AddressedTo;
    if n > 0 {
      ReadByPrepend(b, rest, n - 1);
      AddressedToPrepend(b, rest, n - 1);
    }
  }

  lemma AddressedToPrepend(b: ShuffleBlock, rest: seq<ShuffleBlock>, d: U32)
    ensures multiset(AddressedTo([b] + rest, d)) ==
            multiset(AddressedTo(rest, d)) + if b.outputPartition == d then multiset{b} else multiset{}
  {
    assert ([b] + rest)[0] == b && ([b] + rest)[1..] == rest;
    var head, tail := if b.outputPartition == d then [b] else [], AddressedTo(rest, d);
    assert AddressedTo([b] + rest, d) == head + tail;
    assert multiset(head + tail) == multiset(head) + multiset(tail);
  }

  lemma {:induction false} EveryBlockRead(blocks: seq<ShuffleBlock>, n: nat)
    requires n <= U32_MAX + 1 && forall i | 0 <= i < |blocks| :: blocks[i].outputPartition < n
    ensures ReadBy(blocks, n) == multiset(blocks)
  {
    if blocks == [] {
      NothingToRead(n);
    } else {
      EveryBlockRead(blocks[1..], n);
      ReadByPrepend(blocks[0], blocks[1..], n);
      assert blocks == [blocks[0]] + blocks[1..];
    }
  }

  lemma {:induction false} NothingToRead(n: nat)
    requires n <= U32_MAX + 1
    ensures ReadBy([], n) == multiset{}
  {
    if n > 0 { NothingToRead(n - 1); }
  }

  lemma {:induction false} DestinationsInRange(s: State, q: QueryId, dependencies: seq<StageId>, n: nat)
    requires Inv(s) && AllExchanged(s, q, dependencies, n)
    ensures forall i | 0 <= i < |DependencyBlocks(s, q, dependencies)| ::
              DependencyBlocks(s, q, dependencies)[i].outputPartition < n
  {
    if dependencies != [] {
      var k := (q, dependencies[0]);
      assert StageDone(s, k);
      StageDestinationsInRange(s, k, s.stages[k].partitions, 0, n);
      DestinationsInRange(s, q, dependencies[1..], n);
    }
  }

  lemma {:induction false} StageDestinationsInRange(s: State, k: StageKey, suffix: seq<Partition>, from: nat, n: nat)
    requires Inv(s) && StageDone(s, k) && from <= |s.stages[k].partitions| && suffix == s.stages[k].partitions[from..]
    requires s.stages[k].plan.outputExchange.Some? && s.stages[k].plan.outputExchange.value.partitionCount == n
    ensures forall i | 0 <= i < |CommittedBlocks(suffix)| :: CommittedBlocks(suffix)[i].outputPartition < n
    decreases |suffix|
  {
    if suffix != [] {
      assert s.Has(k, from) && PartitionOk(s, k, from, s.At(k, from));
      var blocks := s.At(k, from).outputBlocks;
      forall i | 0 <= i < |blocks| ensures blocks[i].outputPartition < n {
        assert blocks[i].outputPartition in Destinations(blocks);
      }
      StageDestinationsInRange(s, k, suffix[1..], from + 1, n);
    }
  }

  /** In every reachable state, once the dependencies of a partitioned stage have succeeded:
      task `d` reads exactly one block of each dependency producer, in producer order and each
      addressed to `d`; no producer is repeated; and all tasks together read every committed
      dependency block exactly once. */
  lemma ShuffleIsBijection(t: Trace, n: nat, k: StageKey)
    requires IsRun(t) && n < |t.states| && k in t.states[n].stages
    requires t.states[n].stages[k].plan.partitionedInput
    requires AllStagesDone(t.states[n], k.0, t.states[n].stages[k].plan.inputStages)
    ensures var s, plan := t.states[n], t.states[n].stages[k].plan;
      var tasks := DependencyTasks(s, k.0, plan.inputStages);
      && plan.queryId == k.0
      && (forall d: U32 | d < plan.partitionCount ::
            && Producers(InputBlocks(s, plan, d)) == tasks
            && forall i | 0 <= i < |tasks| :: InputBlocks(s, plan, d)[i].outputPartition == d)
      && Distinct(tasks)
      && ReadBy(DependencyBlocks(s, k.0, plan.inputStages), plan.partitionCount) ==
         multiset(DependencyBlocks(s, k.0, plan.inputStages))
  {
    RunInv(t, n);
    ShuffleRouting(t.states[n], k);
  }

  lemma ShuffleRouting(s: State, k: StageKey)
    requires Inv(s) && k in s.stages && s.stages[k].plan.partitionedInput
    requires AllStagesDone(s, k.0, s.stages[k].plan.inputStages)
    ensures var plan := s.stages[k].plan;
      var tasks := DependencyTasks(s, k.0, plan.inputStages);
      && plan.queryId == k.0
      && (forall d: U32 | d < plan.partitionCount ::
            && Producers(InputBlocks(s, plan, d)) == tasks
            && forall i | 0 <= i < |tasks| :: InputBlocks(s, plan, d)[i].outputPartition == d)
      && Distinct(tasks)
      && ReadBy(DependencyBlocks(s, k.0, plan.inputStages), plan.partitionCount) ==
         multiset(DependencyBlocks(s, k.0, plan.inputStages))
  {
    var plan := s.stages[k].plan;
    assert StageOk(s, k);
    assert forall i | 0 <= i < |plan.inputStages| :: plan.inputStages[i] in plan.inputStages;
    assert AllExchanged(s, k.0, plan.inputStages, plan.partitionCount);
    var tasks := DependencyTasks(s, k.0, plan.inputStages);
    forall d: U32 | d < plan.partitionCount
      ensures Producers(InputBlocks(s, plan, d)) == tasks
      ensures forall i | 0 <= i < |tasks| :: InputBlocks(s, plan, d)[i].outputPartition == d
    {
      DependencyRouting(s, k.0, plan.inputStages, plan.partitionCount, d);
      AddressedToKeeps(DependencyBlocks(s, k.0, plan.inputStages), d);
      assert |Producers(InputBlocks(s, plan, d))| == |InputBlocks(s, plan, d)|;
    }
    ProducersDistinct(s, k.0, plan.inputStages);
    DestinationsInRange(s, k.0, plan.inputStages, plan.partitionCount);
    EveryBlockRead(DependencyBlocks(s, k.0, plan.inputStages), plan.partitionCount);
  }
}
