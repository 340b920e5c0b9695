/** The fields of the pool object and the code between its scheduling points. `world` is the whole
    pool, threads included; every method advances it by exactly one step. */
module TaskPoolObjects {
  import opened EventTypes
  import opened TaskPools
  import opened TaskPoolLaws

  class TaskPool {
    var tasks: seq<Task>
    var stop: bool
    var running: int
    const concurrency: nat
    ghost var world: Pool

    ghost predicate Valid()
      reads this
    {
      && Inv(world) && |world.workers| == concurrency
      && world.tasks == tasks && world.stop == stop && world.running == running
    }

    constructor (concurrency: nat, ghost clients: nat)
      ensures Valid() && this.concurrency == concurrency && world == Init(concurrency, clients)
    {
      tasks, stop, running := [], false, 0;
      this.concurrency := concurrency;
      world := Init(concurrency, clients);
      new;
      InitInv(concurrency, clients);
    }

    /** Advance the world by a step that touches no field. */
    ghost method Move(a: Action)
      requires Valid() && Enabled(world, a)
      requires !a.Push? && !a.ClearTasks? && !a.SetStop? && !a.Take? && !a.CountUp? && !a.CountDown?
      modifies this`world
      ensures Valid() && world == Apply(old(world), a)
    {
      StepKeeps(world, a);
      world := Apply(world, a);
    }

    /** `enqueue` inside its lock, before the notification. */
    method EmplaceBack(ghost c: nat, task: Task)
      requires Valid() && Enabled(world, Push(c)) && world.clients[c].task == task
      modifies this
      ensures Valid() && world == Apply(old(world), Push(c))
      ensures tasks == old(tasks) + [task] && stop == old(stop) && running == old(running)
    {
      tasks := tasks + [task];
      StepKeeps(world, Push(c));
      world := Apply(world, Push(c));
    }

    /** `clear_waiting_tasks` inside its lock: every waiting task is accounted as cleared. */
    method ClearWaitingTasks(ghost c: nat)
      requires Valid() && Enabled(world, ClearTasks(c))
      modifies this
      ensures Valid() && world == Apply(old(world), ClearTasks(c))
      ensures tasks == [] && stop == old(stop) && running == old(running)
      ensures |world.fates| == |world.enqueued|
    {
      tasks := [];
      StepKeeps(world, ClearTasks(c));
      world := Apply(world, ClearTasks(c));
    }

    /** The first line of `stop()`, which takes no lock. */
    method RaiseStop()
      requires Valid() && Enabled(world, SetStop)
      modifies this
      ensures Valid() && world == Apply(old(world), SetStop)
      ensures stop && tasks == old(tasks) && running == old(running)
    {
      stop := true;
      StepKeeps(world, SetStop);
      world := Apply(world, SetStop);
    }

    /** The wait predicate. */
    method HasWork(ghost w: nat) returns (ready: bool)
      requires Valid() && Enabled(world, Check(w))
      modifies this`world
      ensures Valid() && world == Apply(old(world), Check(w))
      ensures ready <==> world.workers[w].Taking?
    {
      ready := tasks != [] || stop;
      Move(Check(w));
    }

    /** The end of `wait_for_new_task`: an empty deque yields the empty callable, and then stop_ is
        set, so the worker that gets it always leaves its loop. */
    method TakeTask(ghost w: nat) returns (task: Option<Task>)
      requires Valid() && Enabled(world, Take(w))
      modifies this
      ensures Valid() && world == Apply(old(world), Take(w))
      ensures task == if old(tasks) == [] then None else Some(old(tasks)[0])
      ensures task.None? ==> stop && tasks == []
      ensures task.Some? ==> old(tasks) == [task.value] + tasks
      ensures task.Some? ==>
                && Carried(world.workers[w]).Some?
                && world.enqueued[Carried(world.workers[w]).value] == task.value
    {
      if tasks == [] {
        task := None;
      } else {
        task := Some(tasks[0]);
        tasks := tasks[1..];
      }
      StepKeeps(world, Take(w));
      world := Apply(world, Take(w));
    }

    /** The worker's counter around its task: never above the worker count, never below zero. */
    method BeginTask(ghost w: nat)
      requires Valid() && Enabled(world, CountUp(w))
      modifies this
      ensures Valid() && world == Apply(old(world), CountUp(w))
      ensures running == old(running) + 1 && 0 < running <= concurrency && tasks == old(tasks) && stop == old(stop)
    {
      running := running + 1;
      StepKeeps(world, CountUp(w));
      world := Apply(world, CountUp(w));
      CountAtMost(world.workers);
    }

    method EndTask(ghost w: nat)
      requires Valid() && Enabled(world, CountDown(w))
      modifies this
      ensures Valid() && world == Apply(old(world), CountDown(w))
      ensures running == old(running) - 1 && 0 <= running < concurrency && tasks == old(tasks) && stop == old(stop)
    {
      running := running - 1;
      CountAtMost(world.workers);
      StepKeeps(world, CountDown(w));
      world := Apply(world, CountDown(w));
    }
  }
}
