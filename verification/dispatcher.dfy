/** The router's task for an Assigned event, from the first step to the last. */
module Dispatcher {
  import opened Ids
  import opened Lifecycle
  import opened Ownerships
  import opened Processors
  import opened RangeClosed
  import opened Schedules

  /** Every filter is initialised before the router starts. */
  method InitChain(job: Job)
    modifies job.inits
    ensures forall n: nat :: n < |job.chain| ==> n in job.inits.done
  {
    for n := 0 to |job.chain|
      invariant forall m: nat :: m < n ==> m in job.inits.done
    {
      job.inits.Init(n);
    }
  }

  /** Runs the chain for one grant on any schedule. `last` is where the machine of the
      Lifecycle module stands after the part of the schedule that has passed: the
      latches and the GrantMaps are as that machine has them, and so in order. */
  method Dispatch(job: Job, ownership: Ownership, schedule: seq<Event>, drainClock: Time,
                  ghost i: Incarnation)
    returns (finished: bool, ghost last: Held, ghost passed: nat)
    requires JustSpawned(i) && LatchesOf(ownership) == i.o && job.range.Latches() == i.r
    modifies ownership, job.range, job.chain, job.inits
    ensures passed <= |schedule|
    ensures last == Ran(job, Held(i, old(Contents(job.chain)), old(job.inits.done)), schedule[..passed])
    ensures LatchesOf(ownership) == last.inc.o && job.range.Latches() == last.inc.r
    ensures Contents(job.chain) == last.maps
    ensures if finished then last.inc.pc.Finished? else passed == |schedule|
    ensures ownership.load ==> job.range.initialized && (ownership.active || ownership.unloaded)
    ensures ownership.unload ==> job.range.drained && ownership.load && ownership.active && ownership.revoked
    ensures finished ==> job.range.closed || ownership.expired || ownership.requestRevoke
    ensures forall n: nat {:trigger schedule[..n]} | n <= passed ::
              var was := Ran(job, Held(i, old(Contents(job.chain)), old(job.inits.done)), schedule[..n]);
              ClosedInTime(was.inc) ==> !ownership.unload
  {
    var task := new Task(job, ownership, schedule, drainClock, i);
    finished := task.RunChain();
    last, passed := task.held, task.at;
    assert schedule[..passed] == schedule[..task.at];
    assert Contents(job.chain) == last.maps;
    EveryScheduleIsInOrder(job, task.start, schedule[..passed]);
    forall n: nat {:trigger schedule[..n]} | n <= passed && ClosedInTime(Ran(job, task.start, schedule[..n]).inc)
      ensures !ownership.unload
    {
      RanLater(job, task.start, schedule, n, passed);
    }
  }
}
