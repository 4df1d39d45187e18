/** The task manager's server object and its three coupled maps. */
module TaskManagers {
  import opened Bags

  datatype Event = Event(id: int, kind: int, data: string)

  datatype Location = Location(manager: int, taskId: string)

  const NO_TASK := "none"

  class TaskManager {
    var queueMap: map<string, seq<Event>>
    var executorStop: set<string>
    var executorDestination: map<string, Location>
    var spawned: seq<(string, Location)>    // executors handed to the pool, with their origin
    var stopped: seq<string>                // stop signals that were set

    /** Every task with a queue has a stop signal. */
    predicate Coupled()
      reads this
    {
      queueMap.Keys <= executorStop
    }

    constructor ()
      ensures Coupled() && queueMap == map[] && executorStop == {} && executorDestination == map[]
      ensures spawned == [] && stopped == []
    {
      queueMap, executorStop, executorDestination, spawned, stopped := map[], {}, map[], [], [];
    }

    method GetTask(taskId: string) returns (found: bool, event: Event)
      modifies this`queueMap
      ensures found == (ListAt(old(queueMap), taskId) != [])
      ensures found ==> event == ListAt(old(queueMap), taskId)[0]
      ensures queueMap == if found then old(queueMap)[taskId := ListAt(old(queueMap), taskId)[1..]] else old(queueMap)
      ensures old(Coupled()) ==> Coupled()
    {
      found, event := false, Event(0, 0, "");
      if taskId in queueMap && queueMap[taskId] != [] {
        found, event := true, queueMap[taskId][0];
        queueMap := queueMap[taskId := queueMap[taskId][1..]];
      }
    }

    /** The first event for a task creates its queue and spawns its executor. */
    method PutTask(taskId: string, event: Event, manager: int)
      modifies this
      ensures queueMap == old(queueMap)[taskId := ListAt(old(queueMap), taskId) + [event]]
      ensures executorStop == if taskId in old(queueMap) then old(executorStop) else old(executorStop) + {taskId}
      ensures spawned == if taskId in old(queueMap) then old(spawned)
                         else old(spawned) + [(taskId, Location(manager, taskId))]
      ensures executorDestination == old(executorDestination) && stopped == old(stopped)
      ensures old(Coupled()) ==> Coupled()
    {
      if taskId !in queueMap {
        queueMap := queueMap[taskId := []];
        SpawnTask(taskId, Location(manager, taskId), Location(0, NO_TASK));
      }
      queueMap := queueMap[taskId := queueMap[taskId] + [event]];
    }

    /** An existing destination or stop signal is kept. */
    method SpawnTask(taskId: string, origin: Location, destination: Location)
      modifies this`executorDestination, this`spawned, this`executorStop
      ensures executorStop == old(executorStop) + {taskId} && spawned == old(spawned) + [(taskId, origin)]
      ensures executorDestination ==
              if destination.taskId == NO_TASK || taskId in old(executorDestination) then old(executorDestination)
              else old(executorDestination)[taskId := destination]
      ensures old(Coupled()) ==> Coupled()
    {
      if destination.taskId != NO_TASK && taskId !in executorDestination {
        executorDestination := executorDestination[taskId := destination];
      }
      spawned := spawned + [(taskId, origin)];
      executorStop := executorStop + {taskId};
    }

    /** Fails, changing nothing, if the task has no stop signal. */
    method DestroyTask(taskId: string) returns (ok: bool)
      modifies this
      ensures ok == (taskId in old(executorStop))
      ensures executorStop == old(executorStop) - {taskId}
      ensures queueMap == if ok then old(queueMap) - {taskId} else old(queueMap)
      ensures executorDestination == if ok then old(executorDestination) - {taskId} else old(executorDestination)
      ensures stopped == if ok then old(stopped) + [taskId] else old(stopped)
      ensures spawned == old(spawned)
      ensures old(Coupled()) ==> Coupled()
    {
      ok := taskId in executorStop;
      if ok {
        stopped := stopped + [taskId];
        executorStop := executorStop - {taskId};
        queueMap := queueMap - {taskId};
        executorDestination := executorDestination - {taskId};
      }
    }

    method UpdateDestination(taskId: string, destination: Location)
      modifies this`executorDestination
      ensures executorDestination == old(executorDestination)[taskId := destination]
    {
      executorDestination := executorDestination[taskId := destination];
    }

    /** Destroys tasks until no stop signal is left: each once, and with them all queues. */
    method TerminateTaskManager()
      requires Coupled()
      modifies this
      ensures executorStop == {} && queueMap == map[]
      ensures executorDestination == old(executorDestination) - old(executorStop)
      ensures |stopped| == |old(stopped)| + |old(executorStop)|
      ensures forall t :: t in old(executorStop) ==> t in stopped[|old(stopped)|..]
    {
      ghost var signalled: seq<string> := [];
      while executorStop != {}
        invariant Coupled() && executorStop <= old(executorStop)
        invariant executorDestination == old(executorDestination) - (old(executorStop) - executorStop)
        invariant stopped == old(stopped) + signalled && |signalled| + |executorStop| == |old(executorStop)|
        invariant forall t :: t in old(executorStop) ==> t in executorStop || t in signalled
        decreases executorStop
      {
        var taskId :| taskId in executorStop;
        var ok := DestroyTask(taskId);
        signalled := signalled + [taskId];
      }
      assert stopped[|old(stopped)|..] == signalled;
    }

    /** The loop as it is written: the iterator is never moved, so after the first
        DestroyTask it points to an erased entry.  `sound` says that no erased entry
        is used; the run is cut off where one would be. */
    method TerminateAsWritten() returns (sound: bool)
      modifies this
      ensures sound <==> old(executorStop) == {}
      ensures sound ==> executorStop == old(executorStop) && queueMap == old(queueMap) &&
                        executorDestination == old(executorDestination) && stopped == old(stopped)
      ensures !sound ==> |stopped| == |old(stopped)| + 1 && stopped[|old(stopped)|] in old(executorStop) &&
                         executorStop == old(executorStop) - {stopped[|old(stopped)|]}
    {
      sound := true;
      if executorStop != {} {
        var it :| it in executorStop;
        while sound
          invariant sound ==> it in executorStop && executorStop == old(executorStop) && stopped == old(stopped)
          invariant !sound ==> stopped == old(stopped) + [it] && it in old(executorStop)
          invariant !sound ==> executorStop == old(executorStop) - {it}
          decreases executorStop, sound
        {
          var ok := DestroyTask(it);
          sound := it in executorStop;
        }
      }
    }
  }
}
