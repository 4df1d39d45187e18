# Rhea: a verified model of the parcel pipeline, the byte-flow regulator and the task network

Rhea moves parcels between clients and storage. A client publishes a parcel into a
warehouse and a queue; source and sink tasks carry it through a temporary file to its
place in a file. A subscription takes the way back. This project models that pipeline,
the regulator that watches its rates, and the older task network, and proves properties
over all runs. `dafny verify dfyconfig.toml` checks everything.

## How the model is built

**The pipeline** (`Pipeline.dfy`). One labelled transition system covers the write job
and the read job. Every access to shared state is a step of its own. Publish is three steps
(warehouse put, queue push, QUEUED put), any of which may be refused; a write source takes
five on a parcel, a write sink four and a take. A Subscribe is its queue push, the poll
that finds DONE, the erase of the status, the warehouse read and the warehouse erase; an
AsyncSubscribe is the push, and GetSubscribedData, which does not wait, may follow at any
time. WaitAll polls and erases parcel by parcel, on published and subscribed parcels
alike. Any number of clients, sources and sinks interleave, over any number of parcels,
files and queues; the sources and the sinks are fixed finite pools, and a write parcel
goes to the sink that the key-by routing gives its file, where it gives one.

A step's guard asks which place holds the parcel (`held`), for its program counter and
for the status map. `at`, `fetched` and `stored` are history. `at` is read by the guards of
BeginPublish, Ask and AskAsync alone: these say that a client uses a parcel once, and the
assumption about file names and offsets below. Of `mark` the guards read only whether the
QUEUED put is pending, which is the program counter of a Publish call; its other values
remember how that went. That the places and the history agree is part of the invariant.

- `PipelineFrame.dfy`, `PipelineLocal.dfy` and `PipelineInv.dfy` hold the inductive
  invariant: what one parcel looks like at each place and program counter, and what the
  parcels have to do with one another.
- `PipelineSafety.dfy`, `PipelineProgress.dfy`, `PipelineStatus.dfy`, `PipelineWaits.dfy`
  and `PipelineTheorems.dfy` hold the results; `PipelineRuns.dfy` shows that the runs they
  speak of exist: publications beside one another, refusals, subscriptions that return.
- `RheaClient.dfy` and `RheaJob.dfy` are the client library and the task bodies as classes
  whose methods update the shared maps and files in place, with the loops of the source.
  `PipelineTasks.dfy` proves that the steps of a task on one parcel, not interrupted, do
  exactly what the method does.
- `DirectWrite.dfy` is the job that writes directly (IOF), with one queue and one source on
  each of any number of servers, its agreement with the task method, and its comparison
  with the two-stage job; `Drain.dfy` the queue drain with several collectors,
  `TempNames.dfy` and `Parcels.dfy` the names and the byte-range file store, `TaskDag.dfy`
  the wire format.

**The regulator** (`Regulator.dfy`): the 32-, 64- and 16-bit arithmetic of a request, the
server object with its decision loop, and a transition system in which the loop's reads
interleave with the map writes of clients.

**The task network**: the task manager's maps (`TaskManager.dfy`), executors and managers
passing events (`EventNetwork.dfy`), the choice of a destination (`JobManager.dfy`).

## What the pipeline results rest on

- Parcels are the same map key exactly if `id_` and `unique_id` agree
  (`data_structures.h:23-25`), and `unique_id` is fresh: `ValidPlan` has no two parcels with
  one key.
- No two published parcels that share `id_` and `position_` are under way together
  (`Allows`, case `BeginPublish`): they would share one temporary file.
  `RheaJob.SharedTempLosesPayload` shows what can happen otherwise: if both are parked
  before a sink takes either, the payload that is picked up second survives if and only
  if it is all zeros.
- No planned file is one of the temporary files. The temporary files lie on the same
  device as storage index 0, which is the least favourable case.
- A payload has the announced `data_size_`. The I/O clients write and read `data_size_`
  bytes at `position_`; a gap in a file and a read past its end give zeros, since the
  buffers are zero before the read (`rhea_job.h:175-176` and `204-205`).
- WaitAll is called for parcels of the plan, published or subscribed, by anyone and at any
  time. A subscription is answered by its own client, not by a GetSubscribedData of another.
- For the progress results, every queue that holds a parcel has a source task and every
  parcel taken on has a sink task that may take it, under any routing by file name
  (`Staffed`); one source per queue and one sink per job or route are enough.

## What the proofs say about the code

- Publish puts QUEUED after the queue push, so the tasks can overtake it. If the put comes
  after the sink's DONE, the status stays QUEUED for ever and no Wait on the parcel
  returns, although Publish reported success; otherwise a Wait that begins later can
  still return (`PipelineTheorems.WaitCanReturnUnlessLate`, if and only if). From every start with one
  source and one write sink every planned write has such an unlucky run
  (`PipelineTheorems.PublishCanBeStuck`).
- A status is consumed by the first Wait that sees it. A Wait after Subscribe has returned
  never returns (`PipelineWaits.WaitAfterSubscribeNeverReturns`), and
  `test/integration/single_write/test.cpp:34-35` makes such a call.
- `AlterNodes` divides a negative int by an unsigned 64-bit step, so shrinking does not
  mirror growing. `RegulatorArithmetic.ShrinkAsSigned` gives, for every step, the exact
  condition for the request to be what the signed division would give. With a power of two
  up to 2^48 the sign is right but a remainder is rounded away from zero: growing by a
  difference of 5 with step 4 asks for 1 node, shrinking for -2. With the default step 5
  (`configuration_manager.h:80`) no shrink request is right: 13107 is added, and for
  differences up to 65531 the request asks for more nodes.
- The decision compares a difference cast to int, so rates at least 2^31 apart are
  misjudged: `RegulatorArithmetic.FiresAsIntended` says exactly when. The results about
  requests speak of the difference as the code sees it and so cover these rates too.
- `CalculateRate` locks `in_mutex` twice and never `out_mutex` (`server.cpp:85-86`), so an
  out rate can change between any two steps of the loop; `RegulatorRuns` allows that.
- `amount` in `GetWriteParsel` and `GetReadParsel` is never lowered, so a drain ends only
  with an empty queue (`rhea.cpp:74` and `86`).
- `TerminateTaskManager` never moves its iterator, and DestroyTask erases the entry it
  points to (`old/TaskManager/src/server/Server.cpp:26-29`); inside DestroyTask the key is
  a reference into that entry too. As written it is sound if and only if there is nothing
  to terminate (`TaskManagers.TaskManager.TerminateAsWritten`). The evident intention,
  destroy until no stop signal is left, is `TerminateTaskManager` in the model.

## Model

| member | source | states |
|---|---|---|
| PipelineSafety.OneHolder | rhea_job/include/rhea_job/common/rhea_job.h:29-50 | in every state of every run a parcel is held by no place, or once by exactly one: publisher, queue, batch, source loop, emitted, sink, finished |
| PipelineSafety.PayloadInCustody | rhea_job/include/rhea_job/common/rhea_job.h:37-48 | until it lands, the exact payload can be had from where the parcel's stage says (caller, warehouse, temporary file, sink buffer), and after that the parcel is among the landed |
| PipelineTheorems.EveryStepRefines | rhea_job/include/rhea_job/common/rhea_job.h:167-186 | the two-stage write refines atomic range writes: one step lands a payload, whole and for the first time, no other step changes storage |
| PipelineSafety.FinalStorage | rhea_job/include/rhea_job/common/rhea_job.h:34-48 | at rest, with disjoint ranges, storage is the initial storage with all payloads at their offsets, in any order; no temporary file is left and the warehouse holds only payloads whose push was refused |
| PipelineSafety.LandedBytes | rhea_job/include/rhea_job/common/rhea_job.h:181-183 | in every reachable state a byte of any file that is not a temporary one is the payload byte of the last landed parcel of that device and file name whose range touches it, and the initial byte if there is none |
| PipelineSafety.FinalBytes | rhea_job/include/rhea_job/common/rhea_job.h:181-183 | at rest, with disjoint ranges, byte `position_` + k of the file named `id_` on device `storage_index_` is byte k of the payload |
| PipelineSafety.OtherBytesStay | rhea_job/include/rhea_job/common/rhea_job.h:181-183 | at rest, every byte that no finished parcel of its file covers is as it was at the start |
| PipelineSafety.PublishThenSubscribe | src/rhea/lib/rhea.cpp:42-68 | after Wait returned for a published parcel, a subscription to a part of its range answers with the published bytes in every continuation, provided no write that lands between that parcel and the moment the read sink reads overlaps the range; later writes, and writes that never land, are free |
| PipelineRuns.SubscribeCanReturn | src/rhea/lib/rhea.cpp:42-51 | from every reachable state a fresh subscription has a run in which Subscribe returns with exactly the bytes that the sink read, leaving neither warehouse entry nor status |
| PipelineRuns.AsyncCanReturn | src/rhea/lib/rhea.cpp:53-68 | likewise AsyncSubscribe and GetSubscribedData, which leave the status DONE |
| PipelineRuns.FitPlan | include/rhea/common/data_structures.h:23-25 | what a run relies on, in names, offsets, unique ids and sizes |
| PipelineRuns.AnyStart | rhea_job/include/rhea_job/common/rhea_job.h:29-30 | the runs start from any contents of the maps under other keys, any files and any pools of tasks |
| PipelineRuns.AnySink | rhea_job/include/rhea_job/common/rhea_job.h:140-157 | a sink of the parcel's job will do for it unless the routing of its file names another |
| PipelineSafety.WaitedIsFinished | rhea_job/include/rhea_job/common/rhea_job.h:183-185 | when a Wait erases a status, a published parcel is in storage and for a subscribed one the bytes have been read |
| PipelineSafety.CoveredBytes | rhea_job/include/rhea_job/common/rhea_job.h:209-212 | a read finds the payload of the last landed write that overlaps its range, if that write covers it |
| PipelineSafety.CoveringByte | rhea_job/include/rhea_job/common/rhea_job.h:209 | byte k of that read is the payload byte that the write has at the same offset of the file |
| PipelineInv.InvRun | rhea_job/include/rhea_job/common/rhea_job.h:26-52 | every interleaving keeps the invariant: custody, local order of every parcel, temporary files, storage, tasks one parcel at a time |
| PipelineInv.MoveKeepsCustody | rhea_job/include/rhea_job/common/rhea_job.h:48 | handing a parcel on keeps it held exactly once |
| PipelineInv.TempFilesStep | rhea_job/include/rhea_job/common/rhea_job.h:179-180 | a temporary file whose parcel has left it exists only for a later parcel of that name and offset |
| PipelineLocal.WriteStep | rhea_job/include/rhea_job/common/rhea_job.h:37-46 | each step of a publishing parcel keeps its payload in the place its program counter implies, and its status consistent with the puts made |
| PipelineLocal.ReadStep | rhea_job/include/rhea_job/common/rhea_job.h:201-213 | each step of a subscribed parcel hands on the bytes the sink read, unchanged |
| PipelineTheorems.StatusesGoForward | src/rhea/lib/rhea.cpp:36-38 | statuses go absent, QUEUED, IN_PROGRESS, DONE, erased; a step back is exactly a QUEUED put after the IN_PROGRESS put; subscriptions never step back |
| PipelineTheorems.WaitCanReturnUnlessLate | src/rhea/lib/rhea.cpp:36-38 | after the QUEUED put a Wait on the parcel that has not begun yet returns in some run if and only if the sink had not finished the parcel before the put |
| PipelineStatus.LateQueuedStays | src/rhea/lib/rhea.cpp:125-139 | a late QUEUED put stays in every continuation and no Wait on the parcel returns |
| PipelineTheorems.LateCaseIsReachable | src/rhea/lib/rhea.cpp:36-38 | whenever the QUEUED put is outstanding on an unfinished parcel, the tasks alone can make it late, and then it stays and no Wait returns |
| PipelineStatus.PublishUpToMark | src/rhea/lib/rhea.cpp:34-36 | every parcel that may be published can be brought to the state in which only the QUEUED put is outstanding, nothing else having moved |
| PipelineRuns.PublishRun | src/rhea/lib/rhea.cpp:30-40 | Publish, not interrupted, from any state in which it may begin: the payload under its key in the warehouse, the parcel last in the queue of its server, status QUEUED, all files as they were |
| PipelineRuns.CanPublishBeside | src/rhea/lib/rhea.cpp:30-40 | a parcel may be published while others are under way that differ in name or offset |
| PipelineRuns.PutsCanBeRefused | src/rhea/lib/rhea.cpp:34-38 | the warehouse put, the push and the QUEUED put may each be refused, and then the shared maps and the files stay |
| PipelineRuns.PopsHead | src/rhea/lib/rhea.cpp:74-78 | a pop takes the head of the queue to the end of the batch and moves nothing else |
| PipelineRuns.StartsHead | rhea_job/include/rhea_job/common/rhea_job.h:34 | a source takes up its batch from the front |
| PipelineTheorems.PublishCanBeStuck | src/rhea/lib/rhea.cpp:36-38 | from every start with a source for the queue and a write sink, every planned write has a run in which Publish returns success and no Wait on the parcel ever returns |
| PipelineWaits.WaitAllReturns | src/rhea/lib/rhea.cpp:118-139 | when WaitAll ends, under any interleaving and for published and subscribed parcels: each poll read DONE from the map, one per parcel in order; each parcel is stored or read; the statuses of those whose Publish call was over are gone for good; the call took no other key out of the map, and exactly these unless another call took one first |
| PipelineWaits.CallCanEnd | src/rhea/lib/rhea.cpp:118-139 | in every reachable state a WaitAll call whose remaining parcels are distinct and all DONE has a run of its own steps alone that gets it through the list, erases exactly these statuses in order and lets it end |
| PipelineWaits.WaitAllCanReturn | src/rhea/lib/rhea.cpp:118-139 | a WaitAll that begins on distinct parcels that are all DONE can run to its return, whatever their number |
| PipelineWaits.NeverErases | src/rhea/lib/rhea.cpp:130-136 | once the sink is done and the status is not DONE, a call that has not seen the parcel DONE erases it in no continuation |
| PipelineWaits.SecondWaitNeverReturns | src/rhea/lib/rhea.cpp:133-135 | once a Wait has consumed the status of a published or subscribed parcel, no later Wait on it returns, Publish over or not, unless another call is already past its poll; once Publish is over the status stays absent |
| PipelineWaits.WaitAfterSubscribeNeverReturns | src/rhea/lib/rhea.cpp:42-51 | after Subscribe has returned for a parcel, its status stays absent and no Wait on it returns |
| PipelineTheorems.TaskWorkIsBounded | rhea_job/include/rhea_job/common/rhea_job.h:29-50 | the tasks take at most 12 steps for each parcel that joined a queue, in every run |
| PipelineProgress.RankStep | rhea_job/include/rhea_job/common/rhea_job.h:76-87 | every step of a source or sink lowers the sum of remaining stages, an arrival adds 12, no other step changes it |
| PipelineProgress.SomeTaskCanStep | rhea_job/include/rhea_job/common/rhea_job.h:82-86 | while a parcel is on its way some source or sink can step, under any routing of files to sinks; one source per queue in use and one sink for each parcel to go to suffice |
| PipelineTheorems.RestingRunsAreDone | rhea_job/include/rhea_job/common/rhea_job.h:167-213 | where no source and no sink of the fixed pools can step, no parcel is on its way; a published one is stored with status DONE or consumed, unless its QUEUED put came late; for a subscribed one the status is DONE or consumed and the bytes read wait in the warehouse or have been handed out |
| PipelineProgress.TasksCanFinish | rhea_job/include/rhea_job/common/rhea_job.h:29-50 | from every reachable state the tasks of the fixed pools alone, each parcel at its routed sink, can bring all parcels to their end |
| PipelineTasks.WriteSourceRun | rhea_job/include/rhea_job/common/rhea_job.h:34-49 | the write source's steps on one parcel, not interrupted, are a run and change the shared state as the method does |
| PipelineTasks.SourceEndRun | rhea_job/include/rhea_job/common/rhea_job.h:82-86 | likewise the read source's two steps |
| PipelineTasks.WriteSinkRun | rhea_job/include/rhea_job/common/rhea_job.h:167-186 | likewise the write sink's steps |
| PipelineTasks.ReadSinkRun | rhea_job/include/rhea_job/common/rhea_job.h:201-213 | likewise the read sink's steps |
| RheaJob.Tasks.WriteSourceTurn | rhea_job/include/rhea_job/common/rhea_job.h:30-49 | one turn drains its queue, and no other, and handles the parcels in order, emitting each once |
| RheaJob.Tasks.WriteSinkRun | rhea_job/include/rhea_job/common/rhea_job.h:167-186 | the sink moves the parked payload to its offset, removes the temporary file and sets DONE |
| RheaJob.Tasks.DirectSourceTurn | rhea_job/include/rhea_job/common/rhea_job.h:110-129 | one turn of the direct-write source writes the drained parcels in order |
| RheaJob.Tasks.ReadSourceTurn | rhea_job/include/rhea_job/common/rhea_job.h:77-86 | one turn of the read source marks the drained parcels IN_PROGRESS in order |
| RheaJob.Tasks.ReadSinkRun | rhea_job/include/rhea_job/common/rhea_job.h:201-213 | the sink puts what storage holds in the range into the warehouse and sets DONE |
| RheaJob.WriteBatch | rhea_job/include/rhea_job/common/rhea_job.h:34-48 | after a turn of the write source over parcels with distinct keys and temporary names, each temporary file reads back the payload its parcel had in the warehouse, exactly these keys have left the warehouse and exactly these statuses are IN_PROGRESS; no other file changes |
| RheaJob.DirectBatch | rhea_job/include/rhea_job/common/rhea_job.h:116-128 | after a turn of the direct source over parcels with distinct keys, the files are all payloads written in queue order, exactly these keys have left the warehouse and exactly these statuses are DONE |
| RheaJob.ReadBatch | rhea_job/include/rhea_job/common/rhea_job.h:82-86 | after a turn of the read source exactly the queued keys are IN_PROGRESS, nothing else changes |
| RheaJob.SinkWritesRange | rhea_job/include/rhea_job/common/rhea_job.h:172-183 | for every file but the temporary one and every byte of it: bytes `position_` to `position_` + `data_size_` of the file named `id_` on device `storage_index_` come from the temporary file, all others stay; the temporary file is gone unless it has that very name |
| RheaJob.DirectWritesRange | rhea_job/include/rhea_job/common/rhea_job.h:116-124 | likewise the direct source, with the payload |
| RheaJob.ReadSinkReadsRange | rhea_job/include/rhea_job/common/rhea_job.h:203-211 | the read sink puts exactly the bytes of that range into the warehouse and changes no file |
| RheaJob.TwoStagesAreOneWrite | rhea_job/include/rhea_job/common/rhea_job.h:37-47 | source then sink equals the direct-write source on the same parcel, without a trace of the temporary file |
| RheaJob.WriteThenRead | rhea_job/include/rhea_job/common/rhea_job.h:209-212 | write source, write sink, read source, read sink deliver the published bytes of the range |
| RheaJob.SharedTempLosesPayload | rhea_job/include/rhea_job/common/rhea_job.h:39-40 | two parcels with one name and offset, both parked before a sink takes either: the payload whose sink runs second, in either order, survives if and only if it is all zeros |
| DirectWrite.StorageIsPushOrder | rhea_job/include/rhea_job/common/rhea_job.h:107-132 | with any number of servers, in every interleaving with publishers: storage is the writes landed so far, each parcel once, of each server a prefix of its queue's pushes in push order, overlapping or not; at rest of all pushes |
| DirectTasks.TurnRun | rhea_job/include/rhea_job/common/rhea_job.h:110-129 | a source of the direct-write job that is not interrupted pops its queue empty and handles every parcel as its turn does, ending where it began |
| DirectTasks.HandleRun | rhea_job/include/rhea_job/common/rhea_job.h:116-126 | its four steps on one parcel are a run and do what the handler does |
| DirectTasks.PublishRun | src/rhea/lib/rhea.cpp:30-40 | the three steps of a publication in the direct-write job are a run: payload, queue, status QUEUED |
| DirectWrite.AnyMergeWillDo | rhea_job/include/rhea_job/common/rhea_job.h:109-129 | at rest, if parcels of different servers do not overlap, storage is what any order gives that keeps each queue's push order, overlaps within a queue allowed; with one queue, the push order |
| DirectWrite.ServerOrderDecides | rhea_job/include/rhea_job/common/rhea_job.h:124 | two orders of writes that agree on each server's parcels give the same files if parcels of different servers do not overlap |
| JobsAgree.SameStorage | rhea_job/include/rhea_job/common/rhea_job.h:107-132 | on disjoint ranges both write jobs, with any number of servers each, leave the same storage, for every interleaving of either and every spread of the parcels over the queues |
| RheaClient.Client.Publish | src/rhea/lib/rhea.cpp:30-40 | the three puts in order, up to the first that is refused; success exactly if none is |
| RheaClient.Client.GetSubscribedData | src/rhea/lib/rhea.cpp:60-68 | hands out the bytes and takes them from the warehouse, or reports that there are none |
| RheaClient.Client.GetWriteParsel | src/rhea/lib/rhea.cpp:70-80 | without concurrent pushes: the whole queue, in order, leaving it empty; the loop ends |
| RheaClient.Client.GetReadParsel | src/rhea/lib/rhea.cpp:82-92 | likewise for the read queue |
| RheaClient.Client.PollOnce | src/rhea/lib/rhea.cpp:130-136 | one round of Wait: erases the status exactly if it is DONE |
| RheaClient.AmountPositive | src/rhea/lib/rhea.cpp:71-72 | the drain target is positive exactly if the queue is not empty |
| Drain.DrainIsLossless | src/rhea/lib/rhea.cpp:74-78 | with several collectors and concurrent pushes: popped, then queued, is pushed, in order; each collector's batches are its own pops in queue order |
| Drain.CollectorsPartition | src/rhea/lib/rhea.cpp:74-78 | in every run each pushed parcel is still queued or in the hands of one collector, as often as it was pushed; what a collector has got is a subsequence of the pushes |
| Drain.DrainsAll | src/rhea/lib/rhea.cpp:70-80 | from every state a collector that is not interrupted can drain the whole queue and return it in order, other collectors keeping theirs |
| TempNames.TempNameInjective | rhea_job/include/rhea_job/common/rhea_job.h:39 | two temporary names are equal if and only if file name and offset are, for arbitrary file names |
| TempNames.DecimalReadsBack | rhea_job/include/rhea_job/common/rhea_job.h:172 | the decimal print of an offset consists of digits, has no leading zero and gives the offset back |
| FileStore.OrderIrrelevant | rhea_job/include/rhea_job/common/rhea_job.h:183 | disjoint range writes give the same files in any order |
| FileStore.RangeSurvives | rhea_job/include/rhea_job/common/rhea_job.h:183 | a written range keeps its bytes under all later writes apart from it |
| FileStore.OverwritesCommute | rhea_job/include/rhea_job/common/rhea_job.h:124 | two disjoint writes to one file commute, gaps included |
| Parcels.KeysAndFiles | include/rhea/common/data_structures.h:23-25 | two parcels have one key exactly if `id_` and `unique_id` agree, and one file exactly if `storage_index_` and `id_` agree |
| FileStore.ApartMeans | rhea_job/include/rhea_job/common/rhea_job.h:183 | two parcels are apart exactly if no byte of any file lies in the ranges of both |
| FileStore.InsideMeans | rhea_job/include/rhea_job/common/rhea_job.h:209 | a range that is not empty is inside another exactly if every byte of any file that the one touches the other touches |
| FileStore.WriteByte | rhea_job/include/rhea_job/common/rhea_job.h:181-183 | a range write gives the bytes of the range the payload and leaves every other byte of every file |
| TaskDag.TaskRoundTrip | rhea_job/include/rhea_job/common/rhea_job.h:311-333 | parsing any stream that begins with a packed task tree, null links included, gives the tree back and leaves the rest untouched |
| TaskDag.PackIsEncode | rhea_job/include/rhea_job/common/rhea_job.h:322-347 | the stream that pack emits is the encoding of the object tree that object_with_zone builds |
| TaskDag.PackIsPrefixFree | rhea_job/include/rhea_job/common/rhea_job.h:322-333 | no stream begins with two different packed trees |
| TaskDag.ParcelRoundTrip | include/rhea/common/data_structures.h:60-84 | a packed parcel comes back with its five fields, the rest of the stream untouched |
| TaskDag.ParcelFields | include/rhea/common/data_structures.h:60-84 | a packed parcel is an array of five: name, offset, size, storage index, unique id, in this order, and any object converted to a parcel has them there |
| TaskDag.TaskFields | rhea_job/include/rhea_job/common/rhea_job.h:311-333 | a packed task is an array of four: job, id, kind as 0, 1 or 2, links, in this order, and any object converted to a task has them there |
| RegulatorArithmetic.ShrinkAsSigned | src/rhea/byte_flow_regulator/server.cpp:61-63 | for every step, a shrink request is what the signed division would give, the mirror image of growing, exactly when the stated condition on 2^64 and the step holds |
| RegulatorArithmetic.ShrinkAsSignedByPowerOfTwo | src/rhea/byte_flow_regulator/server.cpp:61-63 | for steps 2^k, k up to 48, it is so exactly when the difference is a multiple of the step and the quotient fits |
| RegulatorArithmetic.ShrinkExact | src/rhea/byte_flow_regulator/server.cpp:61-63 | for every step, a shrink request is minus the steps needed, rounded up, exactly when the stated condition on 2^64 and the step holds |
| RegulatorArithmetic.CeilMeans | src/rhea/byte_flow_regulator/server.cpp:61-63 | what rounding up is: the least number of steps that reaches the difference |
| RegulatorArithmetic.ShrinkByPowerOfTwo | src/rhea/byte_flow_regulator/server.cpp:61-63 | for steps 2^k, k up to 48, the request is minus the steps rounded up, exactly when it fits 16 bits |
| RegulatorArithmetic.ShrinkByDefaultStep | include/rhea/common/configuration_manager.h:80 | with step 5 every shrink request is off by 13107: equal neither to the signed quotient nor to the rounded-up one, and positive for differences up to 65531 |
| RegulatorArithmetic.GrowExact | src/rhea/byte_flow_regulator/server.cpp:61-63 | a grow request is the whole steps in the difference beyond half the band, exactly when that fits 16 bits |
| RegulatorArithmetic.FiresAsIntended | src/rhea/byte_flow_regulator/server.cpp:91-92 | the decision agrees with the distance of the rates exactly when the 32-bit cast does no harm |
| RegulatorArithmetic.FiringIsBeyond | src/rhea/byte_flow_regulator/server.cpp:92-93 | every pair of rates that the loop passes on meets what the results about requests ask for |
| RegulatorArithmetic.BeyondMeans | src/rhea/byte_flow_regulator/server.cpp:61-63 | the difference that a request is taken from is the distance of the rates less half the band; from 2^31 on the distance wraps to its complement to 2^32 |
| RegulatorArithmetic.GrowRequest | src/rhea/byte_flow_regulator/server.cpp:61-63 | in the rates alone: with out at most in, the request is the distance less half the band, divided by the step, exactly if that is below 2^15; likewise for wrapped distances |
| RegulatorArithmetic.ShrinkRequest | src/rhea/byte_flow_regulator/server.cpp:61-63 | in the rates alone: with in below out, the request is minus that quotient exactly under the stated condition on 2^64 and the step |
| RegulatorArithmetic.FiresMeans | src/rhea/byte_flow_regulator/server.cpp:91-92 | in the rates alone: the decision is that both are nonzero and their distance, wrapped from 2^31 on, is at least the variation |
| RegulatorServer.Server.CalculateRate | src/rhea/byte_flow_regulator/server.cpp:76-97 | one undisturbed pass makes no request for a job whose in rate or out rate is 0, one for each other job whose distance of rates, if below 2^31, is at least the variation, and none if it is less; it changes no rate and adds only zero out rates |
| RegulatorServer.AsksMeans | src/rhea/byte_flow_regulator/server.cpp:84-92 | a job calls for a request exactly if both its rates are known and nonzero and their distance, wrapped from 2^31 on, is at least the variation |
| RegulatorRuns.FinalizedJobGoesQuiet | src/rhea/byte_flow_regulator/server.cpp:24-32 | after FinalizeJob, with any rate calls between its two writes and any later in rates, but no later out rate, at most one request is made for the job, and only if both rates had been read before the second write |
| RegulatorRuns.QuietJob | src/rhea/byte_flow_regulator/server.cpp:84-94 | a job whose out rate is and stays zero gets no request but the one already decided, whatever in rates are set |
| RegulatorRuns.QuietInJob | src/rhea/byte_flow_regulator/server.cpp:84-94 | a job whose in rate is and stays zero gets no request but the one that the loop has already read rates for |
| RegulatorRuns.UndisturbedPass | src/rhea/byte_flow_regulator/server.cpp:76-97 | the loop's steps without interference make exactly one request for each job whose rates call for one and none for others, in whatever order the jobs come |
| RegulatorRuns.SnapshotStaysKnown | src/rhea/byte_flow_regulator/server.cpp:77-88 | no job is lost between the snapshot and its reads; the loop adds no in rate |
| TaskManagers.TaskManager.GetTask | old/TaskManager/src/server/Server.cpp:86-95 | pops the oldest event of the task, or nothing for an unknown task |
| TaskManagers.TaskManager.PutTask | old/TaskManager/src/server/Server.cpp:97-105 | appends; the first event of a task also creates its queue, stop signal and executor |
| TaskManagers.TaskManager.SpawnTask | old/TaskManager/src/server/Server.cpp:108-125 | adds an executor and keeps a destination or signal that is already there |
| TaskManagers.TaskManager.DestroyTask | old/TaskManager/src/server/Server.cpp:127-135 | fails without a stop signal, else signals and removes queue, destination and signal of this task only |
| TaskManagers.TaskManager.TerminateTaskManager | old/TaskManager/src/server/Server.cpp:25-32 | the loop as meant: signals every executor once and leaves no queue and no stop signal; it ends |
| TaskManagers.TaskManager.TerminateAsWritten | old/TaskManager/src/server/Server.cpp:26-29 | the loop as written uses no erased entry if and only if there is no stop signal; otherwise it has destroyed one task by then |
| EventNetwork.EventsAreConserved | old/TaskManager/src/server/TaskExecutor.cpp:33-44 | over every run each event has entered as often as it is queued, held, absorbed, replaced or dropped; a queue implies a stop signal; what was popped is a prefix of what was put |
| EventNetwork.SendsOnce | old/TaskManager/src/server/TaskExecutor.cpp:55-83 | NEW puts the new event and ORIGINAL the popped one, once, at the end of the queue of the task's destination, KEYBY the popped one where the result says, HOLD none; no other queue changes |
| EventNetwork.PutEnters | old/TaskManager/src/server/Server.cpp:97-105 | a put adds its event at the end of one queue and to the events that entered, creates stop signal and executor if the queue is new, and changes nothing else |
| EventNetwork.FinishPutsLast | old/TaskManager/src/server/TaskExecutor.cpp:45-46 | a stopped executor runs once more and sends once more: nothing for HOLD, else one event at the end of one queue; then it is gone |
| EventNetwork.SpawnAdds | old/TaskManager/src/server/Server.cpp:108-125 | a spawn adds an executor and a stop signal, and a destination only where there was none |
| EventNetwork.UpdateReplaces | old/TaskManager/src/server/Server.cpp:138-141 | an update replaces the destination of its task and nothing else |
| EventNetwork.DestroyDrops | old/TaskManager/src/server/Server.cpp:127-135 | a destroy drops exactly the events of the queue it removes |
| EventNetwork.SendCounts | old/TaskManager/src/server/TaskExecutor.cpp:55-83 | NEW replaces the popped event by the new one, HOLD absorbs it, ORIGINAL and KEYBY pass it on |
| EventNetwork.PutIsPutTask | old/TaskManager/src/server/Server.cpp:97-105 | a put of the network changes the queues and stop signals of its manager as PutTask does, spawns an executor exactly if PutTask does, and leaves other managers alone |
| EventNetwork.GetIsGetTask | old/TaskManager/src/server/Server.cpp:86-95 | an executor's pop yields and removes what GetTask does |
| EventNetwork.DestroyIsDestroyTask | old/TaskManager/src/server/Server.cpp:127-135 | a destroy of the network removes the queue, destination and stop signal that DestroyTask removes, and no other |
| JobManagers.JobManager.FindMinLoad | old/JobManager/src/server/Server.cpp:104-109 | a node of least load |
| JobManagers.JobManager.GiveMeDestination | old/JobManager/src/server/Server.cpp:117-125 | keeps the current node or moves to a least loaded one, exactly as the three conditions say; throws exactly on a failing lookup |
| JobManagers.AnswersAreGood | old/JobManager/src/server/Server.cpp:117-125 | over every run an answer is within the limit unless all nodes are above it, and changes only to a least loaded node |
| JobManagers.MovesForAReason | old/JobManager/src/server/Server.cpp:117-125 | over every run: with the current node above the limit, no known destination, or a destination whose task is set, the answer is a least loaded node; in every other case it is the current node |
| JobManagers.CurrentStaysKnown | old/JobManager/src/server/Server.cpp:111-125 | the current node never leaves the load map |
| JobManagers.StaysPut | old/JobManager/src/server/Server.cpp:117-125 | over every stretch of a run in which no call finds a reason to move, the node stays and every answer names it |

## Left out

- RheaClient.Client.PollOnce: one round only; the polling loop of Wait need not end, so the loop itself is in the transition system (SeeDone, EraseStatus).
- RheaClient.Client.Publish: whether a put is refused is a parameter; a refused put changes nothing.
- RheaClient.Client.GetWriteParsel: concurrent pushes are in Drain.dfy, not in the method.
- RheaClient.Client.GetReadParsel: concurrent pushes are in Drain.dfy, not in the method.
- RheaJob.Tasks.WriteSourceTurn: one turn of the loop; the stop signal, the waiting times and `server_id` are parameters or left out.
- RheaJob.Tasks.DirectSourceTurn: one turn of the loop, as above.
- RheaJob.Tasks.ReadSourceTurn: one turn of the loop, as above.
- TaskManagers.TaskManager.TerminateTaskManager: the intended loop; the one in the code is TerminateAsWritten. Setting the exit signal is left out.
- TaskManagers.TaskManager.TerminateAsWritten: stops where the code would use an erased entry, which has no defined behaviour.
- TaskDag.TaskRoundTrip: one format stands for the four packed task classes, which write and read the same four fields.
- RegulatorServer.Server.CalculateRate: a zero update step is excluded, since the code divides by it.
- A read-queue push that is refused; Subscribe would then wait for ever.
- A source whose size check of a queue it does not drain comes out zero: it only repeats its turn.
- The hash that routes a file to a sink: any map from file names to sinks.
- Sentinel's scheduling and emit, basket's maps and queues, the I/O clients: a multiset of emitted parcels, maps, FIFO queues and a byte-range file store.
- Payload and name truncation by CharStruct, time stamps, the hash value of a parcel.
- AlterCollector and AlterTransformers, which do nothing, and the stop signal of the regulator's loop; `abs` of the least int, undefined in C++, is taken to wrap.
- GetDestination's default insert, the generator lookup by task name, the executors' timers and their final DestroyTask call, which passes a manager id.
- A load that is not a number; a ClusterNode is its node id, a ResourceReport a real number.
- The DAGs the jobs build, `old/JobUtils`, FunctionManager, `old/queue`, daemons, RPC, MPI, configuration loading, logging.
