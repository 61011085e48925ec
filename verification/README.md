# libvirt-kube: a verified model

libvirt-kube runs virtual machines under Kubernetes with libvirt. This project
models its stateful parts in Dafny and proves what they keep over every run,
with the exact condition wherever the code fails to keep it.

## What is modelled

**The image repository** (`pkg/imagerepo`). One main loop owns the wanted files
and compares them with the volumes of a libvirt pool. It queues create, delete
and resize jobs on a channel of capacity 100; 1 to 255 workers run them and
report on a second channel of capacity 100, which only `Refresh` drains.

- `RepoModel` holds the state and every step as a function of the state and a
  label. The label carries every choice the program does not make: order of map
  iteration, scheduling, and what libvirt and the API server answer. Each send
  is its own step, so workers can run between any two sends. A step is
  `Disabled` when it does not apply, `Blocked` on a full channel, `Panic` on a
  nil dereference, `BadHandle` on a use or free of a dead handle.
- `RepoHandles`, `RepoInvariant`, `RepoLosses` and `RepoDenotes`: reference
  counts, the index, nil dereferences, lost references, and what each handle
  denotes, over all runs.
- `RepoControl`: what the events alone say about the connection, the pool and the
  place in the main loop.
- `RepoQueues`: conservation of jobs, termination of the drain loop, and the
  exact number of unfinished jobs at which a send blocks for ever.
- `RepoReconcile` and `RepoAvailable`: a batch of jobs, with any number of
  refreshes coming and going while it runs, makes the pool's volumes exactly the
  files and every file available, or blocks the main loop for ever; its size
  alone decides which.
- `RepoSequential` and `RepoOutstanding`: the worker pool against sequential
  execution. `RepoFollow` (any number of workers) and `RepoSteady` (one):
  whether the storage follows the files afterwards.
- `RepoWatch`: list plus watch, for the set of files. `RepoBook`: what the table
  holds of each file, against a book of the items, events and answers.
  `RepoServer`: list plus watch for the capacities, and from the server's files
  to the storage. `RepoCompletions`: confluence of completions.
- `RepositoryObject`: the `Repository` object, its loops and its in-place
  updates, each method tied to the steps of `RepoModel`.

**Connection supervision** (`pkg/libvirtutil/connect.go`): `Backoff` is the
retry loop, `Supervision` the machine of connectors, close callbacks, the
one-slot event channel, the consumer and the calls that borrow its connection.

**The shim** (`pkg/vmshim/shim.go`): `Sessions` runs any number of client
sessions through `startMachine` and `waitForMachineStop` over one supervised
connection, with deferred clean-up on every path. `SessionRuns` says which calls,
in which order, a session makes.

**Smaller parts**: `Designer` (disks and secrets), `PoolManager`, `Naming`
(names, volume names and paths), `Cgroup` (partition of the client), and the
helpers `Text` and `Common`.

## What turned out not to hold

Each of these is stated as an exact condition or a run, not repaired.

- A batch of more than 200 + W jobs blocks the main loop for ever
  (`ReconcilesExactly`, `OversizedBlocksForEver`).
- With two workers, two resizes in a row can leave the older capacity
  (`ResizesOvertake`). It cannot happen with one worker
  (`OneWorkerFollowsTheFiles`), nor as long as no job is queued for a volume that
  has an outstanding one (`AnyWorkersFollowTheFiles`).
- Deleting a file whose volume is still being created leaves the volume behind
  (`DeletePlacedExactly`).
- A watch that is re-opened without a new list keeps files that are gone
  (`GapOverRuns`, `MissedDeletion`).
- Nil dereferences: adding a file without a pool, a failed connection before a
  pool was held, a resize without a volume, and any later use of a resource
  lost to a failed update (`PanicsExactly`).
- References dropped without being freed (`LossesExactly`), and one pool
  reference for each failed create (`CountsExactOverRuns`).
- A close callback before its connection was announced makes the consumer close
  nil (`EarlyCallbackPanics`, `FiringSafeExactly`, `OneTokenExactly`).
- A failed activity check leaves a running guest without a session
  (`FailedCheckLeavesGuest`); a domain whose status could not be published is
  stopped but its handle is never freed (`HandlesFreedExactly`).
- The pool manager asserts the value type of libvirt errors and the shim the
  pointer type, so at most one of the two can be right. With any other type than
  the pointer the shim's retry loop never ends for a guest that stopped by
  itself, the one way in which a session cannot come to its end
  (`StopNeverEnds`, `SessionFinishesExactly`).
- The pool is created under the escaped name and looked up under the plain one
  (`ReloadExactly`); the same names decide whether the designer's disk paths
  lead into it (`ReloadFindsWhatTheDesignerUses`).

Where comments and code disagree the model follows the code: the container ID
sliced from the scope name keeps the hyphen of its prefix, an iSCSI disk is
given the protocol "rbd", and device names go past "vdz" to characters that are
no letters.

## Model

| member | source | states |
|---|---|---|
| RepoInvariant.StepKeepsInv | pkg/imagerepo/repo.go:250-574 | every step of the main loop and of the workers keeps the channel bounds, the index, the main loop's control state and all reference counts |
| RepoInvariant.InitInv | pkg/imagerepo/repo.go:214-271 | a repository just created and loaded satisfies the invariant, with every resource known |
| RepoInvariant.RunsAreSafe | pkg/imagerepo/repo.go:109-574 | over every run, whatever the answers and the interleaving, no handle is used or freed after its count reached zero, and the invariant holds |
| RepoInvariant.InitRunsAreSafe | pkg/imagerepo/service.go:207-327 | the same from the start of the service, for up to 255 workers |
| RepoInvariant.NoBadHandle | pkg/imagerepo/repo.go:135-190 | no step frees twice or uses a freed handle |
| RepoInvariant.PanicsExactly | pkg/imagerepo/repo.go:273-574 | the exact condition of a nil dereference at each kind of step; in particular the lookup in createFileVolume always hits while volumes are loaded |
| RepoInvariant.IndexOverRuns | pkg/imagerepo/repo.go:250-297 | while no update of refreshSizes fails, every key is the volume name of its resource, every resource belongs to this repository, no two keys share an entry, and only three kinds of step can panic |
| RepoInvariant.WorkerStep | pkg/imagerepo/repo.go:196-212 | a worker takes from the head of one channel, processes, and reports at the tail of the other; it touches neither the files nor the main loop |
| RepoInvariant.MainKept | pkg/imagerepo/service.go:222-280 | a main-loop step sends at most one job, takes at most one completion, and leaves workers and storage alone |
| RepoControl.ControlFollowsTheEvents | pkg/imagerepo/service.go:125-280 | over every run from the start the connection, the pool and the place in the main loop follow from the events alone: in the select it is connected exactly if the last connection event was a success, a failed connection is emptied, refreshed and given up, a pool is refreshed exactly if its save succeeded, and sizes only if the pool can be read |
| RepoControl.LatePoolIsIgnored | pkg/imagerepo/service.go:234-245 | a pool that arrives after a failed connection, or before the first, is given back at once: nothing else changes |
| RepoHandles.CreateKeeps | pkg/imagerepo/repo.go:273-297 | queueing a create keeps both counts equal to their holders |
| RepoHandles.ModifyKeeps | pkg/imagerepo/repo.go:517-550 | queueing a resize takes exactly the reference that its job holds |
| RepoHandles.DeleteKeeps | pkg/imagerepo/repo.go:552-574 | a delete passes the entry's reference on to its job |
| RepoHandles.VisitKeeps | pkg/imagerepo/repo.go:317-338 | matching a listed volume moves its reference to the entry |
| RepoHandles.SetPoolKeeps | pkg/imagerepo/repo.go:458-463 | holding a pool and listing its volumes accounts for each new reference, the overwritten pool's among them |
| RepoHandles.ProcessKeeps | pkg/imagerepo/repo.go:109-190 | processing frees exactly what the job held, but a failed create keeps its pool reference |
| RepoHandles.DrainKeeps | pkg/imagerepo/repo.go:146-166 | finishing a create stores, frees or drops the new handle, and each way is accounted for |
| RepoHandles.SizeKeeps | pkg/imagerepo/repo.go:385-407 | a volume that cannot be read is freed once and forgotten |
| RepoLosses.LossesExactly | pkg/imagerepo/repo.go:146-166 | a step drops a reference without freeing it exactly when a pool replaces another, a listed volume has no readable name, or a handle meets an entry that has one |
| RepoLosses.CountsExactOverRuns | pkg/imagerepo/repo.go:135-190 | over runs without these cases a volume's count is the number of its holders, and a pool's is one while held, one while owed, one per unprocessed create and one per failed create |
| RepoLosses.JobsConfiguredOverRuns | pkg/imagerepo/repo.go:284-286 | every job ever submitted allocates in advance exactly if the repository is configured to |
| RepoDenotes.DenotesOverRuns | pkg/imagerepo/repo.go:306-349 | over every run each handle in an entry, a listing or a finished create denotes the volume of that name, and no job is queued for an unknown volume |
| RepoDenotes.ReachedDenotes | pkg/imagerepo/repo.go:273-349 | the same in every state that a run from the start comes to |
| RepoQueues.ConservedOverRuns | pkg/imagerepo/repo.go:196-212 | submitted jobs are exactly the pending, held, completed and finished ones, as multisets, over every run |
| RepoQueues.EachJobOnce | pkg/imagerepo/repo.go:196-212 | each job is submitted, processed and finished at most once, and never finished before processed |
| RepoQueues.DrainTerminates | pkg/imagerepo/repo.go:427-437 | the drain loop ends under every interleaving: each step uses up work, and finishing queues nothing |
| RepoQueues.StuckExactly | pkg/imagerepo/repo.go:196-212 | no worker can step exactly when none holds a job, none can report and none is idle beside a pending job |
| RepoQueues.StartBound | pkg/imagerepo/repo.go:214-224 | the bound is 200 + W, where no worker count means three |
| RepoQueues.SendAcceptedExactly | pkg/imagerepo/repo.go:289-289 | however the workers run until they can run no more, the next send has room exactly when fewer than 200 + W jobs were unfinished |
| RepoQueues.BlockedForEver | pkg/imagerepo/repo.go:346-346 | at 200 + W unfinished jobs the send stays blocked whatever the workers do |
| RepoQueues.WorkersSettle | pkg/imagerepo/repo.go:196-212 | from every state the workers can be run until they can run no more |
| RepoReconcile.QuietConverges | pkg/imagerepo/repo.go:299-350 | for every iteration order, interleaving and number of refreshes during the batch, with all jobs succeeding: whenever loading is over and no job is outstanding, the volumes are exactly the files, kept ones untouched and new ones of the wanted capacity |
| RepoReconcile.ReconcilesExactly | pkg/imagerepo/repo.go:299-350 | such a run ends, if anywhere, by its size: a batch of at most 200 + W jobs at rest with the volumes being exactly the files; a larger one blocked at a send, with 200 + W jobs unfinished |
| RepoReconcile.OversizedNeverLoads | pkg/imagerepo/repo.go:340-347 | at no point of a larger batch is loading over |
| RepoReconcile.BatchTerminates | pkg/imagerepo/repo.go:299-350 | at most five steps for each job, one per file and three more do anything but refresh; with the refreshes, the length is bounded by the number of ticks |
| RepoReconcile.BatchCanFinish | pkg/imagerepo/repo.go:299-350 | from every point of such a run, refreshes and outstanding jobs included, it can be continued to an end |
| RepoReconcile.BatchTouchesEachNameOnce | pkg/imagerepo/repo.go:317-347 | at any point of the batch a name has at most one outstanding job: a create only for a file that had no volume, a delete only for a volume that had no file |
| RepoAvailable.PhasesDuringBatch | pkg/imagerepo/repo.go:273-338 | at every point of a batch that starts without volumes and in which volumes can be read, a visited file is Pending while a create for it is under way and Available, with its volume, afterwards |
| RepoAvailable.AllAvailable | pkg/imagerepo/repo.go:299-350 | whenever loading is over and no job is outstanding in such a batch, every file is Available and holds a handle that denotes the volume of its own name |
| RepoReconcile.OversizedBlocksForEver | pkg/imagerepo/repo.go:340-347 | after a larger batch has come to its end no worker step ever makes room again |
| RepoSequential.StorageReplaysLog | pkg/imagerepo/repo.go:196-212 | the storage of every run is the replay of the processed jobs, one after another |
| RepoOutstanding.LatestJobDecides | pkg/imagerepo/repo.go:109-190 | over every run each volume is as the last job on it that succeeded left it; failed jobs change nothing |
| RepoSequential.OneWorkerIsSequential | pkg/imagerepo/repo.go:214-224 | with one worker jobs run, and complete, in the order of submission |
| RepoSequential.AnyInterleavingIsSequential | pkg/imagerepo/repo.go:196-224 | with any number of workers, from every state that a run comes to: if jobs on the same volume were processed in the order of their submission, the storage is that of running all of them in that order |
| RepoOutstanding.CalmRunsAreSequential | pkg/imagerepo/repo.go:196-224 | the order holds, and so the storage is that of sequential execution, as long as no job is queued for a volume that has an outstanding one |
| RepoFollow.AnyWorkersFollowTheFiles | pkg/imagerepo/repo.go:497-574 | with any number of workers, however files are added, resized and deleted once their volumes exist, as long as no job is queued for a volume that has an outstanding one, the storage is exactly what the files want as soon as no job is outstanding |
| RepoServer.AnyWorkersFollowTheEvents | pkg/imagerepo/repo.go:497-574 | the same, with the capacities of the items and events that last took effect |
| RepoFollow.ReconcilesThenFollows | pkg/imagerepo/repo.go:299-574 | the same from the moment a batch has been loaded, its jobs still outstanding |
| RepoSteady.OneWorkerFollowsTheFiles | pkg/imagerepo/repo.go:497-574 | with one worker the same, and no job has to wait for another |
| RepoSteady.OneWorkerReconcilesThenFollows | pkg/imagerepo/repo.go:299-574 | with one worker, from the moment a batch has been loaded |
| RepoFollow.DeletePlacedExactly | pkg/imagerepo/repo.go:552-574 | with any number of workers, deleting a file for whose volume no job is outstanding, or whose volume is still being created, leaves a volume behind exactly if the entry has no volume yet |
| RepoSteady.ResizesOvertake | pkg/imagerepo/repo.go:168-212 | with two idle workers, two resizes in a row can leave the older capacity although both jobs succeed, so that the second job must indeed wait |
| RepoWatch.TrackAt | pkg/imagerepo/service.go:267-274 | a name that some event added or deleted ends as the server has it, any other stays as it was |
| RepoWatch.OverlapConverges | pkg/imagerepo/service.go:246-275 | a snapshot taken anywhere in the stream, followed by the whole stream with repeats and older events, ends with the server's files |
| RepoWatch.ListAndWatchConverge | pkg/imagerepo/service.go:217-280 | over whole runs of the main loop, mixed with connection events, ticks and workers, the keys end as exactly the volume names of the server's files of this repository |
| RepoBook.TableKeepsTheBook | pkg/imagerepo/repo.go:250-574 | over every run the table knows the files, and holds of each the name, capacity and version, that a book of the events says: a file is added only if it is unknown, modified only if known and of another version, and carries the version that the last successful update was answered with |
| RepoBook.InitKeepsTheBook | pkg/imagerepo/repo.go:250-271 | the same from the start of the service, where the last list item of a volume name counts |
| RepoBook.AddedIsCreated | pkg/imagerepo/repo.go:497-515 | an added file is stored as it came, pending, and a volume of its capacity is queued under its name |
| RepoBook.ModifiedIsStored | pkg/imagerepo/repo.go:517-550 | a new version is stored as it came, and its capacity queued for the volume exactly if it is another one |
| RepoServer.CapConverges | pkg/imagerepo/service.go:246-275 | for each name the events of a stream, after a snapshot taken anywhere in it, bring the known capacity to the server's |
| RepoServer.CapacitiesConverge | pkg/imagerepo/service.go:217-280 | over whole runs the table ends with exactly the server's files of this repository and their capacities |
| RepoServer.StorageFollowsTheServer | pkg/imagerepo/service.go:217-280 | from the start of the service, over list, watch, pool, batch and whatever follows, with any number of workers: as soon as no job is outstanding the storage has a volume for each of the server's files of this repository and no other, of the server's capacity unless an old volume was kept |
| RepoWatch.OnlyWatchChangesKeys | pkg/imagerepo/service.go:222-280 | nothing but a watch event changes which files are known |
| RepoWatch.RepeatsAreInert | pkg/imagerepo/repo.go:497-574 | a watch event delivered again at once changes nothing and queues nothing |
| RepoWatch.GapOverRuns | pkg/imagerepo/service.go:247-255 | over runs of the main loop after a watch is re-opened without a list, the keys are right at the end exactly if every name that changed in the gap is added or deleted again later |
| RepoWatch.MissedDeletion | pkg/imagerepo/service.go:247-255 | a missed deletion keeps a file that is gone, over every later run in which it is neither added nor deleted again |
| RepoCompletions.CreateCompletions | pkg/imagerepo/repo.go:146-166 | a live file without a volume ends available with the first volume created for it, failed if there was none, and untouched by completions of others |
| RepoCompletions.CompletionsConfluent | pkg/imagerepo/repo.go:146-166 | the order of completions does not change the phase nor whether there is a volume |
| RepoCompletions.GoneForEver | pkg/imagerepo/repo.go:497-515 | a deleted entry's identity never returns, not even when the file is added again under its name |
| RepoCompletions.StaleCompletionsAreInert | pkg/imagerepo/repo.go:146-166 | a completion for a deleted entry, over every later run, changes no file and frees the volume handle it brings |
| RepositoryObject.Repository.constructor | pkg/imagerepo/repo.go:214-240 | a new object is the model's initial state without files |
| RepositoryObject.Repository.LoadFileResources | pkg/imagerepo/repo.go:250-271 | the loop builds the model's table: only files of this repository, a later item replacing an earlier one |
| RepositoryObject.Repository.CreateFileVolume | pkg/imagerepo/repo.go:273-297 | takes exactly the model's step: phase, pool reference, job with allocation, and the stored update; with the channel full it waits, which is all it does |
| RepositoryObject.Repository.AddFile | pkg/imagerepo/repo.go:497-515 | ditto for a new file, with both early returns |
| RepositoryObject.Repository.ModifyFile | pkg/imagerepo/repo.go:517-550 | ditto for a changed version, resizing only on another capacity |
| RepositoryObject.Repository.DeleteFile | pkg/imagerepo/repo.go:552-574 | ditto for a deletion, queueing a delete only if there is a volume |
| RepositoryObject.Repository.VisitFile | pkg/imagerepo/repo.go:317-338 | one iteration of the first loop of loadVolumes is the model's visit, or waits |
| RepositoryObject.Repository.LoadVolumes | pkg/imagerepo/repo.go:299-350 | the two loops, in any map order, are a run of visits and sweeps; it waits at a send exactly if the queued jobs and those it has to send, one for each file without a volume and each volume without a file, exceed the capacity |
| RepositoryObject.Repository.SetPool | pkg/imagerepo/repo.go:458-475 | holding the pool and loading it is a run of the model from the receipt of the pool, with the same exact condition for waiting |
| RepositoryObject.Repository.UnsetPool | pkg/imagerepo/repo.go:477-487 | the pool is freed once and afterwards no file has a volume |
| RepositoryObject.Repository.Finish | pkg/imagerepo/repo.go:146-166 | the search for the entry by identity, in any map order, finishes as the model does |
| RepositoryObject.Repository.Drain | pkg/imagerepo/repo.go:427-437 | the drain loop finishes every completion, in order, and ends with the channel empty, whatever entries have lost their resources, unless a completed create meets one of them |
| RepositoryObject.Repository.RefreshSizes | pkg/imagerepo/repo.go:373-410 | unreadable volumes are freed and failed; exactly the files with a volume whose update fails lose their resource; entries that have lost theirs are in order as long as they have no volume |
| RepositoryObject.Repository.Refresh | pkg/imagerepo/repo.go:427-456 | draining, and then refreshing if there is a pool, is a run of the model |
| Backoff.Connector | pkg/libvirtutil/connect.go:88-104 | for any number of failures the index stays in range, each delay is the policy's for the time waited, delays never decrease, and the total has its closed form |
| Backoff.PolicyTotal | pkg/libvirtutil/connect.go:29-33 | any delays that follow the stated policy have that total and never decrease |
| Backoff.TableEntry | pkg/libvirtutil/connect.go:29-33 | the table's entry for an attempt is what the policy says for the time waited by then |
| Supervision.StepKeepsInv | pkg/libvirtutil/connect.go:53-104 | every step keeps the single token, the alternation of events, the consumer's state and the exact count of every connection |
| Supervision.SupervisedRuns | pkg/libvirtutil/connect.go:53-104 | over every run in which callbacks fire only after Ready was sent: one token, events Ready, Failed, Ready and so on, a consumer holding a connection exactly while its last event was Ready, and no fault |
| Supervision.OneTokenExactly | pkg/libvirtutil/connect.go:60-86 | a step leaves one token exactly if it fires no callback before its connection was announced |
| Supervision.NoFault | pkg/vmshim/shim.go:232-249 | the consumer never closes nil, and no step touches a released connection |
| Supervision.CallsKeepTheirConnection | pkg/vmshim/shim.go:295-304 | a call between Ref and the deferred Close can use and close its connection, whatever happened meanwhile |
| Supervision.RetriesFollowThePolicy | pkg/libvirtutil/connect.go:86-104 | a connector has failed exactly as often as connection attempts did since the connection was lost, so that its next delay is the policy's |
| Supervision.EarlyCallbackPanics | pkg/libvirtutil/connect.go:60-83 | from every state with an open connection that was not announced, its callback and two or three more steps make the consumer close nil |
| Supervision.FiringSafeExactly | pkg/libvirtutil/connect.go:60-86 | a callback is free of that in every disciplined continuation exactly if its connection was announced |
| Sessions.StepKeepsInv | pkg/vmshim/shim.go:271-437 | every step of every session, of libvirt and of supervision keeps the sessions' invariant |
| Sessions.RunsAreSafe | pkg/vmshim/shim.go:271-437 | over every interleaving no domain handle is freed twice, no channel closed twice and no released connection touched |
| Sessions.ReachableInv | pkg/vmshim/shim.go:218-249 | the invariant holds in every state that a run from the start comes to |
| Sessions.RegistryExactly | pkg/vmshim/shim.go:354-384 | the machines table holds exactly the sessions between registration and clean-up, each under its UUID |
| Sessions.HandlesFreedExactly | pkg/vmshim/shim.go:340-384 | a finished session freed its handle and closed its channel exactly once if it was registered, and never otherwise |
| Sessions.GuestWithinSession | pkg/vmshim/shim.go:376-437 | when a session ends without a failed activity check its guest is not running |
| Sessions.FailedCheckLeavesGuest | pkg/vmshim/shim.go:389-392 | after a failed check a running guest is left with no session |
| Sessions.SecretsReadyAtCreate | pkg/vmshim/shim.go:317-344 | when the domain is created every designed secret is defined with its value set |
| Sessions.SecretsUndefinedAtExit | pkg/vmshim/shim.go:317-344 | however startMachine ends, all secrets it defined had their Undefine run, and libvirt keeps exactly those for which it failed |
| Sessions.BorrowedConnection | pkg/vmshim/shim.go:295-304 | exactly the sessions between Ref and the deferred Close hold a reference, and each can use and close it |
| Sessions.StopMeansStopped | pkg/vmshim/shim.go:422-437 | the retry loop ends only with a stopped guest |
| Sessions.StopEndsExactly | pkg/vmshim/shim.go:429-433 | against a guest that stopped by itself the loop can end exactly if errors have the type that the code asserts |
| Sessions.StopNeverEnds | pkg/vmshim/shim.go:422-437 | otherwise that session is still in the loop after every later run |
| Sessions.SessionFinishesExactly | pkg/vmshim/shim.go:271-437 | whatever the others are doing, a session can come to its end by its own steps exactly unless it retries to stop a guest that stopped by itself, against errors of another type |
| SessionRuns.StartupRegisters | pkg/vmshim/shim.go:295-367 | from every state a session that gets a connection, finds no domain and for which every call succeeds is in the machines table, its domain running and every secret defined with its value |
| SessionRuns.RegisteredExactly | pkg/vmshim/shim.go:271-368 | over all runs a session is registered exactly if its calls were a connection, a lookup that found nothing, a define and a value for each secret, create, publish and register, in this order and all successful; otherwise it ends with the first that was not |
| SessionRuns.FailureIsFinal | pkg/vmshim/shim.go:306-351 | after a lookup that finds a domain, or a call that fails, a session makes no other call and never registers; if a domain was found it made none before |
| SessionRuns.EndsExactly | pkg/vmshim/shim.go:376-420 | a finished session checked its guest once, waited exactly if it was running, for the guest's or the client's end, updated the status unless the check failed, freed the handle and left the table, in this order |
| Designer.DomainDesigner.SetDiskConfigRBD | pkg/designer/domain.go:153-208 | error, panic or success exactly as key, monitors and addresses decide; the secret is recorded before the addresses are read; hosts in order |
| Designer.DomainDesigner.SetDiskConfigISCSI | pkg/designer/domain.go:210-230 | one host, no credentials, and the protocol the code gives |
| Designer.DomainDesigner.SetDiskConfigPersistentVolume | pkg/designer/domain.go:232-247 | RBD wins over iSCSI, anything else is an error |
| Designer.DomainDesigner.SetDiskConfigImageFile | pkg/designer/domain.go:258-282 | the path joins base, repository and volume name; missing file or repository is an error |
| Designer.DomainDesigner.SetDiskConfig | pkg/designer/domain.go:284-311 | on success one disk is appended under the next device name, on failure none; a secret is recorded exactly for an RBD disk with key and monitors |
| Designer.DomainDesigner.SetDeviceConfig | pkg/designer/domain.go:313-323 | all disks in order up to the first failure; the secrets recorded are those the disks name, in order, and one more exactly if the failing disk had recorded one |
| Designer.ConfiguredExactly | pkg/designer/domain.go:232-299 | a disk can be configured exactly if some disk is what its template asks for and, for an RBD volume, key and monitors are there; it panics exactly without a source, or on an RBD volume with a key and no monitor |
| Designer.OneToOneInOrder | pkg/designer/domain.go:153-208 | disks that name a secret and recorded secrets correspond one to one, in order, with equal UUIDs |
| Designer.DiskSecretsReady | pkg/vmshim/shim.go:317-344 | at domain creation every secret that a designed disk names is defined with its value set |
| Designer.FileDiskInPool | pkg/designer/domain.go:269-275 | an image disk points at the repository's volume in its pool exactly if escaping leaves the repository's name unchanged |
| Designer.DevNamesExactly | pkg/designer/domain.go:301-306 | the first 26 disks are vda to vdz in the order of the alphabet; two disks share a device name exactly if both positions print the replacement character |
| PoolManager.Manager.Create | pkg/imagerepo/poolmanager.go:46-70 | a pool under the escaped name, at the path joined with it, or nothing |
| PoolManager.Manager.LoadPool | pkg/imagerepo/poolmanager.go:72-106 | on every path one notification is sent and one connection reference given back; a pool is sent exactly if it was found or created, and libvirt has a new pool exactly if the lookup reported it missing, in an error of the asserted type, and creation succeeded |
| PoolManager.Manager.Load | pkg/imagerepo/poolmanager.go:108-111 | a whole load leaves the connection's count as it was |
| PoolManager.OneReference | pkg/imagerepo/poolmanager.go:72-106 | a load sends nothing and keeps nothing, or sends a new handle with exactly one reference; it leaves all others alone |
| PoolManager.DeliversExactly | pkg/imagerepo/poolmanager.go:46-99 | for all answers: when a pool is delivered, which pools libvirt then has, where the created one is, and that a failed lookup changes nothing |
| PoolManager.DeliveriesOverLoads | pkg/imagerepo/poolmanager.go:72-111 | over any history of loads each delivers exactly under that condition in the state it meets |
| PoolManager.PoolsOverLoads | pkg/imagerepo/poolmanager.go:72-111 | over any history the only new pool is the one under the escaped name, and it is there exactly if some load created it |
| PoolManager.ReferencesOverLoads | pkg/imagerepo/poolmanager.go:72-111 | over any history of loads the references are those sent, each once |
| PoolManager.ReloadExactly | pkg/imagerepo/poolmanager.go:46-79 | after a creation every later load finds the pool exactly if escaping leaves the name unchanged |
| PoolManager.ReloadFindsWhatTheDesignerUses | pkg/designer/domain.go:269-275 | a reload finds the created pool exactly if the designer's disk paths lead into it |
| Naming.EscapeIdempotent | pkg/libvirtutil/object.go:26-29 | escaping twice is escaping once |
| Naming.UnescapeInverts | pkg/libvirtutil/object.go:26-29 | escaping can be undone on names of lower-case letters, digits, hyphens and dots |
| Naming.CollideExactly | pkg/imagerepo/repo.go:100-107 | exactly when two names share a volume name |
| Naming.VolNameInjective | pkg/imagerepo/repo.go:104-107 | volume names of objects do not collide for a fixed format |
| Naming.VolNameShape | pkg/imagerepo/repo.go:100-107 | a volume name is the file's name with an underscore for every character that is no letter, digit, underscore or hyphen, a dot, and the format |
| Naming.VolNameReadsBack | pkg/imagerepo/repo.go:100-107 | the name of an object can be read back from its volume name and the format |
| Naming.CleanKeepsMeaning | pkg/imagerepo/poolmanager.go:48-48 | the cleaning that joins of paths end with keeps the directory that a path names, seen from anywhere |
| Naming.CleanIdempotent | pkg/designer/domain.go:269-269 | a cleaned path is clean: cleaning it again changes nothing |
| Naming.PathsExtendTheBase | pkg/designer/domain.go:249-269 | below a clean base directory the disk path is base, repository and volume name, and the pool's target base and escaped repository |
| Naming.PathsAgreeExactly | pkg/designer/domain.go:249-269 | the designer's disk path is the pool's target directory joined with the volume name exactly if escaping leaves the repository's name unchanged |
| Cgroup.GetResourcePartition | pkg/resource/cgroup.go:18-39 | the loops find the path of the last line that lists the controller, an error if none does, and index out of range exactly on a line with fewer than two colons |
| Cgroup.LocateExactly | pkg/resource/cgroup.go:18-39 | the result is the path of the last line that lists the controller, and none exactly if no line does |
| Cgroup.LocateInvertsPrint | pkg/resource/cgroup.go:18-39 | for printed entries without shared controllers the result is the path of the entry listing the controller, an error exactly if none does |
| Cgroup.AcceptedScopeSlices | pkg/vmshim/shim.go:159-166 | in an accepted scope name prefix and suffix cannot overlap, so the slice is in range; it keeps the prefix's hyphen |

## Left out

- RepoReconcile.QuietConverges: like the other results on batches it assumes that listing and naming succeed, that every job and every update of a resource by refreshSizes succeeds, and that no connection, pool or watch event comes in between; the source's own retry is only the next connection.
- RepoAvailable.AllAvailable: assumes in addition that no file has a volume at the start and that volumes can be read, as a failing read fails the file.
- RepoFollow.AnyWorkersFollowTheFiles: has no connection or pool events, because a second reconciliation while jobs are outstanding may queue a create twice.
- RepoSteady.OneWorkerFollowsTheFiles: likewise.
- RepoServer.CapacitiesConverge: assumes that an event which carries the recorded version carries the recorded capacity, as resource versions do, and that a file which is there is added again only with its capacity; it does not say that the versions end as the server's, which the repository itself goes on changing.
- RepoServer.StorageFollowsTheServer: has no connection or pool events after the batch, and its jobs and updates succeed, as in `RepoFollow`; the source never resizes a volume that it finds when the pool is loaded.
- Supervision.SupervisedRuns: assumes that a callback fires at most once per connection and only after Ready was sent, as the source does; the other half is `FiringSafeExactly`.
- Sessions.GuestWithinSession: takes a shutdown notice to mean that the guest has stopped; `domainLifecycleEvent` is registered nowhere in the repository and is not modelled.
- PoolManager.Manager.Load: runs the goroutine at once; only the reference it takes first is kept apart.
- RepositoryObject.Repository.AddFile: like the other methods of this class it runs alone, and one that meets a full channel says so and changes nothing more; what workers do while it waits is the subject of `RepoModel`, where a send and the updates that go with it are one step.
- The service's main loop and the shim's sessions are machines over their steps rather than objects with methods: what matters about them is the interleaving, which a method that runs alone does not show.
- A job's `Process` is one step, and an update of the API server is one answer: success with a new version of the same resource, or failure.
- The file table is loaded once at the start; a failing list call ends the service before its loop.
- Saving the repository's own status; its result decides only whether a refresh follows.
- The data in volume sizes and status other than capacity and phase.
- The references of the service's own connection: they depend on references held inside libvirt that are not visible.
- Generated UUIDs are taken to be new, and real time is not modelled beyond the delays.
- Marshalling to XML, which can only fail like the call it prepares.
- Splitting of "host:port" is a parameter of the designer, as is the printed number of an iSCSI unit; both are library functions.
- The designer's operating system, memory and processor settings, which are tables of cases, and `getVolumeLocalPath`, a stub.
- Upload and download of volumes, HTTP and TLS streaming, the CRI service, node information, Kubernetes clients, command lines, manifests and images.
