# Verified models of koko

This project models the three parts of the repository that carry real invariants, and proves what they
guarantee and, where they do not, exactly when they do.

1. **The replicated MySQL StatefulSet** (`kubernetes/mysql.yaml`). Pods `mysql-0`, `mysql-1`, ... start
   in order. Each replica clones the data of the pod before it, a sidecar script turns files left by
   the clone into replication coordinates, starts replication from `mysql-0`, and only then serves
   backups to the next pod. Containers and pods may be lost at any command; the volume survives.
2. **The two operators** (`nginx-deploy`, `operator`). `Reconcile` is a sequence of API calls without
   a transaction. Calls fail, also after they took effect, and users edit resources between any two of
   them. The text of the annotation and the objects built from a spec are modelled too.
3. **The generated deep copies** of `Prom` and `PromList`, on a heap with nil pointers and slices.

## How it is organised

| files | content |
|---|---|
| `Sidecar`, `Cluster` | one command of the scripts; all pods, and every event that can happen to them |
| `PodInvariant`, `ClusterTheorems` | the invariant of one replica, its induction along the clone chain, safety over all runs |
| `SidecarTheorems`, `Bootstrap` | the exact crash windows and recovery of one sidecar; the cluster comes up from wherever it is |
| `SidecarScript` | the scripts in their own imperative form, proved to refine the machine of `Sidecar` |
| `Decimal`, `Ordinal`, `BinlogInfo` | numerals; the identity of a pod from its host name; the two groups of the position file |
| `Json`, `SpecJson` | JSON texts; the annotation and its round trip |
| `Kube`, `Store` | the Kubernetes objects; the API server with versions, conflicts and faults |
| `NgloyChildren`, `PromChildren` | what each operator builds from a spec, and where traffic arrives |
| `NgloyMachine`, `NgloySafety`, `NgloyConvergence`, `NgloyLiveness` | the Ngloy controller call by call, in every interleaving |
| `NgloyReconciler`, `PromReconciler` | `Reconcile` in imperative form, proved to refine the machines |
| `PromMachine`, `PromJson` | the Prom controller call by call, among others who write its children; its annotation |
| `DeepCopy` | copying on the heap |

A run of a machine is any finite sequence of events, so the theorems hold for any number of pods,
transactions, crashes, faults and edits. Observers' records (`History`) are part of the machines' states,
but no step reads them.

## Results that a reader might not expect

- Losing the sidecar at a critical place does not always cost the replica its coordinates. A clone of a
  slave that is lost at line 113 of `mysql.yaml`, and then lost again between the `rm` of line 117 and
  the redirection of line 118, ends up with the right coordinates: the first
  `change_master_to.sql.in` is still there (`TwoCrashesHeal`). The critical losses that a replica
  survives are therefore exactly: none, or these two in this order (`CrashWindowsExact`, `ReplicaExact`).
- Along the clone chain a loss just before `START SLAVE` harms only the pod itself: pods cloned from it
  get the right coordinates, because a configured slave reports them whether it runs or not.
- The Ngloy controller converges exactly from the states in which neither child exists, or the Service
  exists and the annotation decodes. Children can also match outside this basin, when they happened
  to match already; `ConvergenceExact` states when, and `BasinExact` shows that some later edit is then
  never taken over.
- Some calls of the create branch lead out of the basin, depending on the fault and on the state before
  the call (`Fatal`), and nothing else does; there is no way back in (`BasinLeftExact`, `BasinKept`). One
  rejected creation of the Service in the first run is enough (`OneFaultCutsOff`), and so is an edit during
  that run, without any fault (`Doomed` in `SelfTriggeringDiesOut`).
- The comparison at line 131 of `ngloy_controller.go` is between values of different types, and so is
  the one at line 101 of `prom_controller.go`: both update branches always write.
- The Prom controller creates nothing although its comments say so. It writes the annotation only in a
  run in which the read of line 72 finds no Deployment and that of line 75, just after it, does: because
  the first one failed, or because somebody applied the Deployment in between (`AnnotationExact`,
  `Line92Exact`, `AppliedInBetween`).
- The gate of line 98 accepts that annotation, but decodes nothing from it: the text of a spec is read as
  a whole Prom (`AnnotationDecodesToNothing`).
- With a third column in `xtrabackup_binlog_info` line 116 takes file name and position for one word
  (`ThirdColumn`).
- A Prom's Service reaches the container port of its entry only for numeric targets.
- The owner references of all children name the core API group, in which there is no such kind, so none of
  them names the resource (`CreatedMeta`).
- A request for an Ngloy that was removed is retried for ever (`HandsOffForever`); one for a Prom is not.
- The round trip of the annotation loses the difference between absent and empty resource maps, not only
  that of ports.

## Assumptions

- Pods start in order. `xtrabackup --slave-info` writes the coordinates of mysql-0 exactly when the source
  is a configured slave, and `xtrabackup_binlog_info` always holds the position in the source's own log.
  Log file names identify the server, so coordinates are a server and a position. The info files are the
  last of the stream. A rename is atomic; a redirection first creates an empty file. A configured mysqld
  starts replicating whenever it is started, with its pod or alone.
- Data on which mysqld was started before it was prepared is never again a prefix of the log.
- The API server rejects the creation of an object without a name, reads are up to date, one worker
  serves a resource, and an update without a resourceVersion replaces what is stored. Nobody but the
  controller writes the annotation, and no resource comes under deletion while a Reconcile for it is under
  way. The children of an Ngloy are left alone by
  others; those of a Prom may be applied and deleted by anybody at any time.

## Model

| member | source | states |
|---|---|---|
| ClusterTheorems.ReplicaConsistent | kubernetes/mysql.yaml:46-57 | in every run, unless this pod or one it descends from was spoilt, the database is a prefix of mysql-0's log, the coordinates point right behind it, and the next event applied is the next one of the log |
| ClusterTheorems.ReplicaExact | kubernetes/mysql.yaml:83-139 | in every run, restarts of mysqld alone included, a pod that serves backups is aligned with mysql-0's log if and only if no loss spoilt it or a pod it descends from, and replicating if and only if, besides, START SLAVE was not missed since mysqld was last started |
| ClusterTheorems.CatchesUp | kubernetes/mysql.yaml:126-135 | an unspoilt replicating pod has the whole database of mysql-0 after exactly as many events as it is behind |
| ClusterTheorems.WaitsInRun | kubernetes/mysql.yaml:124-135 | in every run, as long as mysqld of a pod answers none of its sidecar's commands, the pod does not become a slave, and a sidecar not past its wait keeps its query and attempts nothing |
| ClusterTheorems.ClonesPrevious | kubernetes/mysql.yaml:51-57 | data first appears on a pod as the rows of the pod before it, which serves, with mysql-0's coordinates if and only if that one is a slave |
| ClusterTheorems.StartedInOrder | kubernetes/mysql.yaml:2-10 | in every run each pod but the last has its data |
| ClusterTheorems.AtMostOnce | kubernetes/mysql.yaml:126-135 | CHANGE MASTER is attempted at most once per volume in every run, and afterwards no info file and no .in file is left |
| ClusterTheorems.CloneKept | kubernetes/mysql.yaml:48-49 | no event replaces the rows of a completed clone; they are only extended |
| ClusterTheorems.CloneKeptForever | kubernetes/mysql.yaml:48-49 | the same over every continuation of every run, restarts included |
| ClusterTheorems.TornInRun | kubernetes/mysql.yaml:49-57 | mysqld runs on unprepared data exactly when a clone was cut off between transfer and prepare, at this pod or one it descends from |
| ClusterTheorems.NextKeeps | kubernetes/mysql.yaml:41-139 | every event keeps the invariant of the whole StatefulSet |
| ClusterTheorems.PodKeeps | kubernetes/mysql.yaml:41-139 | every event on a replica keeps the invariant of its files and the fate of its coordinates |
| PodInvariant.StepKeepsPending | kubernetes/mysql.yaml:105-136 | a command that does not end the script keeps the coordinates the script is heading for |
| PodInvariant.ShellFate | kubernetes/mysql.yaml:105-136 | one command keeps what can still become of the coordinates, given the places where the script was lost |
| PodInvariant.LoseFate | kubernetes/mysql.yaml:105-136 | so does losing the container before any command |
| PodInvariant.InitKeeps | kubernetes/mysql.yaml:46-57 | a clone of a sound pod is on course, one of an unsound pod is lost: from mysql-0 by binlog_info, from a slave by slave_info |
| SidecarTheorems.CrashWindowsExact | kubernetes/mysql.yaml:108-136 | for any losses of the sidecar on a complete clone, it ends with the coordinates of the snapshot if and only if the critical losses are none, or line 113 and then line 118 before its redirection |
| SidecarTheorems.TwoCrashesHeal | kubernetes/mysql.yaml:111-119 | a concrete schedule with two critical losses that ends with a replicating slave |
| SidecarTheorems.NothingUnanswered | kubernetes/mysql.yaml:124-135 | whatever the state and however often the container is killed: while mysqld does not answer, nothing is configured or started, and a script not past its wait renames nothing |
| SidecarTheorems.WaitsForMysqld | kubernetes/mysql.yaml:124-135 | so a sidecar that starts before its mysqld loses nothing by that |
| SidecarTheorems.Recovers | kubernetes/mysql.yaml:121-138 | after any losses that are not critical, twelve commands of the restarted script lead to a replicating slave that serves backups |
| SidecarTheorems.ReachesServe | kubernetes/mysql.yaml:114-138 | from every reachable state the script, left alone, serves backups after at most Rank commands if and only if it does not come upon a position file that line 116 cannot read |
| SidecarTheorems.UnreadableWasCutOff | kubernetes/mysql.yaml:55-116 | only a clone that was cut off leaves such a file |
| Bootstrap.ComesUpFrom | kubernetes/mysql.yaml:41-139 | from every reachable state in which nothing is spoilt and no START SLAVE was missed, the commands of the scripts alone bring up every launched pod, serving and replicating |
| Bootstrap.ComesUp | kubernetes/mysql.yaml:16-139 | for every log and every number of replicas there is a run in which all of them come up and replicate |
| SidecarScript.Volume.Run | kubernetes/mysql.yaml:105-138 | the script in shell form, killed after any command, leaves exactly the volume that the machine computes; if mysqld never answers, nothing is renamed, configured or started |
| SidecarScript.Volume.DetermineCoordinates | kubernetes/mysql.yaml:107-120 | the same for the first conditional, the exit at line 116 included |
| SidecarScript.Volume.AwaitMysqld | kubernetes/mysql.yaml:124 | the wait loop changes nothing, and ends with the first answer of mysqld and not before |
| SidecarScript.Volume.StartReplication | kubernetes/mysql.yaml:126-135 | the rename and the two statements, cut off anywhere |
| SidecarScript.Volume.Clone | kubernetes/mysql.yaml:47-57 | clone-mysql in shell form, killed after any command, does what the machine computes |
| SidecarScript.LifeIsPlay | kubernetes/mysql.yaml:104-139 | a life of the container is a play of the machine the theorems are about |
| Ordinal.OrdinalOfHostName | kubernetes/mysql.yaml:25-26 | the leftmost match on name-digits yields the digits, whatever hyphens and digits the name has |
| Ordinal.MatchExact | kubernetes/mysql.yaml:25-26 | a host name has an ordinal if and only if it ends in a hyphen and digits, and then it is these |
| Ordinal.ScriptsFail | kubernetes/mysql.yaml:25-53 | exactly the host names for which both scripts fail |
| Ordinal.OctalOrdinal | kubernetes/mysql.yaml:29-55 | a leading zero makes the ordinal octal |
| Ordinal.PodIdentity | kubernetes/mysql.yaml:22-35 | pod i gets server id 100+i; exactly ordinal 0 is the master and skips the clone, and pod i clones from i-1 |
| Ordinal.ServerIdsDistinct | kubernetes/mysql.yaml:28-29 | server ids are distinct and not 0 |
| BinlogInfo.TwoColumns | kubernetes/mysql.yaml:115-119 | a line of file name and position is taken apart into the two |
| BinlogInfo.MatchExact | kubernetes/mysql.yaml:115-119 | exactly the lines that yield a given file name and position |
| BinlogInfo.ThirdColumn | kubernetes/mysql.yaml:115-119 | on a line with a third column the first group swallows the position |
| NgloySafety.VersionSkew | nginx-deploy/controllers/ngloy_controller.go:61-260 | over all faulty interleavings Service <= Deployment <= resource in versions; the Deployment has one container with the name of the resource and image, resources, replicas and ports of a spec the resource really had, and the Service the ports of such a spec |
| NgloySafety.VersionsGrow | nginx-deploy/controllers/ngloy_controller.go:77-151 | between any two moments of a run a child stays, and its version never goes back |
| NgloySafety.WriteOrderAlways | nginx-deploy/controllers/ngloy_controller.go:77-108 | the spec annotation is there only if both children are, and encodes the spec from which the Deployment was created |
| NgloySafety.WritesComeLate | nginx-deploy/controllers/ngloy_controller.go:62-148 | whatever fails, before which call of a run neither child and not the resource is written |
| NgloySafety.HandsOffForever | nginx-deploy/controllers/ngloy_controller.go:63-71 | whatever happens to a resource under deletion, or to a request for one that is gone, failed reads included, no child and no annotation is written; a request for one that is gone is retried for ever |
| NgloySafety.HandsOffCall | nginx-deploy/controllers/ngloy_controller.go:62-71 | a run that finds the resource under deletion succeeds at once, one that does not find it fails |
| NgloySafety.FailedReadGoesOn | nginx-deploy/controllers/ngloy_controller.go:61-82 | a run whose first read fails goes on with the zero object, fails one or two calls later and writes nothing |
| NgloySafety.CallEffect | nginx-deploy/controllers/ngloy_controller.go:58-154 | what any call can do to the tables, the observer's record and the next call |
| NgloySafety.MetadataKept | nginx-deploy/controllers/ngloy_controller.go:98-150 | every call preserves the metadata of existing children, and of the resource changes only the spec annotation, only in line 105 |
| NgloySafety.OtherKeysKept | nginx-deploy/controllers/ngloy_controller.go:62-148 | no call touches another key |
| NgloyConvergence.BasinLeftExact | nginx-deploy/controllers/ngloy_controller.go:77-152 | an event leads out of the convergent set if and only if it is a fatal call of the create branch, told from the state before it and its fault; none leads back in |
| NgloyConvergence.FatalFails | nginx-deploy/controllers/ngloy_controller.go:77-108 | a fatal call is always one that the controller sees fail, by a fault or a conflict |
| NgloyConvergence.BasinKept | nginx-deploy/controllers/ngloy_controller.go:77-152 | a run ends in the convergent set if and only if it started there and none of its calls was fatal |
| NgloyConvergence.NoReturn | nginx-deploy/controllers/ngloy_controller.go:77-152 | outside, no run leads back |
| NgloyConvergence.OneFaultCutsOff | nginx-deploy/controllers/ngloy_controller.go:77-130 | one rejected creation of the Service in the first run: whatever follows, there is never a Service, and the Deployment never follows an edit |
| NgloyConvergence.RestMeansMatch | nginx-deploy/controllers/ngloy_controller.go:58-154 | in every run from a fresh resource, an idle worker with an empty queue means that both children match the current spec |
| NgloyLiveness.RunOutcome | nginx-deploy/controllers/ngloy_controller.go:76-154 | what one run without a fault makes of the children and the annotation |
| NgloyLiveness.FailedReadOfDeployment | nginx-deploy/controllers/ngloy_controller.go:77-137 | an error at line 77 other than "not found" makes no difference if the Deployment exists, and otherwise the run fails without a write |
| NgloyLiveness.ConvergenceExact | nginx-deploy/controllers/ngloy_controller.go:76-154 | after two or more runs without a fault both children match if and only if the state was in the basin or nothing had to be written to existing children |
| NgloyLiveness.BasinExact | nginx-deploy/controllers/ngloy_controller.go:76-154 | a state is in the basin if and only if every edit of the resource is taken over within two runs |
| NgloyLiveness.LevelTriggered | nginx-deploy/controllers/ngloy_controller.go:93-151 | after a successful create and any edits and failing runs, one run without a fault makes both children match, while the annotation still encodes the creation |
| NgloyLiveness.WorkDrains | nginx-deploy/controllers/ngloy_controller.go:131-154 | without faults and edits every step of the worker decreases an explicit measure |
| NgloyLiveness.RestMeansBasin | nginx-deploy/controllers/ngloy_controller.go:105-154 | in every run from a fresh resource an idle worker has left a Service and an annotation that decodes |
| NgloyLiveness.WorkGood | nginx-deploy/controllers/ngloy_controller.go:58-154 | steps without a fault neither doom a run under way nor save it |
| NgloyLiveness.SelfTriggeringDiesOut | nginx-deploy/controllers/ngloy_controller.go:58-154 | once edits and faults stop, at any moment, nineteen steps bring the worker to rest, with matching children, if and only if the state is in the convergent set and no create run is under way on a resource edited since; otherwise it never rests |
| NgloyReconciler.Controller.Reconcile | nginx-deploy/controllers/ngloy_controller.go:58-154 | Reconcile in imperative form, with edits before and a fault at every call, ends in the store, result and wake-up that the machine computes; a resource under deletion or gone leaves the children and annotations alone |
| NgloyReconciler.Controller.ReconcileRead | nginx-deploy/controllers/ngloy_controller.go:76-154 | the same from the read of the Deployment |
| NgloyReconciler.Controller.CreateBranch | nginx-deploy/controllers/ngloy_controller.go:77-92 | the same from the first create |
| NgloyReconciler.Controller.AnnotateBranch | nginx-deploy/controllers/ngloy_controller.go:93-108 | the same for the annotation |
| NgloyReconciler.Controller.UpdateBranch | nginx-deploy/controllers/ngloy_controller.go:131-141 | the same for the update of the Deployment |
| NgloyReconciler.Controller.UpdateServiceBranch | nginx-deploy/controllers/ngloy_controller.go:142-150 | the same for the update of the Service |
| NgloyReconciler.PlayIsRun | nginx-deploy/controllers/ngloy_controller.go:58-154 | a run of Reconcile is a run of the machine the theorems are about |
| NgloyChildren.NewContainers | nginx-deploy/controllers/ngloy_controller.go:204-224 | the loop over one reused variable yields one container, with the name of the resource, image and resources of the spec, and port i from entry i |
| NgloyChildren.ChildSpecsExact | nginx-deploy/controllers/ngloy_controller.go:170-260 | field by field, exactly which Deployment and which Service a spec asks for |
| NgloyMachine.MatchesExact | nginx-deploy/controllers/ngloy_controller.go:170-260 | what it means that the stored children match, field by field |
| NgloyChildren.CreatedMeta | nginx-deploy/controllers/ngloy_controller.go:170-248 | key, labels and annotations of new children; their owner references do not name the group of the resource |
| NgloyChildren.ChildrenDetermineSpec | nginx-deploy/controllers/ngloy_controller.go:188-260 | the two child specs together determine the whole spec |
| NgloyChildren.ArrivesExact | nginx-deploy/controllers/ngloy_controller.go:204-260 | exactly which target ports lead, through the Service's own ports and selector, to the container port of their own entry |
| NgloyChildren.OwnNameArrives | nginx-deploy/controllers/ngloy_controller.go:204-260 | with unique names a target that names its own entry does |
| NgloyChildren.SelectsOwnPods | nginx-deploy/controllers/ngloy_controller.go:170-259 | a Service and a Deployment select the pods of their own resource and of no other |
| SpecJson.AnnotationRoundTrip | nginx-deploy/controllers/ngloy_controller.go:93-130 | decoding the written annotation gives the spec back, up to absent and empty slices and maps, so the gate accepts it |
| SpecJson.AnnotationFaithful | nginx-deploy/controllers/ngloy_controller.go:93-103 | equal annotations mean equal specs up to that |
| SpecJson.AnnotationText | nginx-deploy/api/v1/ngloy_types.go:37-42 | the tags of the four fields, their order, and ports left out when empty |
| SpecJson.NoAnnotation | nginx-deploy/controllers/ngloy_controller.go:127-130 | a missing annotation does not decode |
| SpecJson.GateExact | nginx-deploy/controllers/ngloy_controller.go:127-130 | exactly the texts that decode: JSON as a whole, null or an object, each known field null or of its type |
| SpecJson.GateRejects | nginx-deploy/controllers/ngloy_controller.go:127-130 | texts that are no JSON, a spec followed by something else, and a size that is a string do not decode |
| SpecJson.PortTags | nginx-deploy/api/v1/ngloy_types.go:37-42 | under which names a port is written, and when |
| Json.PrintParse | nginx-deploy/controllers/ngloy_controller.go:93-128 | every JSON value with integer numbers survives writing and reading, with the escapes of section 7 of RFC 8259 |
| Json.PrintParseRest | nginx-deploy/controllers/ngloy_controller.go:128 | a written value followed by anything but white space is rejected |
| Json.StringRejected | nginx-deploy/controllers/ngloy_controller.go:128 | control characters and unknown escapes in a string are rejected |
| Json.QuotedIsSafe | nginx-deploy/controllers/ngloy_controller.go:93 | a quoted string holds no control character, nothing special in HTML, and no unescaped quotation mark |
| Json.StringRead | nginx-deploy/controllers/ngloy_controller.go:93-128 | every string survives quoting, whatever follows it |
| PromMachine.KeysConserved | operator/controllers/prom_controller.go:58-123 | the controller never creates or removes an object: after every run there are exactly the objects that others left |
| PromMachine.GoneIsLeftAlone | operator/controllers/prom_controller.go:59-68 | for a resource under deletion or gone the store is, after every run, exactly what others made of it |
| PromMachine.SuccessExact | operator/controllers/prom_controller.go:58-123 | in every run, a Reconcile returns without an error if and only if it annotated the resource, or wrote the Deployment and the Service, all acknowledged, or found the resource under deletion |
| PromMachine.ServiceAfterDeployment | operator/controllers/prom_controller.go:109-118 | the Service is written only in a Reconcile whose update of the Deployment was acknowledged |
| PromMachine.WritesComeLate | operator/controllers/prom_controller.go:59-118 | the same for the Prom controller: every write comes after its reads |
| PromMachine.SuccessMeansMatch | operator/controllers/prom_controller.go:101-121 | among no deeds of others, for every sequence of faults, success without a write of the resource means that both children match |
| PromMachine.ChildWrites | operator/controllers/prom_controller.go:103-120 | exactly when a call writes a child, and what, field by field |
| PromMachine.MatchesExact | operator/controllers/prom_controller.go:126-204 | what it means that the stored children match, field by field |
| PromMachine.AnnotationExact | operator/controllers/prom_controller.go:72-95 | in every run, the next call writes the resource if and only if, in the Reconcile under way, line 72 found no Deployment, lines 75 and 80 found both children, the write is not rejected, and nobody edited the resource since |
| PromMachine.AppliedInBetween | operator/controllers/prom_controller.go:72-95 | a run without any fault that annotates, because both children are applied between lines 72 and 75 |
| PromMachine.AnnotationFrozen | operator/controllers/prom_controller.go:72-95 | as long as no call fails and nobody applies a Deployment, the annotation never changes |
| PromMachine.ConvergesAfterAnnotation | operator/controllers/prom_controller.go:92-121 | once line 92 took effect, and whatever happens then, a run without a fault makes both children match the last spec if and only if both exist |
| PromJson.AnnotationDecodesToNothing | operator/controllers/prom_controller.go:84-100 | what line 92 writes passes the gate of line 98, and decodes to the empty spec, for every spec |
| PromJson.SpecTextRoundTrip | operator/controllers/prom_controller.go:84 | the text that line 92 writes gives the spec back when it is read as a spec, up to absent and empty parts |
| PromJson.PromTags | operator/api/v1/prom_types.go:34-38 | under which names a spec is written, and when |
| PromJson.PromAnnotationFaithful | operator/controllers/prom_controller.go:84-91 | equal annotations mean equal specs up to that |
| PromJson.Converges | operator/controllers/prom_controller.go:84-121 | the convergence after the annotation, for the texts that the controller really writes |
| PromMachine.QuietRun | operator/controllers/prom_controller.go:58-123 | without faults nothing changes unless the Deployment exists and the annotation decodes, and then exactly what |
| PromMachine.ConvergenceExact | operator/controllers/prom_controller.go:58-123 | a run without a fault makes both children match if and only if both and a decodable annotation exist, or they match already |
| PromMachine.UpdateFrame | operator/controllers/prom_controller.go:85-120 | the Deployment keeps its metadata, the Service is replaced as a whole, and of the resource only the spec annotation changes, all others and the labels kept |
| PromReconciler.Line92Exact | operator/controllers/prom_controller.go:58-92 | a Reconcile reaches line 92 if and only if line 59 finds a live resource, line 72 no Deployment, and lines 75 and 80 both children, told from the faults and the deeds of others before each call |
| PromReconciler.PlayIsRun | operator/controllers/prom_controller.go:55-124 | a run of Reconcile is a run of the machine the theorems are about |
| PromReconciler.Controller.Reconcile | operator/controllers/prom_controller.go:55-124 | Reconcile in imperative form, with deeds of others before and a fault at every call, ends in the store and result that the machine computes |
| PromReconciler.Controller.MissingBranch | operator/controllers/prom_controller.go:73-96 | the same from the failed read of the Deployment |
| PromReconciler.Controller.UpdateBranch | operator/controllers/prom_controller.go:101-111 | the same for the update of the Deployment |
| PromReconciler.Controller.UpdateServiceBranch | operator/controllers/prom_controller.go:112-121 | the same for the update of the Service |
| PromChildren.NewContainers | operator/controllers/prom_controller.go:159-177 | the loop yields one container, with the name of the resource, image, resources and environment of the spec, and port i from the target of entry i |
| PromChildren.ChildSpecsExact | operator/controllers/prom_controller.go:126-204 | field by field, exactly which Deployment and which Service a Prom asks for |
| PromChildren.SelectsOwnPods | operator/controllers/prom_controller.go:127-201 | a Service and a Deployment select the pods of their own resource and of no other |
| PromChildren.CreatedMeta | operator/controllers/prom_controller.go:134-195 | key, labels and annotations of the children; their owner references do not name the group of the resource |
| PromChildren.ChildrenDetermineSpec | operator/controllers/prom_controller.go:126-204 | the two child specs together determine the whole spec |
| PromChildren.ArrivesExact | operator/controllers/prom_controller.go:159-204 | exactly which target ports lead, through the Service's own ports and selector, to the container port of their own entry |
| DeepCopy.DeepCopyList | operator/api/v1/zz_generated.deepcopy.go:56-77 | nil for nil; otherwise an equal list on new, unshared cells and arrays, with the original unchanged |
| DeepCopy.CopyItems | operator/api/v1/zz_generated.deepcopy.go:60-66 | the loop over the items: equal values, fresh footprints, no two of which meet |
| DeepCopy.CopyProm | operator/api/v1/zz_generated.deepcopy.go:29-35 | an equal Prom on fresh cells, no two of its parts sharing one |
| DeepCopy.CopySpec | operator/api/v1/zz_generated.deepcopy.go:88-110 | the same for a spec |
| DeepCopy.CopyEnvs | operator/api/v1/zz_generated.deepcopy.go:96-102 | nil stays nil, otherwise a fresh array with fresh cells and equal values |
| DeepCopy.CopyPorts | operator/api/v1/zz_generated.deepcopy.go:103-109 | the same for ports |
| DeepCopy.PromKept | operator/api/v1/zz_generated.deepcopy.go:28-35 | a value changes only with the cells it owns, so writes through a copy never show in the original |

## Left out

- MySQL, xtrabackup, ncat and bash beyond the stated effect of each command. The cluster model takes the position file as already parsed, or as one that line 116 cannot parse.
- DeepCopy.DeepCopyList: of the metadata and status of Kubernetes only two maps and one pointer are kept, as in CopyProm; the list's own metadata is one string.
- DeepCopy.CopySpec: the source of an environment variable is one cell, as in CopyEnvs.
- DeepCopy.CopyEnvs: `valueFrom` points to a string instead of a struct of pointers; copying that struct is code of the Kubernetes packages, of which only the promise is modelled.
- DeepCopy.CopyProm: Go writes through a pointer to the target, here the copy is returned and then stored; the metadata and status types of Kubernetes are cut down to two maps and one pointer, and the copies that the Kubernetes packages supply are modelled by what they promise.
- SpecJson.GateExact: the numeric form of an integer is decided on its text, as for AnnotationRoundTrip; texts of quantities are not checked.
- SpecJson.AnnotationRoundTrip: quantities are kept as their canonical text, field names are matched exactly, and the nesting limit of the decoder is not modelled.
- NgloyLiveness.SelfTriggeringDiesOut: the back-off between retries is not modelled, only the queue.
- PromJson.AnnotationDecodesToNothing: which values the decoder takes for metadata and status is a parameter; environment variables have no `valueFrom`, and field names are matched exactly.
- Finalizers and garbage collection, a deletion in the middle of a Reconcile, stale caches, cluster IPs, defaulting, validation and status of the API server.
- `DeepCopyObject`, the single `DeepCopy` of a spec or status, and the deep copy of the Ngloy types: the same shape again.
- The IP handling programs, the web service and all other manifests: thin glue over libraries that are not shown.
