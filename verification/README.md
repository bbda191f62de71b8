# Verification of the Verda infrastructure provider

This project models the parts of the Verda Cluster API provider whose correctness is hardest to see
from the code, in Dafny, and proves properties of every run, every input and every interleaving of
them.

**Ownership of cloud instances.** A machine owns one instance, a cluster up to two (the control plane
and the service load balancer). The owner knows its instance through an ID in a status that is
patched at the end of a reconcile and may be lost, and through a tag in the cloud. `CloudApi` is the
cloud as an abstract machine in which a call may take effect and still fail. `Reconcile` is one
reconcile of a machine or a cluster cut at its cloud calls, `Protocol` the life of one object with
crashes and lost patches at any point, `Fleet` any number of owners interleaved call by call with
each other and with everything else that happens in the account. `Ownership`, `Targets`,
`Provisioning`, `StartupScripts` and `SourceVolume` prove what every step keeps, `Leftovers` what is
left when a finalizer goes, `Retry` what a lookup finds after the retry for lack of capacity.
`Draining` is one reconcile of a deletion, `Finalizing` shows that deletions end. `ServiceOff` says what
becomes of a disabled load balancer. `Shortfalls` has executions that end where the code falls short.
`Controller` holds the reconcilers in their imperative form; a ghost log shows that each of their executions is a
run of the protocol, and `Reconciler` draws the conclusion.

**Ports of the shared load balancer.** `Allocator` is the loop that hands out ports, `Greedy` says
what the result means without the loop, `Removal` what removing a service does to the others,
`Listeners` that listeners differ in port and in name, `ServiceSync` the object that synchronises the
load balancer under a mutex.

**Scripts.** `Base64`, `Shell` (an interpreter for the part of the POSIX shell language that is
generated, down to characters), `Quoting` and `Chunks` give generated text a meaning. `CloudConfig`,
`Bootstrap` and `Sections` are the translation of cloud-config to bash, `Packing` the compression of
long scripts, `Install` the script that replaces configuration files on a load balancer, `Cutting` what
is left of it when the connection breaks at any byte.

**Credentials.** `Credentials` is the cache of cloud clients.

## Hypotheses

- Every read of an object by its reconciler is current, and one object has one reconcile at a time.
  A new object of the same name is created only when no reconcile of the old one is in flight.
- Owners are told apart by tag and by hostname (`Fleet.Separate`). Tags are cut at 127 characters and
  hostnames carry no namespace, so this is not automatic: `Owners.TagValueInjective` gives a
  sufficient condition for tags, `Owners.LongNamesCollide` shows that it is needed.
- A listing of instances shows a gone instance only as `discontinued`. The tag lookup treats
  `deleted` as live, while the controllers treat it as gone; `Client.DeletedRowHidesLive` shows what
  would happen, `Client.TagLookupFindsLiveUnlessShadowed` says exactly when.
- What is gone stays gone, numbers are not used again, and tags do not change. There is one account.
- A call takes effect, if at all, before it is reported, and listings are current.
- The deferred patch sends metadata, status and conditions separately, and any of them may be lost. Only
  `Fleet.ReadyMeansRunning` needs that status and conditions arrive together or not at all:
  `Provisioning.SplitPatchMisleads` and `Shortfalls.ReadyCanMislead` show that it does.
- `spec.image` names an image, not a volume, so that only a clone is ever booted from.
- In `Draining` and `Finalizing`, a machine's clone carries the managed tag: the client refuses to
  delete one that does not, and only a live machine's reconcile adds the tag.
- In `Finalizing` and `ServiceOff`, what carries a tag of an owner at the start is managed; everything
  an owner creates is.
- Executing the file that a packed script writes runs its content (`Packing.Executes`).
- `deleteRequestDue` counts in whole seconds of a clock that is read through `ReadClock`.
- The API server lists a service under one namespace and name, namespaces have no slash, and no
  service lists a port and protocol twice.
- Gzip data begins with the two bytes of section 2.3.1 of RFC 1952; gunzip undoes gzip.
- Script text is a sequence of bytes, a character standing for one of them.
- Text that ends too early is read as bash reads it: within quotes or after a redirection operator it is
  a syntax error, an unfinished last line is run, and a here-document ends with the text. A script that
  is cut off has nothing more to read on its standard input.
- In `Leftovers.CloneLetGo`, the cloud does not take back a volume that it is deleting.

## Where the code falls short of what it seems to promise

- A gzip entry of `write_files` never works: the here-document becomes the input of `gunzip`, which
  finds base64 text. `Bootstrap.CompletesIffNoGzip`: where nothing else fails, the script gets past
  its files if and only if no entry is gzip.
- Removing a service can take another service's ports away: `Greedy.RemovalCanReject` has three
  services for which it does. `Removal.RejectedRemovalChangesNothing`: never if the removed service had
  no ports. `Removal.LosesIffPushedOut`: a service loses its ports if and only if an older one, newly
  granted, asks for one of them. `Removal.SafeRemoval` is a condition on the listing alone.
- Disabling the service load balancer leaves its instance running if the status patch after its
  creation was lost: `Shortfalls.DisablingCanMiss` is such an execution. `ServiceOff.DisablingActsIff`:
  a reconcile looks after the instance if and only if the status has an instance or an address.
  `ServiceOff.DisablingForgets`: otherwise nothing touches it until the load balancer is enabled again
  or the cluster is deleted.
- A retry for lack of capacity forgets the instance ID only: `Retry.RetryFindsOld` shows that lookups
  find the old instance by its tag until the cloud has removed it.
- Ready can be stored without the status that goes with it if half of a patch is lost:
  `Shortfalls.ReadyCanMislead` is such an execution, `Provisioning.SplitPatchMisleads` the condition.
- A deletion of an instance acts on the list of volumes it read before: a volume detached in between may
  be deleted all the same. `Shortfalls.DetachedCanBeLost` is such an execution,
  `SourceVolume.DeletionSparesIff` the condition; hence the condition on lists in `Fleet.SourceSurvives`.
- The script that installs files can empty a target when the connection breaks: bash runs the unfinished
  last line. `Cutting.CutWhole`: if and only if it breaks right after the target's path in the line that
  writes its temporary file, where no path begins another; `Cutting.CutAnywhere` is the general condition.

## Model

| member | source | states |
|---|---|---|
| Owners.TagValueInjective | internal/controller/verdamachine_controller.go:665-674 | two owners whose names are plain and short enough have the same tag value only if namespace and name agree |
| Owners.LongNamesCollide | internal/controller/verdamachine_controller.go:669-674 | past the length limit any two names with the same beginning share a tag value |
| Client.FindInstanceByTag | internal/cloud/client.go:233-255 | the scan returns the first match that is not discontinued, or else the last discontinued one |
| Client.TagLookupExact | internal/cloud/client.go:233-255 | on a listing of the account the lookup finds a live match if there is one, and finding none or a gone one means that nothing live carries the tag |
| Client.TagLookupFindsLiveUnlessShadowed | internal/cloud/client.go:233-255 | with a live match listed, the answer is gone if and only if a `deleted` match precedes every kept one |
| Client.DeletedRowHidesLive | internal/cloud/client.go:245-248 | a `deleted` row listed first hides a running instance |
| Client.InstanceVolumeIDs | internal/cloud/client.go:384-400 | the boot volume first, then the others, each once: exactly the volumes the instance lists |
| Client.AddEach | internal/cloud/client.go:385-399 | collecting with a set of those seen keeps each ID at its first place |
| Client.ScriptsNamed | internal/cloud/client.go:444-458 | exactly the scripts of a listing that have the name |
| Client.VolumeNamed | internal/cloud/client.go:481-492 | the first listed volume of that name, nothing if there is none |
| CloudApi.AnswersEvolve | internal/cloud/client.go:257-332 | whatever a call does, numbers stay fresh, gone instances stay gone with their volumes, names and tags stay |
| Ownership.LookupLearns | internal/controller/verdamachine_controller.go:350-375 | an error-free lookup by ID or tag that finds nothing, or something gone, means that nothing live carries the tag; one that finds an instance finds the only one that can be live |
| Ownership.StepKeepsInv | internal/controller/verdamachine_controller.go:217-375 | every step of an owner, crashes and lost patches included, keeps: one live instance per tag at most, it is the recorded one if one is recorded, and none without a finalizer |
| Ownership.RelyKeepsInv | internal/cloud/client.go:233-255 | so does everything that others do in the account |
| Ownership.StepIsForeign | internal/controller/verdamachine_controller.go:397-417 | a step of one owner never creates an instance with the tag, or a script with the hostname, of another |
| StartupScripts.StepKeepsScripts | internal/cloud/client.go:257-332 | whichever call inside a creation fails, a hostname never has two startup scripts |
| Provisioning.StepKeepsStatus | internal/controller/verdamachine_controller.go:217-348 | every step keeps: provisioned implies a recorded instance and, as long as status and conditions arrive together, ready implies provisioned and last seen running, at every exit |
| Provisioning.SplitPatchMisleads | internal/controller/verdamachine_controller.go:635-654 | a patch is sure to keep that meaning of ready if and only if its status and its conditions arrive together or not at all |
| Shortfalls.ReadyCanMislead | internal/controller/verdamachine_controller.go:635-654 | for every machine an execution, from nothing, that ends with it stored as ready though its status says neither provisioned nor running |
| Provisioning.ProvisionedForever | internal/controller/verdamachine_controller.go:220-222 | one step from a provisioned object to a stored one keeps it provisioned with the same instance |
| Provisioning.ProvisionedNeverCreates | internal/controller/verdamachine_controller.go:220-222 | no reconcile that started on a provisioned object creates an instance, clones a volume or adds a script |
| Targets.StepKeepsTargets | internal/controller/verdamachine_controller.go:577-625 | every step keeps: what is deleted or purged carries the owner's tag and is gone where it must be, and a slot is torn down only when every volume of its recorded instance is released |
| Targets.DestroysOnlyOwn | internal/cloud/client.go:344-382 | a shutdown or delete call hits only a managed instance with the caller's own tag |
| SourceVolume.StepSparesSource | internal/controller/verdamachine_controller.go:420-543 | no step of an owner changes or destroys a volume that is on no managed instance, is not named like the clone and is in no list the owner holds |
| SourceVolume.StepKeepsNumbers | internal/controller/verdamachine_controller.go:420-543 | every step keeps: an object or a run names no volume number that is not given out yet, and outside the lists of a deletion none but volumes named like its clone |
| SourceVolume.DeletionSparesIff | internal/cloud/client.go:344-382 | a delete call is sure to spare a volume if and only if the list it sends does not have it |
| Shortfalls.DetachedCanBeLost | internal/cloud/client.go:344-382 | for every machine an execution that reaches a volume on no managed instance and not named like a clone, which the next call of the machine takes away |
| Fleet.NextKeepsInv | internal/controller/verdamachine_controller.go:113-193 | with many owners, one step of any of them or of the world keeps all the invariants of all of them |
| Fleet.ExecutionInv | internal/controller/verdamachine_controller.go:113-193 | so every state of every execution has them |
| Fleet.OneInstancePerTag | internal/controller/verdamachine_controller.go:236-279 | in every reachable state and for every slot of a machine or a cluster, at most one live instance carries the tag, the recorded one if any, and a hostname has one script at most |
| Fleet.NothingLeftBehind | internal/controller/verdamachine_controller.go:577-625 | without a finalizer, or without the object, no tag of the owner has a live instance, and a recorded instance still listed has all its volumes deleted or absent |
| Fleet.OnlyOwnInstancesDestroyed | internal/cloud/client.go:344-382 | in every execution, calls that destroy an instance hit the caller's own managed one |
| Fleet.ProvisionedStays | internal/controller/verdamachine_controller.go:217-348 | over any stretch of an execution in which the object is there, a provisioned machine stays provisioned with its instance, and its reconciles create, clone and add nothing |
| Fleet.ReadyMeansRunning | internal/controller/verdamachine_controller.go:280-348 | in every reachable state, as long as status and conditions were patched together, ready implies provisioned and last seen running, in the stored object and in memory |
| Fleet.SourceSurvives | internal/controller/verdamachine_controller.go:420-543 | from any point of an execution at which a volume is on no managed instance, not named like a clone and in no list of a deletion in flight, no owner changes or destroys it, as long as nobody else attaches it to a managed instance |
| Fleet.UploadSurvives | internal/controller/verdamachine_controller.go:420-543 | for a volume that somebody makes while the controllers run, this holds from then on without the condition on lists |
| Fleet.NumbersAlways | internal/controller/verdamachine_controller.go:420-543 | in every execution no object or run names a volume number not given out yet, nor, lists aside, a volume not named like its clone |
| Leftovers.CloneLetGo | internal/controller/verdamachine_controller.go:493-522 | in every execution, from the call after which a machine gives its finalizer up, its recorded clone is absent, being deleted, deleted or named otherwise, for good |
| Leftovers.ScriptsLetGo | internal/controller/verdamachine_controller.go:610-618 | in every execution, once a reconcile has given up the finalizer of a machine whose status has no script ID, no startup script of the hostname is left |
| Leftovers.CurrentScriptLetGo | internal/controller/verdamachine_controller.go:610-615 | in every execution, if at some point the status of a machine being deleted has the ID of the current script, then whenever a later reconcile gives the finalizer up no script of the hostname is left |
| Retry.RetryFindsOld | internal/controller/verdamachine_controller.go:291-301 | in every execution, after the ID was cleared and until a new instance is created, an error-free lookup returns exactly the old instance while it is not gone, and nothing afterwards |
| Retry.OnlyRetryClears | internal/controller/verdamachine_controller.go:291-301 | no other part of a machine's reconcile clears the ID |
| Shortfalls.DisablingCanMiss | internal/controller/verdacluster_controller.go:171-187 | for every cluster an execution, from nothing, that ends with the service load balancer disabled, its instance live and a reconcile to come that does nothing about it |
| ServiceOff.DisablingActsIff | internal/controller/verdacluster_controller.go:166-187 | in every execution, with the load balancer disabled while its instance is live, and with or without a control plane load balancer: an error-free reconcile asks for the deletion of that instance, or waits for one, if and only if the status has an instance or an address |
| ServiceOff.SmoothRunExists | internal/controller/verdacluster_controller.go:166-187 | such a reconcile exists unless another instance has the hostname of the control plane load balancer |
| ServiceOff.DisablingForgets | internal/controller/verdacluster_controller.go:171-187 | with neither in the status and no reconcile in flight, however the execution goes on, no step of the cluster touches any instance there is until the load balancer is enabled again or the cluster is deleted |
| Draining.RoundFalls | internal/controller/verdamachine_controller.go:585-596 | a reconcile without errors, when a request is due, brings an instance that is up to offline and an offline one to deleting or gone |
| Draining.RoundWaits | internal/controller/verdamachine_controller.go:585-596 | while the cloud is deleting, a reconcile makes one call, the lookup, and changes nothing in the cloud |
| Draining.RoundEmpties | internal/controller/verdamachine_controller.go:597-625 | with the instance gone the finalizer goes if and only if no volume is pending, and pending volumes stay as they are |
| Finalizing.RoundFinishes | internal/controller/verdamachine_controller.go:577-625 | however many calls an error-free reconcile of a deletion has made, its next call can be answered and it can be completed, in at most as many calls as the variant says |
| Finalizing.RoundExists | internal/controller/verdamachine_controller.go:577-625 | so a whole reconcile exists, with at most 7 calls more than there are volumes and scripts |
| Finalizing.OursAgain | internal/controller/verdamachine_controller.go:577-625 | as long as the finalizer is there, where a reconcile leaves off, after whatever others do, the next one can start |
| Finalizing.RoundProgress | internal/controller/verdamachine_controller.go:577-625 | a reconcile that keeps the finalizer, and what the cloud does after it, lower the distance: height of the instance first, then pending volumes |
| Finalizing.DeletionEnds | internal/controller/verdamachine_controller.go:577-625 | of any error-free reconciles in a row, the first starting where a deletion can start, one of the first distance + 1 takes the finalizer away |
| Finalizing.DeletionCompletes | internal/controller/verdamachine_controller.go:577-625 | whatever a cooperating cloud does in between, there are such reconciles, no more of them than distance + 1, of which the last takes the finalizer away |
| Finalizing.SomeCloudCooperates | internal/controller/verdamachine_controller.go:577-625 | there are clouds that cooperate in this sense |
| Finalizing.DeletionStarts | internal/controller/verdamachine_controller.go:577-584 | in every execution a machine being deleted whose clone is tagged is where a deletion can start |
| Controller.Scope.FindInstance | internal/controller/verdamachine_controller.go:350-375 | the lookup by status ID or tag is made, by calls alone, and leads where the protocol says |
| Controller.Scope.ResyncInstance | internal/controller/verdamachine_controller.go:319-348 | refreshing a provisioned machine follows the protocol to its end, by calls alone |
| Controller.Scope.ResolveOSVolume | internal/controller/verdamachine_controller.go:524-543 | the source is taken by number, then by name if it is an OS volume, as in the protocol, by calls alone |
| Controller.Scope.EnsureOSVolume | internal/controller/verdamachine_controller.go:420-474 | finding, cloning, tagging and judging the clone follows the protocol, by calls alone; only a detached clone leads on to creation |
| Controller.Scope.EnsureOSVolumeTag | internal/controller/verdamachine_controller.go:476-491 | tagging later on, by calls alone, changes the ready mark only, and failures do not stop the reconcile |
| Controller.Scope.DeleteStartupScriptByName | internal/cloud/client.go:444-458 | the loop follows the protocol by calls alone: it succeeds where every script of the hostname was deleted and stops at the first failure |
| Controller.Scope.CreateInstance | internal/cloud/client.go:257-332 | hostname check, old scripts, new script, instance, and the cleanup of the script when that fails, in protocol order, by calls alone |
| Controller.Scope.PurgeInstanceVolumes | internal/cloud/client.go:402-442 | trashed volumes are destroyed and the rest counted, by calls alone; the count decides as in the protocol |
| Controller.Scope.PurgeVolumes | internal/cloud/client.go:416-441 | the loop over the volumes follows the protocol volume by volume, by calls alone |
| Controller.Scope.DeleteInstance | internal/cloud/client.go:344-382 | the two-phase deletion, by status, as in the protocol, by calls alone |
| Controller.Scope.RequestDeletion | internal/controller/verdamachine_controller.go:79-96 | a request is made if none was noted for this state in the last 20 seconds, and is noted; otherwise nothing is noted |
| Controller.Scope.Teardown | internal/controller/verdacluster_servicelb.go:171-205 | one slot: wait, ask, purge, forget scripts, by calls alone, and say whether it is done |
| Controller.Scope.ReconcileMachine | internal/controller/verdamachine_controller.go:217-317 | the reconcile of a live machine follows the protocol to its end by calls alone; it gives up, before any call, exactly if the machine is not provisioned and has to wait |
| Controller.Scope.DeleteOSVolume | internal/controller/verdamachine_controller.go:493-522 | the clone is destroyed only under its own name, when managed, and then forgotten, by calls alone |
| Controller.Scope.ReconcileMachineDelete | internal/controller/verdamachine_controller.go:577-625 | the reconcile of a machine being deleted follows the protocol to its end, by calls alone |
| Controller.Scope.EnsureBalancer | internal/controller/verdacluster_servicelb.go:54-114 | finding or creating a load balancer and recording it follows the protocol, by calls alone |
| Controller.Scope.ReconcileCluster | internal/controller/verdacluster_controller.go:166-196 | the control plane load balancer first, then the service load balancer or its removal, by calls alone |
| Controller.Scope.ReconcileClusterDelete | internal/controller/verdacluster_controller.go:451-495 | the service slot, then the control plane slot, then the finalizer, by calls alone |
| Controller.World.Patch | internal/controller/verdamachine_controller.go:635-654 | the deferred patch writes metadata, status and conditions by three requests, any of which may be lost |
| Controller.ReconcileAndPatch | internal/controller/verdamachine_controller.go:113-193 | one reconcile adds to the log exactly the finalizer step, or the load, then calls until the run is at its end, then the patch; nothing for an object that is gone |
| Reconciler.LogKeepsInv | internal/controller/verdamachine_controller.go:113-193 | what the protocol keeps holds at every point of every log of a controller |
| Reconciler.ReconcileOnce | internal/controller/verdamachine_controller.go:113-193 | a reconcile takes exactly those steps and ends in a state with all the invariants, if the log began in one |
| Allocator.Frontends | internal/ccm/loadbalancer.go:204-260 | the nested loops compute the allocation of the services in an order sorted by age and key, equal ones in any order |
| Allocator.Collect | internal/ccm/loadbalancer.go:218-250 | one service's frontends, or the reason its first port in trouble gives |
| Allocator.Claim | internal/ccm/loadbalancer.go:254-256 | the slots of the service are taken in its name, the others stay |
| Greedy.AllocateIsGreedy | internal/ccm/loadbalancer.go:213-259 | frontends are those of the granted services in order; exactly the others are reported, each for a true reason: an unusable port, or a slot of an older granted service; slots are held by granted services only |
| Greedy.OneStableSet | internal/ccm/loadbalancer.go:204-260 | the granted services are the one set such that a service is in it exactly if its ports are usable and free of every older service in it |
| Greedy.ListingOrderIrrelevant | internal/ccm/loadbalancer.go:205-211 | two listings of the same services with distinct keys, in whatever order, give the same frontends and conflicts |
| Greedy.OlderServicesDecide | internal/ccm/loadbalancer.go:204-260 | services that agree up to one service give it the same outcome |
| Greedy.RemovalCanReject | internal/ccm/loadbalancer.go:204-260 | three services where removing the oldest costs the youngest its port |
| Removal.RejectedRemovalChangesNothing | internal/ccm/loadbalancer.go:204-260 | removing a service that had no ports leaves the frontends as they are and the conflicts without its own |
| Removal.LosesIffPushedOut | internal/ccm/loadbalancer.go:204-260 | after a removal, a service that had its ports loses them if and only if an older one that had none is now granted and shares a slot with it |
| Removal.SafeRemoval | internal/ccm/loadbalancer.go:204-260 | a service keeps its ports if no usable service between the removed one and it asks for a slot of it |
| Removal.SortWithout | internal/ccm/loadbalancer.go:205-211 | the sorted order of the remaining services is the old one with one taken out |
| Greedy.SlotInjective | internal/ccm/loadbalancer.go:232 | the text of a slot gives back port and protocol |
| Listeners.EmittedDistinct | internal/ccm/loadbalancer.go:251-257 | no two frontends share a slot if and only if no granted service asks for one twice |
| Listeners.EmittedFrom | internal/ccm/loadbalancer.go:237-257 | every frontend is that of a port of a granted service |
| Listeners.NameTellsSlot | internal/ccm/loadbalancer.go:262-272 | equal frontend names mean equal port and protocol, whatever the services are called |
| Listeners.NamesDistinct | internal/ccm/loadbalancer.go:262-272 | no two frontends share a name |
| Listeners.SanitizeCollides | internal/ccm/loadbalancer.go:270-272 | sanitised namespace and name alone do not tell services apart |
| ServiceSync.BackendNodes | internal/ccm/loadbalancer.go:182-202 | the addresses of the nodes that serve, sorted |
| ServiceSync.Gather | internal/ccm/loadbalancer.go:146-163 | the listed services that take part, then the current one as passed in |
| ServiceSync.KeptMembers | internal/ccm/loadbalancer.go:150-160 | a listed service is kept exactly if it is balanced, not being deleted, not skipped and not the current one |
| ServiceSync.ServiceBalancer.Sync | internal/ccm/loadbalancer.go:133-180 | succeeds exactly if both listings are read, the current service wins its ports and the files arrive; what is sent is the allocation; every configuration ever sent has distinct slots |
| ServiceSync.ServiceBalancer.EnsureLoadBalancer | internal/ccm/loadbalancer.go:79-96 | after success the allocation is installed and each port of the service has exactly one listener; on a conflict nothing is sent, otherwise exactly the allocation is |
| ServiceSync.ServiceBalancer.EnsureLoadBalancerDeleted | internal/ccm/loadbalancer.go:98-107 | after success with a load balancer, what is installed comes from other services only; without its secret nothing is sent |
| Base64.WrapBase64 | internal/bootstrap/cloudconfig.go:358-369 | lines of 76 characters, the last one shorter, each ended |
| Base64.WrapLength | internal/bootstrap/cloudconfig.go:358-369 | wrapping n characters adds max(1, ceil(n / 76)) |
| Base64.DecodeWrapEncode | internal/bootstrap/cloudconfig.go:326 | decoding the wrapped encoding gives the bytes back |
| Base64.EncodeIs | internal/bootstrap/cloudconfig.go:326 | the encoding of g bytes has 4 * ceil(g / 3) characters of the alphabet or padding |
| Quoting.LexQuoted | internal/bootstrap/cloudconfig.go:371-376 | the shell reads a quoted string, quotes and line ends inside included, as one word that is the string |
| Quoting.LexLine | internal/bootstrap/cloudconfig.go:324-333 | a line written from words and operators is read back as those tokens |
| CloudConfig.CommandShell | internal/bootstrap/cloudconfig.go:98-107 | a single element as it is, otherwise the quoted elements joined by blanks |
| CloudConfig.ArgumentsSurvive | internal/bootstrap/cloudconfig.go:98-107 | for every argument list of length other than one the shell takes the line apart into exactly the arguments |
| CloudConfig.WriteFileScript | internal/bootstrap/cloudconfig.go:305-335 | fails exactly on an empty path or undecodable content, otherwise appends the text of the entry |
| Chunks.ReadWrapped | internal/bootstrap/cloudconfig.go:322-327 | a here-document of wrapped base64 is read back whole, since no line of it is the delimiter |
| Chunks.ExecMisdirected | internal/bootstrap/cloudconfig.go:314-325 | in the gzip form the document goes to gunzip, which refuses it: the file is emptied and the script stops |
| Chunks.RunText | internal/bootstrap/cloudconfig.go:151-198 | running the text of a script is performing its actions in order up to the first that stops it, on any machine |
| Chunks.RunComplete | internal/bootstrap/cloudconfig.go:98-107 | shell text made of whole commands runs as if nothing followed, and then the rest runs |
| Chunks.OneLineComplete | internal/bootstrap/cloudconfig.go:98-107 | a line of the subset without a backslash is such text if and only if it takes no here-document; reserved words are outside the subset |
| Bootstrap.FilesMeaning | internal/bootstrap/cloudconfig.go:305-335 | running the text for plain and base64 files is making the directory, writing or appending, then mode and owner, file by file, whatever fails |
| Bootstrap.FilesOnDisk | internal/bootstrap/cloudconfig.go:305-335 | on a disk the script leaves what storing the files one after the other leaves |
| Bootstrap.CompletesIffNoGzip | internal/bootstrap/cloudconfig.go:314-325 | where nothing else fails, the script gets past its files if and only if none is gzip |
| Sections.WriteCommands | internal/bootstrap/cloudconfig.go:161-167 | one line per command |
| Sections.WriteFiles | internal/bootstrap/cloudconfig.go:169-176 | the entries in order, numbered, or failure if one of them does not compile |
| Sections.WriteSections | internal/bootstrap/cloudconfig.go:161-196 | each section that is not empty, under its heading, in the order bootcmd, write_files, runcmd |
| Sections.SectionsMeaning | internal/bootstrap/cloudconfig.go:161-196 | running the sections runs the boot commands, writes the files and runs the other commands, in this order; a command of one element runs as the shell text it is |
| Packing.Fit | internal/bootstrap/cloudconfig.go:207-234 | up to 24576 bytes unchanged; above, packed if and only if 310 + n + max(1, ceil(n / 76)) is at most 49152, with n = 4 * ceil(g / 3) for g bytes of gzip |
| Packing.FitsIff | internal/bootstrap/cloudconfig.go:220-232 | the packed text fits exactly under that condition |
| Packing.PackedMeaning | internal/bootstrap/cloudconfig.go:219-229 | running the packed script writes back the very script that was packed, makes it executable and executes it |
| Packing.PackedRunsScript | internal/bootstrap/cloudconfig.go:219-229 | a packed script that gets to hand over does, from there on, what the script does; otherwise it stops where its preparation stops |
| Install.InstallScript | internal/loadbalancer/ssh.go:59-70 | the text for a list of files, and the reload command if one is given |
| Install.CutShort | internal/loadbalancer/ssh.go:59-70 | cut between any two commands, and with the next write torn, each target is wholly old or wholly new, and a later one is new only if all earlier ones are |
| Install.RunsToEnd | internal/loadbalancer/ssh.go:59-70 | a complete run leaves every target new and no temporary file |
| Install.ListenersAfterClusters | internal/loadbalancer/envoy.go:91-94 | a new listener file is never there with an old cluster file |
| Cutting.CutAnywhere | internal/loadbalancer/ssh.go:55-70 | cut after any number of bytes, the script is sure to leave each target wholly old or wholly new, in order, if and only if the command that is cut puts nothing at the path of a target, unless the target is done and has that content |
| Cutting.CutWhole | internal/loadbalancer/ssh.go:55-70 | where no path begins another: if and only if the cut is not right after a target's path in the line that writes its temporary file |
| Cutting.CutEmpties | internal/loadbalancer/ssh.go:63 | a cut right there leaves the target empty |
| Cutting.ReadTorn | internal/loadbalancer/ssh.go:63 | a here-document cut anywhere before the end of its delimiter line takes the rest of the text |
| Cutting.EnvoyCut | internal/loadbalancer/envoy.go:91-94 | for the two files of the service load balancer: cut anywhere else, both are whole and a new listener file is never there with an old cluster file |
| Credentials.SecretFactory.ClientFor | internal/cloud/factory.go:62-103 | whatever other calls did to the cache, the answer is that of a factory without a cache for the secret this call read |

## Left out

- The Verda SDK, its HTTP calls and error decoding: each call is an abstract step that may fail, before or after taking effect.
- Watches, caches, pausing, requeue intervals, logging and metrics: a reconcile may run at any time, so when it is scheduled does not matter to the safety results.
- Fields of the objects that no decision reads (addresses of machines, provider IDs, failure domains, condition reasons): they are copied from the instance found and never looked at again.
- SSH keys, the workload secret of the service load balancer and the haproxy configuration of the control plane load balancer: where the code stops for them, the model may stop at any point.
- Leak-freedom of startup scripts under a stale script ID, and of clones whose ID was never stored: the code does not promise it, because a stale script ID or a lost status patch hides them on deletion.
- Deletion with the `keep_detached` spot policy: such volumes stay pending, so `Finalizing.Settles` does not hold of them.
- Finalizing.DeletionEnds: about machines and about reconciles that meet no error and no interference while they run; what others do comes between reconciles.
- Leftovers.CloneLetGo: a volume that the cloud is deleting when the finalizer is given up may still be there, because the code does not wait for it.
- Controller.World.Call: the body shows one admissible answer, callers use the contract, which admits all of them.
- Sections.WriteSections: without the opening and closing lines of a startup script (log redirection, echo) and the users and ntp sections, which use shell constructs outside the subset.
- Sections.SectionsMeaning: commands of one element that use shell constructs outside the subset (`&&`, variables, substitutions) are not covered; they have no meaning in `Shell`.
- The reload command of the install script, and what is run of it when it is cut: the theorems are about the script without one, which is what its one caller asks for (internal/ccm/loadbalancer.go:175).
- YAML and JSON parsing, templates, gzip itself and `path.Dir`: taken as given values and functions.
- EnvoyResources: sorting and rendering of the configuration files.
- Go's `strings.ToLower` and `strings.TrimSpace` beyond ASCII.
