# Cluster API provider for OCI: models and proofs

This project models the parts of the Oracle Cloud Infrastructure provider for Cluster API in which several
steps, objects or versions have to agree, and proves what they keep. `dafny verify dfyconfig.toml` checks it.

**Two controllers that wait for each other** (`ManagedPasses`, `ManagedProtocol`, `ManagedTeardown`,
`ManagedDeletion`). The OCIManagedCluster and
OCIManagedControlPlane controllers read each other's object. The model is a transition system: passes interleave
between their work and their patch, read any version ever stored, patch only the fields they changed, and may lose
the patch; OKE moves by itself. Proved over every run: an OKE cluster is created only after a pass completed the
network, endpoints agree and last, readiness lasts, and from every reachable healthy state error-free rounds finish.

**The network saga** (`ClusterSaga`, `SubnetStep`). Ordered create and delete sequences that stop at the first error.
A dependency is kept in every run, failures anywhere, exactly when both sequences respect it; the finalizer guards what
exists exactly if it is stored before anything is made. The subnet step, which makes security lists and subnets in turn,
is modelled subnet by subnet.

**The machine** (`MachinePass`, `MachineRuns`, `MachineProgress`, `MachineTeardown`, `BlockVolume`). Instance, load-balancer backend,
block volume and finalizer. Readiness and how it is reached, teardown order, the absence of orphans, the end of deletion and what it leaves,
over every run with every call failing before or after its effect. The paged volume search is the first hit of the whole
listing, and there is never a second volume.

**Two API versions** (`ApiTypes`, `NetworkConversion`, `ClusterConversion`, `MachineConversion`,
`ControlPlaneConversion`). Conversion through the annotation is a lens: round trips, edits and repeated edits, with the
exact condition on destinations that are not fresh.

**Admission** (`Cidr`, `Validation`, `Defaulting`, `DefaultingWebhook`, `Admission`, `SpokeRequests`). Defaulting through pointers, with
nil and repeated ones; both validators against their acceptance relations, and how these relate; admission of a create
request and of an update as equivalences over the object as submitted, also for updates made in v1beta1; the fields that
every history of requests keeps.

Where the code is imperative, the model has a class or a method with the code's steps, proved equal to a function of
the old state; the lemmas are about those functions. Calls into the cloud are answers passed in as parameters: success,
failure, or failure after the effect.

Ten properties one may expect do not hold of the code without a condition. Each has a lemma with an input that
breaks it and one that says when it holds:

- the network can be gone when an OKE cluster is created (`CreateAfterTeardown`, `Causality`, `WholeNetworkIff`);
- a lost first patch leaves resources without a finalizer (`LostPatchOrphans`, `GuardIff` for clusters;
  `LostFinalizerPatch`, `TrackedIff` for machines);
- deletion of a control plane never ends if its passes cannot read a ready managed cluster, for example because that is
  gone already (`Stranded`, `ClosedGateForever`, `ControlPlaneDeletionEndsIff`);
- a subnet can exist while another subnet's security list does not (`ListsIncomplete`), though not while its own does
  not (`ListOutlivesSubnet`), and a failed subnet creation can leave a second list that deletion does not find
  (`SecondListLeft`, `SecondListIff`, `LeftListsIff`, `NoListLeft`);
- after one lost patch, create passes without errors never complete the subnet step again (`LostListPatch`,
  `CompletesIff`, `StuckForever`);
- a machine behind a load balancer of type `lb` is terminated with its backend in place if the patch that records its
  address was lost (`LostAddressPatch`, `TerminatesBehindLb`, `BackendLeavesFirst`);
- a machine can be gone with its backend or its volume in place (`TerminatedOutside`, `ForgottenUnrecorded`,
  `BackendLeftIff`, `VolumeLeftIff`, `NothingLeft`);
- deletion of a machine never ends if it names somebody else's running instance, or if its instance has attachments and
  its own volume is missing (`BlockedByForeign`, `BlockedByVolume`, `DeletionEndsIff`);
- an accepted subnet CIDR need not lie in the VCN (`LengthMatters`, `SubnetCidrMeaning`);
- a cluster accepted in v1beta2 need not be accepted in v1beta1, which lacks a role (`CustomSubnetRefused`,
  `DownKeepsAcceptanceIff`).

## Model

| member | source | states |
|---|---|---|
| ClusterSaga.ClusterPass.ReconcileComponent | controllers/ocicluster_controller.go:159-177 | one step: success completes its class of resources, failure ends the pass with only its own class touched |
| ClusterSaga.ClusterPass.Reconcile | controllers/ocicluster_controller.go:189-281 | a create pass does exactly the steps before its first failure, plus what the failing call left; Ready only if all succeed; the finalizer is set first |
| ClusterSaga.ClusterPass.ReconcileDelete | controllers/ocicluster_controller.go:353-463 | a delete pass does exactly the steps before its first failure; the finalizer goes only if all succeed |
| ClusterSaga.CreateKeepsClosed | controllers/ocicluster_controller.go:189-281 | a create pass failing anywhere keeps the existing resources closed under dependencies |
| ClusterSaga.DeleteKeepsClosed | controllers/ocicluster_controller.go:353-463 | a delete pass failing anywhere keeps them closed, and leaves nothing if it succeeds |
| ClusterSaga.DependenciesKept | controllers/ocicluster_controller.go:189-463 | over every run, with failures and lost patches anywhere, any dependency relation that both sequences respect is kept |
| ClusterSaga.OciReferencesKept | controllers/ocicluster_controller.go:205-276 | the references that classes of OCI objects hold on each other are such a relation, that of subnets to security lists excepted |
| ClusterSaga.KeptIffRespected | controllers/ocicluster_controller.go:205-463 | a dependency is kept in every run if and only if its target is created earlier and deleted later |
| ClusterSaga.MirroredExcept | controllers/ocicluster_controller.go:205-463 | deletion mirrors creation but for NSGs against subnets, route tables and security lists, and route tables against security lists |
| ClusterSaga.CreationOrder | controllers/ocicluster_controller.go:205-276 | the order of the create steps |
| ClusterSaga.SucceedsIff | controllers/ocicluster_controller.go:189-463 | a pass succeeds if and only if every step succeeds that the annotation, the kind of cluster and the network flag do not leave out |
| ClusterSaga.CreateChoosesLb | controllers/ocicluster_controller.go:259-276 | a successful create pass makes a load balancer if and only if the cluster is self-managed, lacks the annotation and has type `lb`, and a network load balancer likewise for any other type |
| ClusterSaga.DeleteChoosesLb | controllers/ocicluster_controller.go:357-378 | a successful delete pass removes the same one |
| ClusterSaga.LeavesAlone | controllers/ocicluster_controller.go:180-463 | with the annotation or for an OKE cluster no pass touches either load balancer, with network management skipped none touches anything else |
| ClusterSaga.NetworkMadeAndRemoved | controllers/ocicluster_controller.go:205-463 | a successful create pass makes, a successful delete pass removes all of the network that is wanted |
| ClusterSaga.FinalizerGuards | controllers/ocicluster_controller.go:137-157 | while any managed resource exists the finalizer is stored, if every create pass that finds it missing gets its patch through |
| ClusterSaga.GuardIff | controllers/ocicluster_controller.go:137-157 | a create pass keeps the guard, however it ends and whatever becomes of its patch, if and only if the finalizer is stored already or there is nothing to manage |
| ClusterSaga.LostPatchOrphans | controllers/ocicluster_controller.go:137-157 | a lost first patch and a delete request leave every resource of the pass behind |
| SubnetStep.SubnetScope.ReconcileSubnet | cloud/scope/subnet_reconciler.go:34-104 | the loop over the subnets, each with its list made first, up to the first failure |
| SubnetStep.SubnetScope.DeleteSubnets | cloud/scope/subnet_reconciler.go:202-227 | the loop that deletes the subnets, up to the first failure |
| SubnetStep.SubnetScope.DeleteSecurityLists | cloud/scope/security_list_reconciler.go:32-55 | the loop that deletes the list found for each subnet, up to the first failure |
| SubnetStep.ListOutlivesSubnet | cloud/scope/subnet_reconciler.go:34-104 | over every run of create and delete passes, with failures and lost patches anywhere, a subnet that wants a security list has its own as long as it exists |
| SubnetStep.ListsIncomplete | cloud/scope/subnet_reconciler.go:34-104 | with two subnets, one can exist while the list of the other does not |
| SubnetStep.CompletesIff | cloud/scope/subnet_reconciler.go:50-83 | an error-free create pass completes the step if and only if no existing subnet lacks the recorded identifier of its list |
| SubnetStep.CompleteMeans | cloud/scope/subnet_reconciler.go:34-104 | a create pass that completes has made every subnet and list that is wanted, recorded the lists, and left skipped subnets alone |
| SubnetStep.DeleteMeans | cloud/scope/subnet_reconciler.go:202-227 | a delete pass that completes has deleted every subnet that is not skipped |
| SubnetStep.DeleteCompletes | cloud/scope/subnet_reconciler.go:202-227 | a delete pass without errors completes |
| SubnetStep.StuckForever | cloud/scope/subnet_reconciler.go:177-188 | such a subnet stays as it is through every later create pass |
| SubnetStep.LostListPatch | cloud/scope/subnet_reconciler.go:50-83 | one lost patch is enough to get there |
| SubnetStep.SecondListIff | cloud/scope/subnet_reconciler.go:85-100 | a pass can make a second list for a subnet if and only if there is a list and no subnet |
| SubnetStep.LeftListsIff | cloud/scope/security_list_reconciler.go:32-55 | deleting the list of a subnet leaves none if and only if there was no second one |
| SubnetStep.NoListLeft | cloud/scope/security_list_reconciler.go:32-55 | if no create pass made a list without its subnet, then after any number of delete passes failing anywhere and losing patches the one that succeeds leaves no list |
| SubnetStep.SecondListLeft | cloud/scope/subnet_reconciler.go:85-100 | otherwise it can leave one, with every answer honest |
| ManagedPasses.ManagedClusterReconciler.Reconcile | controllers/ocimanagedcluster_controller.go:186-274 | the pass over the managed cluster: network first, then Ready, then the endpoint of a ready control plane |
| ManagedPasses.ManagedClusterReconciler.ReconcileDelete | controllers/ocimanagedcluster_controller.go:354-441 | the delete pass: the finalizer goes only if every step succeeds; Ready stays |
| ManagedPasses.ControlPlaneReconciler.GetOrCreateControlPlane | cloud/scope/managed_control_plane.go:114-274 | lookup by identifier or name, else creation, with each way the creation can fail half-way |
| ManagedPasses.ControlPlaneReconciler.Reconcile | controllers/ocimanagedcluster_controlplane_controller.go:183-251 | by OKE lifecycle state: wait, publish the endpoint with port 6443 and become ready, or fail |
| ManagedPasses.ControlPlaneReconciler.ReconcileDelete | controllers/ocimanagedcluster_controlplane_controller.go:329-374 | the delete state machine over the OKE lifecycle |
| ManagedProtocol.StepKeeps | controllers/ocimanagedcluster_controlplane_controller.go:71-251 | the joint invariant of both controllers is kept by every step, including passes over old versions and late or lost patches |
| ManagedProtocol.Causality | controllers/ocimanagedcluster_controlplane_controller.go:110-120 | in every run an OKE cluster is created only after a pass completed every network step, and onto the whole network unless a delete pass had started |
| ManagedProtocol.ReadinessLasts | controllers/ocimanagedcluster_controller.go:268-270 | no later version of the managed cluster loses Ready |
| ManagedProtocol.CreateAfterTeardown | controllers/ocimanagedcluster_controlplane_controller.go:110-120 | some run creates an OKE cluster after the network has been deleted |
| ManagedTeardown.WholeNetworkIff | controllers/ocimanagedcluster_controlplane_controller.go:110-120 | from a reachable state with a ready version on, whatever happens short of a delete request, OKE clusters are created onto the whole network only, if and only if the newest managed cluster carries no deletion mark or there is no network to manage |
| ManagedProtocol.EndpointAgreement | controllers/ocimanagedcluster_controlplane_controller.go:205-224 | in every run every stored managed cluster has no endpoint, or port 6443 and the host observed on an active OKE cluster, the public one if and only if the endpoint subnet is public; a ready control plane has one, the two agree, and neither loses or changes it |
| ManagedDeletion.ClusterPassBy | controllers/ocimanagedcluster_controller.go:186-274 | a pass without its control plane leaves the network alone and fails; any other makes it, is ready from its first success on and takes the endpoint of a ready control plane |
| ManagedDeletion.ReconcilePassBy | controllers/ocimanagedcluster_controlplane_controller.go:183-251 | over an existing OKE cluster a pass waits, becomes ready, or fails, by its state |
| ManagedDeletion.CreatesUnrecorded | cloud/scope/managed_control_plane.go:114-274 | a pass creates only without a recorded identifier and without a cluster found, and records the one it reports |
| ManagedDeletion.DropsOverGone | controllers/ocimanagedcluster_controlplane_controller.go:329-374 | a pass drops the finalizer only of a deleted control plane whose OKE cluster it sees absent or deleted |
| ManagedDeletion.DeletePassBy | controllers/ocimanagedcluster_controlplane_controller.go:329-374 | a delete pass lets go of a cluster that is gone, waits for one that is going, and otherwise has OKE delete it and keeps the finalizer |
| ManagedDeletion.GoneOnlyAfter | controllers/ocimanagedcluster_controller.go:354-441 | in every run a control plane whose finalizer was ever stored is gone only after a pass that saw OKE absent or deleted, a managed cluster only after a pass that left nothing of its network |
| ManagedDeletion.ClosedGateForever | controllers/ocimanagedcluster_controlplane_controller.go:104-120 | a deleted control plane stays as long as its passes read no ready managed cluster |
| ManagedDeletion.Stranded | controllers/ocimanagedcluster_controller.go:354-441 | in some run both objects are deleted, the managed cluster is gone first, and the control plane and its OKE cluster stay |
| ManagedDeletion.ControlPlaneDeletionEndsIff | controllers/ocimanagedcluster_controlplane_controller.go:104-374 | error-free passes end the deletion of a control plane if and only if the managed cluster they read is there and ready; a rank bounds them |
| ManagedProtocol.RoundProgress | controllers/ocimanagedcluster_controlplane_controller.go:194-244 | an error-free round of both controllers, also one that starts an update of OKE, finishes or lowers a rank of the joint state |
| ManagedProtocol.Progress | controllers/ocimanagedcluster_controlplane_controller.go:116-244 | from every reachable healthy state, as many rounds as the rank says make both objects ready and the endpoint copied |
| MachinePass.MachineReconciler.ReconcileVolume | cloud/scope/machine.go:222-241 | the volume is made and attached, or the pass fails |
| MachinePass.MachineReconciler.FindOrLaunch | cloud/scope/machine.go:244-431 | an instance found or launched has its volume ensured; one is launched only if none is found and no identifier is recorded |
| MachinePass.MachineReconciler.CreateInstanceOnLb | cloud/scope/machine.go:815-906 | the backend is added once; a missing load balancer is an error |
| MachinePass.MachineReconciler.DeleteInstanceFromLb | cloud/scope/machine.go:915-1008 | a missing load balancer or backend is success; type `lb` without a recorded address looks for nothing |
| MachinePass.MachineReconciler.Terminate | cloud/scope/machine.go:571-618 | an owned instance is terminated after its backend is removed, unless it has attachments and the machine's volume is missing |
| MachinePass.MachineReconciler.ReconcileNormal | controllers/ocimachine_controller.go:334-442 | the normal pass as a function of the stored machine, the cloud and its answers |
| MachinePass.MachineReconciler.ReconcileDelete | controllers/ocimachine_controller.go:450-520 | the delete pass as such a function, with the calls it issued |
| MachineRuns.Readiness | controllers/ocimachine_controller.go:334-442 | in every reachable state before deletion Ready implies an address, an instance, a provider id, the finalizer and, for a control-plane machine, the backend |
| MachineProgress.LookupFindsIff | cloud/scope/machine.go:244-431 | when the lookup ends with an instance, which, and that its volume is then made and attached |
| MachineProgress.BecomesReadyIff | controllers/ocimachine_controller.go:334-442 | a machine becomes ready in a pass if and only if its instance is running and the calls for volume, address, load balancer and VNICs succeed |
| MachineProgress.PassByLife | controllers/ocimachine_controller.go:366-442 | by the state of the instance: waiting, readiness taken away, or failed with an error |
| MachineProgress.ComesUpIff | controllers/ocimachine_controller.go:334-442 | however long the cloud takes to bring the instance up, the error-free pass after it makes the machine ready if and only if a control-plane machine has a load balancer |
| MachineRuns.PassCalls | controllers/ocimachine_controller.go:334-520 | in every state, the calls a pass issues and what the instance looked like when it did |
| MachineRuns.Calls | controllers/ocimachine_controller.go:450-520 | in every run no foreign instance is terminated, no deleted machine gets a backend, and the volume is deleted only by a pass that sees the instance terminated or gone |
| MachineRuns.TerminatesBehindLb | cloud/scope/machine.go:915-1008 | exactly when a delete pass terminates an instance whose backend is still there |
| MachineRuns.BackendLeavesFirst | controllers/ocimachine_controller.go:503-533 | from the call that terminates a control-plane instance on, its backend is out of the load balancer and stays out, provided addresses get stored where backends are found by address |
| MachineRuns.LostAddressPatch | cloud/scope/machine.go:915-1008 | without that proviso some run terminates with the backend in place |
| MachineRuns.NoOrphan | controllers/ocimachine_controller.go:334-335 | the machine never disappears while its own instance is alive, if patches get through until the finalizer is stored |
| MachineRuns.TrackedIff | controllers/ocimachine_controller.go:334-335 | a pass keeps its instance guarded, whatever the answers and whatever becomes of its patch, if and only if the finalizer is stored or it has no reason to launch |
| MachineRuns.LostFinalizerPatch | controllers/ocimachine_controller.go:334-335 | without that condition some run leaves a live instance behind |
| MachineRuns.DeleteAsksAgain | controllers/ocimachine_controller.go:450-520 | a delete pass that leaves the finalizer returns an error or a positive requeue |
| MachineRuns.RoundLowersRank | controllers/ocimachine_controller.go:450-520 | an error-free delete pass and a tick of the cloud lower a stage rank |
| MachineRuns.DeletionEndsIff | controllers/ocimachine_controller.go:450-520 | repeated error-free passes end the deletion if and only if the instance seen is not up, or is the machine's own and not left with attachments but without its volume; the rank bounds them |
| MachineRuns.BlockedByForeign | controllers/ocimachine_controller.go:503-506 | a machine that names a foreign running instance gets blocked |
| MachineRuns.BlockedByVolume | cloud/scope/machine.go:587-590 | a machine whose volume could not be made gets blocked by another attachment |
| MachineTeardown.BackendLeftIff | controllers/ocimachine_controller.go:454-502 | a delete pass can let go of a machine with its backend in place if and only if it sees the instance terminated, or does not see it and does not look for the backend |
| MachineTeardown.VolumeLeftIff | controllers/ocimachine_controller.go:454-502 | it can do so with the volume in place if and only if it sees no instance and no identifier is recorded |
| MachineTeardown.NothingLeft | controllers/ocimachine_controller.go:334-520 | in every run in which the cloud ends no instance by itself and forgets none unrecorded, and patches get through until finalizer and address are stored, a machine that is gone leaves neither backend nor volume |
| MachineTeardown.TerminatedOutside | controllers/ocimachine_controller.go:489-502 | an instance terminated from outside leaves its backend, in a run without errors and with every patch stored |
| MachineTeardown.ForgottenUnrecorded | controllers/ocimachine_controller.go:477-481 | an instance forgotten before it was recorded leaves its volume |
| BlockVolume.VolumeScope.GetBlockVolume | cloud/scope/block_volume_reconciler.go:42-70 | the paged search returns the first owned volume of all pages, none, or an error if a page before a hit fails |
| BlockVolume.VolumeScope.CreateBlockVolume | cloud/scope/block_volume_reconciler.go:112-144 | adds one volume that the ownership test accepts, also when the call fails after its effect |
| BlockVolume.VolumeScope.ReconcileBlockVolume | cloud/scope/block_volume_reconciler.go:149-163 | creates only if the search found none |
| BlockVolume.VolumeScope.DeleteBlockVolume | cloud/scope/block_volume_reconciler.go:166-186 | deletes what the search found; without a client it does nothing |
| BlockVolume.SearchSound | cloud/scope/block_volume_reconciler.go:42-70 | on a consistent listing the search finds the first volume of the machine's own, or there is none |
| BlockVolume.SearchFailsIff | cloud/scope/block_volume_reconciler.go:42-70 | a search fails if and only if a page fails before any owned volume |
| BlockVolume.SearchAnswers | cloud/scope/block_volume_reconciler.go:42-70 | without a failing page it answers the first volume of the machine's own, or none if there is none |
| BlockVolume.CallsSucceed | cloud/scope/block_volume_reconciler.go:149-186 | a reconcile or delete whose listing and call succeed is successful, for an existing volume as for a missing one |
| BlockVolume.NeverTwo | cloud/scope/block_volume_reconciler.go:149-186 | over every sequence of reconcile and delete calls there is never a second owned volume of the machine's name |
| BlockVolume.ForeignVolumesSurvive | cloud/scope/block_volume_reconciler.go:166-186 | no call removes a volume that is not the machine's |
| BlockVolume.SuccessMeans | cloud/scope/block_volume_reconciler.go:149-186 | a successful reconcile leaves exactly one owned volume, a successful delete with a client none |
| NetworkConversion.ConvertRulesUp | api/v1beta1/zz_generated.conversion.go:1981-2006 | the rules one by one, identifiers dropped, a nil list kept nil |
| NetworkConversion.ConvertRulesDown | api/v1beta1/zz_generated.conversion.go:2014-2039 | the rules one by one, without identifiers, a nil list kept nil |
| NetworkConversion.ConvertNsgListUp | api/v1beta1/ocicluster_conversion.go:56-70 | the list is rebuilt element by element, nil entries kept |
| NetworkConversion.ConvertNsgListDown | api/v1beta1/ocicluster_conversion.go:71-85 | the list is rebuilt element by element, nil entries kept |
| NetworkConversion.ConvertVcnUp | api/v1beta1/conversion.go:25-53 | each identifier and the NSG list overwrite the destination only if they are not nil |
| NetworkConversion.ConvertVcnDown | api/v1beta1/conversion.go:56-84 | the same downwards |
| NetworkConversion.ConvertNetworkUp | api/v1beta1/zz_generated.conversion.go:2084-2094 | the network spec on top of its destination; the load balancer type stays the destination's |
| NetworkConversion.ConvertNetworkDown | api/v1beta1/zz_generated.conversion.go:2101-2111 | the network spec on top of its destination |
| NetworkConversion.UpNetworkAgrees | api/v1beta1/conversion.go:25-53 | every field lands on its counterpart if and only if the destination shows nothing through; hub-only fields stay |
| NetworkConversion.DownNetworkAgrees | api/v1beta1/conversion.go:56-84 | the same downwards |
| NetworkConversion.NetworkDetermined | api/v1beta1/zz_generated.conversion.go:3589-3624 | visible and hub-only fields together are the whole v1beta2 network spec |
| NetworkConversion.NetworkDetour | api/v1beta1/zz_generated.conversion.go:1981-2047 | v1beta1 to v1beta2 and back drops the rule identifiers and nothing else, once |
| ClusterConversion.ConvertAdMap | api/v1beta1/ocicluster_conversion.go:87-113 | the availability-domain map is rebuilt key by key; a nil map becomes an empty one |
| ClusterConversion.HubCluster.Restore | api/v1beta1/ocicluster_conversion.go:45-51 | the five Skip flags, the load balancer type and the client overrides come from the saved object |
| ClusterConversion.SpokeCluster.ConvertTo | api/v1beta1/ocicluster_conversion.go:26-54 | up-conversion of an OCICluster onto any destination |
| ClusterConversion.SpokeCluster.ConvertFrom | api/v1beta1/ocicluster_conversion.go:116-135 | down-conversion, with the hub object saved |
| ClusterConversion.EditLaw | api/v1beta1/ocicluster_conversion.go:26-54 | for every edited v1beta1 object: visible fields are the edited ones if and only if the destination shows nothing through; hub-only fields are the saved ones |
| ClusterConversion.HubRoundTrip | api/v1beta1/ocicluster_conversion.go:26-135 | down and up again gives back every hub object, up to nil and empty availability domains, if and only if the destinations are clean |
| ClusterConversion.LastEditWins | api/v1beta1/ocicluster_conversion.go:26-135 | after any number of v1beta1 edits the visible fields are the last edit's and the hub-only fields the original's |
| ClusterConversion.SpokeRoundTrip | api/v1beta1/ocicluster_conversion.go:26-135 | the detour of a v1beta1 object is an idempotent normalisation that drops only rule identifiers |
| ClusterConversion.SpokeTemplate.ConvertTo | api/v1beta1/ociclustertemplate_conversion.go:26-47 | up-conversion of a template; availability domains come from the annotation |
| ClusterConversion.SpokeTemplate.ConvertFrom | api/v1beta1/ociclustertemplate_conversion.go:50-59 | down-conversion of a template |
| ClusterConversion.TemplateRoundTrip | api/v1beta1/ociclustertemplate_conversion.go:26-59 | a template comes back exactly if and only if the destinations are clean |
| MachineConversion.SpokeMachineObject.ConvertTo | api/v1beta1/conversion.go:112-121 | the single NSG name becomes the list if the list is empty |
| MachineConversion.SpokeMachineObject.ConvertFrom | api/v1beta1/ocimachine_conversion.go:42-49 | every field but the single NSG name is overwritten |
| MachineConversion.MachineSpokeRoundTrip | api/v1beta1/conversion.go:112-121 | the NSGs a machine asks for survive up-conversion and the way back; the detour is idempotent and changes nothing but their spelling |
| MachineConversion.MachineHubRoundTrip | api/v1beta1/ocimachine_conversion.go:26-49 | a hub machine comes back exactly unless its list is empty and the destination has a single name |
| MachineConversion.UpIdentifiesSpellings | api/v1beta1/conversion.go:112-121 | two v1beta1 machines are one v1beta2 machine if and only if they differ in the spelling of the NSG names alone |
| ControlPlaneConversion.HubPlaneObject.RestoreOpenIdConnect | api/v1beta1/ocimanagedcontrolplane_conversion.go:42-57 | OpenID Connect options are restored where the saved object has them and left alone elsewhere |
| ControlPlaneConversion.SpokePlaneObject.ConvertTo | api/v1beta1/ocimanagedcontrolplane_conversion.go:26-60 | up-conversion of a control plane onto any destination |
| ControlPlaneConversion.SpokePlaneObject.ConvertFrom | api/v1beta1/ocimanagedcontrolplane_conversion.go:63-76 | down-conversion of a control plane |
| ControlPlaneConversion.PlaneEditLaw | api/v1beta1/ocimanagedcontrolplane_conversion.go:26-60 | edits are visible, and hub-only fields are the saved ones if and only if the destination has no options where the saved object has none |
| ControlPlaneConversion.PlaneHubRoundTrip | api/v1beta1/ocimanagedcontrolplane_conversion.go:26-76 | a hub control plane comes back exactly under the same condition |
| ControlPlaneConversion.PlaneSpokeRoundTrip | api/v1beta1/ocimanagedcontrolplane_conversion.go:26-76 | the detour of a v1beta1 control plane changes nothing but the annotation |
| Cidr.WithinIff | api/v1beta2/validator.go:369-383 | a block lies in another if and only if its address does and its prefix is at least as long |
| Cidr.LengthMatters | api/v1beta2/validator.go:369-383 | 10.0.0.0/8 passes for 10.0.0.0/16 and does not lie in it |
| Validation.ValidateSubnetCidr | api/v1beta2/validator.go:359-387 | accepts exactly the empty CIDR and those that parse and start in the VCN's block |
| Validation.ValidateSubnets | api/v1beta2/validator.go:597-621 | accepts exactly if each subnet passes and no two share a non-empty name |
| Validation.ValidateRole | api/v1beta2/validator.go:636-643 | accepts exactly the listed roles |
| Validation.ValidateRule | api/v1beta2/validator.go:410-496 | accepts exactly the complete rules whose CIDR peer parses |
| Validation.ValidateNsgs | api/v1beta2/validator.go:390-404 | accepts exactly if every role and every rule passes |
| Validation.HasPrivateEndpoint | api/v1beta2/validator.go:315-326 | finds exactly the private control-plane-endpoint subnets |
| Validation.ValidateNetworkSpec | api/v1beta2/validator.go:294-332 | no error exactly if the v1beta2 acceptance relation holds |
| Validation.ValidateSpokeRules | api/v1beta1/validator.go:164-195 | v1beta1 asks only that CIDR peers parse |
| Validation.ValidateSpokeNsgs | api/v1beta1/validator.go:149-161 | accepts exactly if every role passes and every CIDR peer parses |
| Validation.ValidateSpokeNetworkSpec | api/v1beta1/validator.go:72-91 | no error exactly if the v1beta1 acceptance relation holds |
| Validation.Verdicts | api/v1beta2/validator.go:294-332 | v1beta2 accepts an object if and only if v1beta1 accepts it and the new checks pass |
| Validation.DownKeepsAcceptance | api/v1beta1/conversion.go:56-84 | a network spec accepted in v1beta2 is accepted in v1beta1 after down-conversion, for every list of roles |
| Validation.DownKeepsAcceptanceIff | api/v1beta2/types.go:19-31 | with each version's own roles acceptance is kept if and only if no subnet and no NSG has the role `custom` |
| Validation.CustomSubnetRefused | api/v1beta2/types.go:19-31 | a single custom subnet is accepted in v1beta2 and refused in v1beta1 |
| Validation.UpKeepsAcceptance | api/v1beta1/conversion.go:25-53 | one accepted in v1beta1 is accepted after up-conversion if and only if the new checks pass |
| Validation.SubnetCidrMeaning | api/v1beta2/validator.go:359-387 | for CIDRs that parse: contained if and only if accepted and at least as long a prefix |
| Defaulting.DefaultSettles | api/v1beta2/ocicluster_webhook.go:48-67 | after defaulting each role has a subnet and, unless skipped, an NSG or a security list; nothing is left to fill |
| Defaulting.SettledIff | api/v1beta2/ocicluster_webhook.go:48-67 | the fixed points of defaulting are exactly the settled specs |
| Defaulting.DefaultIdempotent | api/v1beta2/ocicluster_webhook.go:48-67 | defaulting twice is defaulting once |
| Defaulting.FilledKeeps | api/v1beta2/ocicluster_webhook.go:343-401 | the user's subnets stay in place, and only empty CIDRs change |
| Defaulting.AppendedByRole | api/v1beta2/ocicluster_webhook.go:343-401 | a missing role gets a subnet of its name, block and type, and only a missing one |
| Defaulting.FilledByRole | api/v1beta2/ocicluster_webhook.go:343-401 | which empty CIDRs are filled, and with which block |
| DefaultingWebhook.Cluster.GetSubnet | api/v1beta2/ocicluster_webhook.go:859-884 | the first subnet of a role, or nil exactly if there is none |
| DefaultingWebhook.Cluster.GetNodeSubnets | api/v1beta2/ocicluster_webhook.go:886-894 | all worker subnets |
| DefaultingWebhook.Cluster.SubnetSpec | api/v1beta2/ocicluster_webhook.go:343-401 | fills chosen subnets through their pointers and appends the missing roles |
| DefaultingWebhook.Cluster.IsNsgExitsByRole | api/v1beta2/ocicluster_webhook.go:896-903 | whether an NSG plays the role |
| DefaultingWebhook.Cluster.IsSecurityListExitsByRole | api/v1beta2/ocicluster_webhook.go:905-914 | whether a subnet of the role has a security list |
| DefaultingWebhook.Cluster.NsgSpec | api/v1beta2/ocicluster_webhook.go:403-441 | appends the default NSG of every role that has neither |
| DefaultingWebhook.Cluster.Default | api/v1beta2/ocicluster_webhook.go:48-67 | for any pointers, nil and repeated included: the user's list is a prefix, only empty CIDRs change, nothing is left to default, and a settled cluster is not changed at all |
| DefaultingWebhook.StepsSettle | api/v1beta2/ocicluster_webhook.go:343-401 | repeated pointers do not break idempotence |
| Admission.DefaultThenValidate | api/v1beta2/validator.go:294-332 | with the five roles of v1beta2, the defaulted network spec passes if and only if the submitted one does and the defaults to be used fit the VCN and find their names free |
| Admission.RoomForDefaults | api/v1beta2/ocicluster_webhook.go:343-401 | a VCN without CIDR or containing 10.0.0.0/16 has room for every default |
| Admission.DefaultNsgsOk | api/v1beta2/ocicluster_webhook.go:443-857 | the tables of default rules pass validation |
| Admission.Validate | api/v1beta2/ocicluster_webhook.go:299-341 | no error exactly for valid clusters |
| Admission.ValidateSkips | api/v1beta2/ocicluster_webhook.go:239-288 | no error exactly if a skipped VCN is named and skips all it has, and another skips no subnet |
| Admission.ValidateIpv6 | api/v1beta2/ocicluster_webhook.go:88-117 | no error exactly if no hextet is seen or IPv6 is decided |
| Admission.ValidateCreate | api/v1beta2/ocicluster_webhook.go:79-177 | no error exactly for objects that pass the IPv6, Skip and general checks |
| Admission.ValidateUpdate | api/v1beta2/ocicluster_webhook.go:202-297 | no error exactly if the immutable fields are unchanged and the new object passes the Skip and general checks |
| Admission.DefaultThenSkips | api/v1beta2/ocicluster_webhook.go:239-288 | defaulting keeps the verdict on the Skip flags if and only if it appends no subnet to a skipped VCN |
| Admission.DefaultThenIpv6 | api/v1beta2/ocicluster_webhook.go:88-117 | after defaulting IPv6 must be decided if and only if the first subnet of any role has a hextet |
| Admission.CreateAcceptedIff | api/v1beta2/ocicluster_webhook.go:48-177 | a create request is admitted if and only if the object as submitted is valid but for its identifier, survives its defaults, and decides IPv6 if it has a hextet |
| Admission.UpdateAcceptedIff | api/v1beta2/ocicluster_webhook.go:48-341 | an update is admitted if and only if the object as submitted keeps the immutable fields, passes as it is and survives its defaults |
| Admission.IdentityLasts | api/v1beta2/ocicluster_webhook.go:202-237 | region, compartment, identifier and effective visibility are constant over every history, also of objects from before the visibility field |
| Admission.BlankIdentifierRefused | api/v1beta2/ocicluster_webhook.go:54-56 | an update that blanks the identifier is refused |
| Admission.AdmittedSound | api/v1beta2/ocicluster_webhook.go:79-341 | every object that came in through admission is valid, consistent in its Skip flags and settled, and never public with a private control-plane-endpoint subnet |
| Admission.AdmittedMeans | api/v1beta2/validator.go:294-594 | in every history the stored object has its identifiers, subnets with existing roles, distinct names and blocks that start in the VCN, explicit rules, no public load balancer over a private endpoint subnet, and consistent Skip flags, told field by field |
| Admission.SubnetsToldIff | api/v1beta2/validator.go:597-643 | the verdict on a list of subnets, told subnet by subnet |
| Admission.RuleAcceptedIff | api/v1beta2/validator.go:407-594 | the verdict on a rule, told field by field |
| Admission.SkipsToldIff | api/v1beta2/ocicluster_webhook.go:239-288 | the verdict on the Skip flags, told field by field |
| Admission.HextetAssignedIff | api/v1beta2/ocicluster_webhook.go:88-108 | a hextet counts if and only if the first subnet of one of the four roles has it |
| Admission.MinimalAdmitted | api/v1beta2/ocicluster_webhook.go:48-177 | a cluster that leaves everything to the defaults is admitted |
| Admission.ResubmissionAccepted | api/v1beta2/ocicluster_webhook.go:179-188 | submitting a stored object again is accepted and changes nothing |
| Admission.OldObjectAccepted | api/v1beta2/ocicluster_webhook.go:179-188 | an object from before admission can be submitted again if and only if it passes as it is, its defaults fit, and none is appended to a skipped VCN |
| SpokeRequests.ReadAndWriteBack | api/v1beta1/ocicluster_conversion.go:26-135 | reading an admitted object as v1beta1 and writing it back unchanged is admitted and changes at most a nil map of availability domains |
| SpokeRequests.EditAdmittedIff | api/v1beta1/ocicluster_conversion.go:26-54 | a v1beta1 edit of an admitted object is admitted if and only if it keeps the immutable fields, passes the v1beta1 checks, and its object passes the new checks, the Skip checks and its defaults |
| SpokeRequests.SpokeEditsKeep | api/v1beta1/ocicluster_conversion.go:26-54 | through any number of v1beta1 updates the stored object keeps its hub-only and its immutable fields |

## Left out

- Conditions, events, logging, metrics and message texts: nothing modelled reads them, except that an error is an error.
- The patch helper: an atomic write of the fields a pass changed; a patch is stored or lost as a whole.
- The cloud clients: each call is an answer given from outside; OKE endpoints do not change while a cluster is active.
- SubnetStep.SubnetScope.ReconcileSubnet: an update with a recorded list either succeeds or fails; a recorded
  identifier names a list of the subnet or nothing; a nil subnet, which is an error in the code, does not occur.
- ClusterSaga.ClusterPass.Reconcile: the straight list of steps is grouped into helper methods; a class of resources
  has the levels none, some and all, not one state per resource.
- MachinePass.MachineReconciler.ReconcileNormal: each pass reads the newest object, and the volume client is configured.
- MachineRuns.Readiness: nobody but the controller removes backends, and the load balancer is not removed before the
  machine is deleted.
- MachineRuns.NoOrphan: the cloud is taken not to bring terminated instances back.
- BlockVolume.VolumeScope.GetBlockVolume: a listing has at least one page, as the API always answers with one.
- Bodies of the volume attachment, VNIC and fault-domain retry calls: success or failure only.
- The annotation: saving and restoring hub spec and status, without encoding and without object metadata.
- Nil and empty slices are told apart only where the code does: NSG lists, rule lists, NSG names, availability domains.
- Fields that both versions copy unread are grouped in `...Fields` types; the machine types leave out launch, platform
  and agent options.
- OCIManagedCluster conversion, machine templates and object lists: the same converters again.
- Parsing of CIDRs and the checks on the health checker are parameters of the validators; IPv6 spellings of IPv4
  addresses are taken to be in the family that parsing gives.
- Validation.ValidateNetworkSpec: requires that no subnet or NSG is nil, since the code dereferences each.
- Ingress and egress rules share one type and one validator: the code for them differs only in names.
- Comparisons of `*string` and `*bool` fields with newly allocated pointers are modelled as what they are in Go, never
  equal; requests with nil subnets or NSGs, on which the validators panic, are not admitted.
- Descriptions in the default rule tables; defaults and webhooks of the managed cluster.
- Validators of the machine, block volume and identity objects: checks of single fields.
