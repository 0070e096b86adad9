# Verification model of the LVS controller

The controller keeps a kernel IPVS table in step with two changing inputs: the
layer-4 ports of two configmaps and the addresses that pod events announce. Two
informer callbacks publish work, workers pop it and change the table. This project
models that pipeline and proves what it keeps over whole runs.

The layers, bottom up:

- `Text.dfy`: port and address texts (`ValidatePort`, `ValidateIPv4`, dotted quads).
- `Libipvs.dfy`: the kernel table by the contracts of the libipvs calls. Any call
  may fail; a failing call changes nothing and is counted (`faults`). Other
  applicable calls succeed; calls that cannot be encoded panic.
- `TableView.dfy`: what a table amounts to, as a set of (protocol, port, address)
  triples and a set of services; well-formed and canonical tables.
- `Ipvsdr.dfy`: `LvsManager` over the handle, refining the plain set, with and
  without failures.
- `Ports.dfy`, `Staging.dfy`: the shared stores, `L4Compare` on mutable maps, and
  the recorded/staged port sets as an automaton over runs.
- `Batch.dfy`: what processing one store does to the table, key by key and in a
  closed form.
- `Queue.dfy`: queued references to two stores that are rewritten in place.
- `Pipeline.dfy`: the controller's data and the cluster around it as one state
  machine.
- `Controller.dfy`: the controller class; each method is one locked section and
  is tied to the pipeline by an abstraction function (`Abs`).
- `Simulation.dfy`: the controller object and the pipeline side by side.
- `PortDepartures.dfy`, `PodDepartures.dfy`: where the handling of port and of pod
  events departs from its evident intent, exactly when that does no harm.
- `Monitor.dfy`: threads, lock and condition variable, with Signal free to wake
  any sleeper; `Fifo.dfy`: the same with the order Go's runtime keeps.
- `Program.dfy`: threads and data together, with the main theorem
  `TableFollowsCluster`; `Rest.dfy`: how the program comes to rest.

How the pieces meet: the methods of `LoadBalancerController` are proved equal to
the steps of `Pipeline`, and `Simulation` carries the pipeline's invariant along
on the object itself; `Program` lets the threads of `Monitor` take those steps
in any interleaving; `TableFollowsCluster` says what the table is then.
`ProgramRests` bounds every run without new events. `Rest.StuckServes` says that
where any run cannot go on without a new event, the table serves the cluster as
the published events report it, and the cluster the run began with if no event
was held or arrived. `Rest.TableIsReached` says that every reachable state can be
brought to that, each waiting producer publishing the event it holds.

Hypotheses of the main theorem, all in `Pipeline.Allowed`: a listing agrees with
the cluster at the time of the event; ports are not 0 and pod addresses parse
(exactly what a worker panics on otherwise: `ListedPanicsIff`, `PodPanicsIff`); a
removal does not meet a staged leftover (`TracksIff`); a store is rewritten while
queued only when that loses no work on the present table (`RewriteNowIff`, and
`RewriteIff` for every table); what failing kernel calls leave undone, the
remaining queue decides again (`FaultNowIff`, and `FaultIff` for every outcome).
The rewriting hypothesis asks for no more than is needed: other things being
equal, a step meets it exactly when the theorem's conclusion survives the step
(`PortAllowedIff`, `PodAllowedIff`).
The backends of a world are the addresses that pod events have announced and not
withdrawn: any pod of the namespace counts, as read from the event's first
argument. `AddressReadersIff` says when that agrees with the listed nginx pods,
and `FirstArgumentIff`, for any two objects, when publishing for the old one is
what the new one calls for. For listings that do not agree, `PortEventIff` and
`UpdateIff` say exactly what they may miss or add without doing harm.

Readings of the source: `sync.NewCond(locker)` is taken to use the mutex itself.
`addrUpdateFunc` works on its first argument, which the informer fills with the
old object. A store is updated through its own reference, so a queued reference
stands for what the store holds when it is popped. `cm.GetDeletionTimestamp != nil`
compares a method value and has no effect.

Where the code departs from its evident intent, the exact condition is proved:
staging (`TracksIff`, `RemovalAfterRepeatMissed`), rewriting a queued store
(`RewriteIff`, `SecondPortEventIff`, `SecondPodEventIff`), address tags
(`OrderFreeIff`, `RacyAddIff`), port texts (`PortUsableIff`, `PortCollisions`),
address texts (`AcceptedParsesIff`), panics of a worker (`ListedPanicsIff`,
`PodPanicsIff`), listings that name terminating pods, miss announced ones or end
early (`ListedPodsIff`, failing on `TerminatingPodReturns`), errors of `listCm`
that are logged only (`UpdateIff`), pods that no listing names
(`AddressReadersIff`), and the informer's first argument (`FirstArgumentIff`,
failing on every new pod: `NewPodIff`, `NewPodMissed`).

`dafny verify dfyconfig.toml` checks the whole project.

## Model

| member | source | states |
|---|---|---|
| Text.PortRoundTrip | pkg/controller/utils.go:111-127 | for every port p, validating p's decimal text gives p (a port is 16 bits, section 3.1 of RFC 9293) |
| Text.PortTextIff | pkg/controller/utils.go:111-127 | exactly the texts of one optional sign and decimal digits with a value in 0..99999 are accepted, for their low 16 bits; all others give port 0 |
| Text.PortCollisions | pkg/controller/utils.go:113-126 | two accepted texts give one port exactly when their values are equal or 65536 apart |
| Text.PortCollisionHappens | pkg/controller/utils.go:114-126 | such collisions occur: 65616 is taken for port 80 and 65536 for port 0 |
| Text.PortUsableIff | pkg/controller/utils.go:113-126 | an accepted text yields a port libipvs can send exactly when its value is neither 0 nor 65536 |
| Text.ValidateIPv4 | pkg/controller/utils.go:88-109 | accepts exactly texts of at least four fields, each a decimal text in 0..255, and carries the text on unchanged |
| Text.AddressTextIff | pkg/controller/utils.go:88-109 | in terms of the text itself: four or more fields between dots, each a number up to 255, possibly signed (a minus only before zero) |
| Text.SplitIff | pkg/controller/utils.go:90 | the fields of a text are the only ones without separators that make it up |
| Text.AddressRoundTrip | pkg/controller/utils.go:88-109 | a printed IPv4address (section 3.2.2 of RFC 3986) is accepted and parses back to the same octets |
| Text.AcceptedParsesIff | pkg/controller/utils.go:92-107 | an accepted text parses as an address exactly when it has four fields and none is signed |
| Text.ParsedOctets | pkg/controller/utils.go:88-109 | the parsed octets are the decimal values of the four fields, leading zeros or not |
| Text.ParsesIsAccepted | pkg/controller/utils.go:88-109 | every text that parses is accepted |
| Text.AcceptedNotParsed | pkg/controller/utils.go:92-107 | the converse fails: some accepted text does not parse |
| Text.TagOfKey | pkg/controller/controller.go:321-322 | the part of a key before its first underscore is the tag the key was built with |
| Text.ContainsIff | pkg/controller/controller.go:186 | a text contains a part exactly when something, possibly nothing, stands before it and after it |
| Libipvs.Handle.NewService | vendor/github.com/mqliang/libipvs/ipvs.go:140-144 | adds an absent service or fails and changes nothing; an applicable call that does not fail succeeds; panics exactly on a service without mark and port |
| Libipvs.Handle.DelService | vendor/github.com/mqliang/libipvs/ipvs.go:153-158 | removes a present service with its destinations, or fails and changes nothing; panics exactly on a service without mark and port |
| Libipvs.Handle.NewDestination | vendor/github.com/mqliang/libipvs/ipvs.go:160-165 | adds an absent destination to a present service, or fails and changes nothing; panics exactly on an unidentified service or a missing address |
| Libipvs.Handle.DelDestination | vendor/github.com/mqliang/libipvs/ipvs.go:174-179 | removes a present destination, or fails and changes nothing; panics exactly on an unidentified service or a missing address |
| TableView.CanonicalIff | pkg/provider/ipvs/ipvsdr.go:283-297 | a well-formed table has no empty service exactly when its services are those of its triples |
| Ipvsdr.LvsManager.Base | pkg/provider/ipvs/ipvsdr.go:78-119 | only tcp and udp are supported; the service carries the configured virtual address, scheduler and timeout, no mark, the protocol and the port; the destination carries the parsed address and the port |
| Ipvsdr.LvsManager.ValidIsConfigured | pkg/provider/ipvs/ipvsdr.go:102-110 | after any run of Add, Del and DelRServer, every service in the table carries the configured address, scheduler and timeout, and no mark |
| Ipvsdr.LvsManager.EnsureService | pkg/provider/ipvs/ipvsdr.go:229-248 | afterwards the service exists and no triple changed, or the table is untouched; with port 0 it panics unless a call fails; it fails only when a call does |
| Ipvsdr.LvsManager.EnsureDestination | pkg/provider/ipvs/ipvsdr.go:250-268 | inserts exactly one triple, or leaves the table alone; an address that did not parse makes it panic unless a call fails; it fails only when a call does |
| Ipvsdr.LvsManager.DeleteDestination | pkg/provider/ipvs/ipvsdr.go:270-281 | removes at most that triple, and its service only if left empty; panics exactly on port 0 or an address that did not parse, changing nothing |
| Ipvsdr.LvsManager.DeleteDeadSvc | pkg/provider/ipvs/ipvsdr.go:283-297 | without error the service stays exactly when it serves a triple |
| Ipvsdr.LvsManager.Add | pkg/provider/ipvs/ipvsdr.go:154-172 | refines inserting one triple, exactly so when no call fails in it; on error nothing changed; a failed insert can leave an empty service; with port 0 or an address that does not parse no triple changes, and it panics unless a call fails |
| Ipvsdr.LvsManager.Del | pkg/provider/ipvs/ipvsdr.go:174-187 | refines removing one triple, exactly so when no call fails in it, with the service exactly when that empties it; panics exactly on port 0 or an address that does not parse, changing nothing |
| Ipvsdr.LvsManager.DelRServer | pkg/provider/ipvs/ipvsdr.go:189-227 | errs exactly on the first call that fails, where it stops; only triples of that address go; without error all of them are gone and no service anywhere is empty |
| Ipvsdr.AddKeepsCanonical | pkg/provider/ipvs/ipvsdr.go:154-172 | without failures Add keeps the table canonical and makes the service exist |
| Ipvsdr.DelKeepsCanonical | pkg/provider/ipvs/ipvsdr.go:174-187 | without failures Del keeps the table canonical |
| Ipvsdr.DelUndoesAdd | pkg/provider/ipvs/ipvsdr.go:154-187 | Del after Add of a new triple restores triples and services |
| Ipvsdr.CleanRunRecovers | pkg/provider/ipvs/ipvsdr.go:190-227 | after any faulty run, a later run without error ends where one clean run would have |
| Ipvsdr.FailedAddIsCleared | pkg/provider/ipvs/ipvsdr.go:161-227 | the empty service of a failed Add is cleared by a later DelRServer of any address |
| Ports.LBStore.L4Compare | pkg/controller/utils.go:50-86 | on equal maps nothing changes; else the delta is the exact difference, the recorded map becomes the staged one and the staged one empty, for any iteration order |
| Ports.DiffIsExact | pkg/controller/utils.go:57-74 | the delta is the only one whose keys are the symmetric difference and which turns the recorded ports into the staged ones |
| Staging.EventRecords | pkg/controller/controller.go:120-129 | the staged set is empty or equal to the recorded one; an event records its ports, or adds them to the recorded ones when a leftover is staged |
| Staging.RunSettled | pkg/controller/controller.go:120-129 | that shape holds after every run |
| Staging.TracksIff | pkg/controller/controller.go:120-129 | the recorded set is the latest set after every event of a run exactly when no event repeating the set in force is followed directly by a removal |
| Staging.DifferingRunsTrack | pkg/controller/controller.go:120-129 | runs whose successive sets differ, from the initial set on, are tracked |
| Staging.RemovalAfterRepeatMissed | pkg/controller/utils.go:52-55 | a removal straight after a repeated set is missed |
| Staging.DeltaRunSafe | pkg/controller/utils.go:57-83 | after every run all additions of the stored delta are recorded and no deletion is |
| Batch.ApplyKeysAt | pkg/controller/controller.go:319-362 | for an address with one tag, the keys seen so far decide each triple |
| Batch.KeysClosedForm | pkg/controller/controller.go:319-362 | with disjoint tags every iteration order gives the closed form |
| Batch.ProcessAt | pkg/controller/controller.go:319-362 | the closed form: absent for deleting addresses, decided by the port's action for adding ones, else unchanged |
| Batch.OrderFreeIff | pkg/controller/controller.go:319-362 | the iteration order is immaterial exactly when no address carries both tags or no port is to be added |
| Batch.ProcessIdempotent | pkg/controller/controller.go:319-362 | processing a store twice is processing it once |
| Batch.RepeatInAnyOrder | pkg/controller/controller.go:319-362 | the same with two different iteration orders |
| Batch.RetryHeals | pkg/controller/controller.go:328-359 | after a processing with failures, one without reaches what it would have reached directly |
| Queue.FoldAt | pkg/controller/controller.go:60-63 | the last queued reference decides what it can, then the other store, however often each is queued |
| Queue.QueueCollapses | pkg/controller/controller.go:60-63 | any queue amounts to one processing of each queued store's latest contents |
| Queue.RewriteIff | pkg/controller/controller.go:129-133 | rewriting a queued store loses no published work exactly when all it decided is decided by the new contents or to the same effect by the other queued store |
| Queue.RewriteNowIff | pkg/controller/controller.go:129-133 | the same for the present table, where a lost decision does no harm either if it is carried out already and the other queued store leaves it so |
| Queue.FaultIff | pkg/controller/controller.go:317-362 | failing calls in a worker's turn lose nothing exactly when the rest of the queue decides everything the popped store decided, whatever the outcome |
| Queue.FaultNowIff | pkg/controller/controller.go:317-362 | the same for one outcome: what it left undone must be decided by the rest of the queue |
| Queue.QueuedAgainTolerates | pkg/controller/controller.go:317-362 | in particular while the same store is queued once more |
| Pipeline.DeltaReaches | pkg/controller/controller.go:129-133 | processing a published delta over listed backends turns the wanted triples for the old ports into those for the new |
| Pipeline.TcpStep | pkg/controller/controller.go:114-137 | a tcp event keeps: table plus pending work is what the cluster asks for |
| Pipeline.UdpStep | pkg/controller/controller.go:139-162 | the same for a udp event |
| Pipeline.PodStep | pkg/controller/controller.go:256-304 | the same for a pod event |
| Pipeline.StartInvariant | pkg/controller/controller.go:68-99 | the state after Initial satisfies the invariant |
| Pipeline.StepKeepsInvariant | pkg/controller/controller.go:101-378 | every allowed step keeps the invariant, failing kernel calls included where the queue makes up for them |
| Pipeline.PendingIsWanted | pkg/controller/controller.go:68-378 | in every state of every allowed run, folding the queued stores over the table gives ports times backends; with an empty queue the table itself is that |
| Pipeline.PopSeesPublished | pkg/controller/controller.go:317 | references are popped first in first out, and a store not rewritten since it was published is found as published |
| PortDepartures.AnyRunSafe | pkg/controller/controller.go:101-162 | after any run of both protocols, without any hypothesis, both stored deltas are safe to resend |
| PortDepartures.ResentDeltasHarmless | pkg/controller/controller.go:129-158 | after any such run the next port event takes recorded ports times backends to what is recorded then; resending the other protocol's delta changes nothing |
| PortDepartures.SecondPortEventIff | pkg/controller/controller.go:114-162 | of two port events of any protocols before a worker, each with its own agreeing listing, the first is kept, and the second allowed, exactly when there is no backend, the protocols differ, the second repeats the set, or its delta covers the first's |
| PodDepartures.SecondPodEventIff | pkg/controller/controller.go:268-295 | of two pod events before a worker, nothing is lost exactly when they concern one address or the first was no news |
| PortDepartures.PortAllowedIff | pkg/controller/controller.go:114-162 | with an agreeing listing and usable ports that meet no staged leftover, a port event satisfies the hypotheses exactly when it leaves pending what is wanted then |
| PodDepartures.PodAllowedIff | pkg/controller/controller.go:256-304 | a well-formed pod event satisfies the hypotheses of the main theorem exactly when it leaves pending what is wanted then |
| PodDepartures.SecondPodAllowedIff | pkg/controller/controller.go:268-295 | and that is exactly when the hypotheses of the main theorem allow the second event |
| PortDepartures.ReachesIff | pkg/controller/controller.go:129-133 | for any listing and any two pairs of port sets, processing a delta takes the wanted triples of one to those of the other exactly when addresses listed but not announced gain nothing, addresses announced but not listed need no change, and for the rest the delta covers the change |
| PortDepartures.PortEventIff | pkg/controller/controller.go:114-162 | whatever a listing names, a port event of either protocol is right exactly when unannounced addresses gain no port, stale additions of the other protocol included, and the ports are unchanged should an announced address be missing |
| PortDepartures.ListedPodsIff | pkg/controller/controller.go:129-132 | the same for any list of pods, terminating and unannounced ones included, read up to the first bad address (listNginx, lines 185-195) |
| PortDepartures.TerminatingPodReturns | pkg/controller/controller.go:185-195 | with one terminating nginx pod listed, the first configured port serves it again |
| PodDepartures.UpdateIff | pkg/controller/controller.go:289-295 | for any pod and any ports that listCm read before an error, what is pending is what the pod asks for exactly when it withdraws, has no address, or no port read is wrong and none is missing unless the address is served already |
| PodDepartures.AddressReadersIff | pkg/controller/controller.go:256-260 | a pod update leaves the listed nginx pods served exactly when it agrees with the listing on its own address, has none, or there are no ports (listNginx filters by name, line 186; addrUpdateFunc does not) |
| PodDepartures.FirstArgumentIff | pkg/controller/controller.go:256-295 | for any old and new object, publishing for the old one is right for the new one exactly when both say the same of one address or neither says anything new |
| PodDepartures.NewPodIff | pkg/controller/controller.go:258-260 | an old object without an address publishes nothing, which is right exactly when the new object says nothing new |
| PodDepartures.NewPodMissed | pkg/controller/controller.go:258-260 | with one port configured, the update that brings a first nginx pod its address leaves it unserved |
| PodDepartures.ListedPanicsIff | pkg/controller/controller.go:319-362 | over a listing, processing a delta panics exactly when there is a backend and the delta holds port 0 |
| PodDepartures.PodPanicsIff | pkg/controller/controller.go:256-304 | a pod event panics the worker exactly when it announces an accepted address, and some port read is 0 or the address does not parse and there is a port |
| Monitor.NoLostWakeup | pkg/controller/controller.go:115-137 | in every reachable state the queue is within bounds, not all threads sleep, and consumers sleeping on queued work are owed a signal that must wake one of them |
| Monitor.RestIsDrained | pkg/controller/controller.go:310-317 | when the threads have come to rest, the queue is empty and no producer is stuck |
| Monitor.RunsEnd | pkg/controller/controller.go:262-365 | without new events every run ends, within a bound computed from the state |
| Monitor.DeadlockRun | pkg/controller/controller.go:115-137 | with more producers than places, a run puts all threads to sleep on a full queue |
| Monitor.DeadlockIff | pkg/controller/controller.go:115-137 | for any number of consumers, all threads can fall asleep exactly when there are more producers than places, Signal being free to wake any sleeper |
| Monitor.ProgramCannotDeadlock | cmd/lvs-controller/main.go:57 | with two callbacks and three places that cannot happen, whatever the number of workers |
| Fifo.FifoNeverDeadlocks | pkg/controller/controller.go:115-137 | when Signal wakes the longest sleeper, as in Go's runtime, no numbers of threads and places let all sleep, and rest means a drained queue |
| Program.TableFollowsCluster | pkg/controller/controller.go:68-378 | in every reachable state of any interleaving, table plus queued work is what the cluster asks for; once the threads rest the table is exactly ports times backends |
| Program.ProgramRests | pkg/controller/controller.go:101-378 | without new events no run of the whole program is longer than a bound computed from its state |
| Rest.RunReports | pkg/controller/controller.go:101-378 | in any run the cluster the table follows changes by the contents of the published events and nothing else |
| Rest.Progress | pkg/controller/controller.go:101-378 | while the threads are not at rest, some thread can go on without a new event, and where it publishes it publishes the held event whose turn it is |
| Rest.StuckIsRest | pkg/controller/controller.go:101-378 | a state that allows nothing but new events is at rest, with an empty queue and the table exactly as wanted |
| Rest.StuckServes | pkg/controller/controller.go:101-378 | where any run cannot go on without a new event, the table serves the cluster it began with, changed by the published events; with none held or arriving, that cluster itself |
| Rest.CanRest | pkg/controller/controller.go:101-378 | from every state that satisfies the invariant, a run without new events publishes exactly the held events, in any order the hypotheses allow, and comes to rest in the one world they lead to |
| Rest.TableIsReached | pkg/controller/controller.go:68-378 | every run from the start can be continued without new events, publishing exactly the held ones, until the table serves the cluster at hand as they change it |
| Program.QueueBalance | pkg/controller/controller.go:92 | pushes equal pops plus what is queued, and the queue never exceeds its capacity |
| Program.OneWorkerSuffices | pkg/controller/controller.go:310-364 | any schedule of any number of workers does to the data what one worker could do, step for step |
| Controller.LoadBalancerController.constructor | pkg/controller/controller.go:380-406 | nothing is recorded, stored, queued or served; a configured namespace is kept and an empty one becomes ingress-nginx; the provider gets the configuration |
| Controller.LoadBalancerController.ListNginx | pkg/controller/controller.go:172-197 | a failed list leaves the addresses; else, errs exactly on a bad address, and of the pods before the first bad one lists exactly those with an address whose name contains the pattern anywhere, each under adding_ and its name |
| Controller.LoadBalancerController.ListCm | pkg/controller/controller.go:199-238 | errs exactly on a failed list or a bad key; leaves the accepted ports of all matching configmaps before the first bad one, and of that one no tcp ports if it matches the udp service, else any of the accepted ones |
| Controller.CmReadGood | pkg/controller/controller.go:215-236 | without a bad key those are exactly the accepted ports; in any case none is made up |
| Controller.EarlierPortsRead | pkg/controller/controller.go:215-236 | a port accepted from a matching configmap before the first bad one is there |
| Controller.LoadBalancerController.UpdatePorts | pkg/controller/controller.go:101-170 | is the pipeline's tcp or udp event for the accepted keys, or nothing |
| Controller.LoadBalancerController.AddrUpdateFunc | pkg/controller/controller.go:256-304 | is the pipeline's pod event with the one tagged address and the ports of listCm |
| Controller.LoadBalancerController.Initial | pkg/controller/controller.go:68-99 | errs exactly on a failed list, a bad key or a bad address, and then queues nothing; records the listed ports unless the configmaps were at fault; else queues the listing |
| Controller.LoadBalancerController.SyncPorts | pkg/controller/controller.go:325-353 | for one port map: a failed operation costs its own triple and nothing else, and is logged; only a panic ends the loop, and the ports left then are untouched |
| Controller.LoadBalancerController.ProcessItem | pkg/controller/controller.go:306-369 | pops the first reference; whatever fails, every triple not blamed for a failure is as applying all keys in some order makes it; without failures panics exactly on a store that asks for a port or address libipvs cannot send, having done some keys in full and one in part, tcp before udp; else is the pipeline's worker step if the tags are disjoint, and keeps the table canonical |
| Controller.FailuresBound | pkg/controller/controller.go:317-362 | the triples of adding addresses that a turn missed and the deleting addresses it left served are logged as failures, and are together no more than those |
| Controller.Boot | cmd/lvs-controller/main.go:50-56 | construction and Initial leave the pipeline's start state, with the configured namespace and provider settings |
| Controller.PodUpdateIsStep | pkg/controller/controller.go:272-295 | with agreeing listings a pod update publishes the pipeline's pod addition or removal |
| Controller.ListingIsExact | pkg/controller/controller.go:185-195 | without a bad address a listing names exactly the listed nginx backends |
| Controller.ReadersAgree | pkg/controller/controller.go:215-236 | when one configmap matches the service, listing it gives the ports updatePorts accepts |
| Controller.ReadBothWays | pkg/controller/controller.go:120-128 | with good keys the staged and the listed ports agree for any key order; with bad keys the listed ones are a subset |
| Controller.RacyAddIff | pkg/controller/controller.go:241-254 | an unlocked add into a store announcing a removal makes the outcome order-dependent exactly when it names the removed address and there is a port to add |
| Simulation.Started | cmd/lvs-controller/main.go:50-56 | after construction and Initial on good listings the object simulates the start world |
| Simulation.StartedAndHeard | pkg/controller/controller.go:256-260 | a first update of a pod in the configured namespace takes object and world along the pipeline's pod step |
| Simulation.PortsChanged | pkg/controller/controller.go:101-170 | under the hypotheses a configmap update takes object and world along one allowed step, invariant included |
| Simulation.PodChanged | pkg/controller/controller.go:256-304 | the same for a pod update |
| Simulation.PodHeard | pkg/controller/controller.go:256-304 | for any pod and any configmaps, bad keys included, the object's pending work is what the pod asks for exactly when the ports read do |
| Simulation.Worked | pkg/controller/controller.go:310-364 | a worker's turn never panics and does all but what was blamed; it is the pipeline's worker step without failures, and its faulty step if the rest of the queue decides what was blamed |
| Simulation.IdleTable | pkg/controller/controller.go:306-369 | whenever the channel is empty, the kernel table of the object serves exactly ports times backends, every service with the configured settings |

## Left out

- Kubernetes clients, informers, listers and generated code: list results are inputs that may fail.
- Init, Intf, initIptables and Fwmark of the provider: shell commands and randomness; marking is off and the table starts flushed.
- Netlink encoding inside libipvs: only the list, new and delete calls have contracts. Forwarding method, weight and counters of destinations are not modelled, and a listing comes in the table's own order.
- What a panic does beyond ending the handler: the program ends there, with the lock held and the table as it is.
- Text.ParseIP: texts with a colon (IPv6) are not parsed; leading zeros are accepted as in Go before 1.17.
- Controller.LoadBalancerController.UpdatePorts: a nil and an empty data map count as equal, where reflect.DeepEqual tells them apart; the difference is one more event with an empty port set.
- The wait loops inside the handlers: each method starts where its wait loop has ended; waiting, waking and interleaving are the monitor's steps. The monitor lets Signal wake any sleeper, which includes the order Go's runtime uses; so its safety results hold for Go, while the deadlock of `DeadlockRun` and `DeadlockIff` needs a Signal that passes older sleepers over, and in Go's order there is none (`FifoNeverDeadlocks`).
- A change of the cluster and the event that reports it are one step of the pipeline; delays between the two, and listings that run ahead of events, are excluded by the hypothesis on listings. What an event finds when it is published (the listing, a staged leftover) is fixed then, not when it arrives; `Rest` assumes that each held event meets the hypotheses in its turn, which for pod events is no condition (`PodsInTurn`).
- addrAddFunc as a step: it writes without the lock and is marked deprecated; only its effect on a store is covered (`RacyAddIff`).
- What follows an error of Initial, which keeps the lock: the program ends there. Closing the channel at shutdown, sleeps and logging.
- Command line, profiling servers, install scripts, the custom resource and the structures of docs/design.md that no code implements; the stubs AddrGet, AddrSet, L4Set and L4Get.
